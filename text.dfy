/**
 * Python string operations the decomposer relies on: `''.join`, `sep.join`,
 * `in` on strings, `str.replace`, and `sorted` on strings (code-point order).
 */
module Text {

  /** `''.join(parts)`. */
  function Concat(parts: seq<string>): string
  {
    if parts == [] then "" else Concat(parts[..|parts| - 1]) + parts[|parts| - 1]
  }

  lemma {:induction false} ConcatAppend(a: seq<string>, b: seq<string>)
    ensures Concat(a + b) == Concat(a) + Concat(b)
    decreases |b|
  {
    if b == [] {
      assert a + b == a;
    } else {
      var b' := b[..|b| - 1];
      var ab := a + b;
      assert ab[..|ab| - 1] == a + b' && ab[|ab| - 1] == b[|b| - 1];
      ConcatAppend(a, b');
      assert Concat(ab) == Concat(a + b') + b[|b| - 1];
      assert Concat(b) == Concat(b') + b[|b| - 1];
    }
  }

  /** `sep.join(parts)`. */
  function Join(sep: string, parts: seq<string>): string
  {
    if parts == [] then ""
    else if |parts| == 1 then parts[0]
    else Join(sep, parts[..|parts| - 1]) + sep + parts[|parts| - 1]
  }

  predicate StartsWith(s: string, prefix: string)
  {
    |prefix| <= |s| && s[..|prefix|] == prefix
  }

  predicate EndsWith(s: string, suffix: string)
  {
    |suffix| <= |s| && s[|s| - |suffix|..] == suffix
  }

  predicate OccursAt(s: string, sub: string, i: int)
  {
    0 <= i && i + |sub| <= |s| && s[i..i + |sub|] == sub
  }

  /** Python's `sub in s`. */
  predicate Contains(s: string, sub: string)
  {
    exists i | 0 <= i <= |s| - |sub| :: OccursAt(s, sub, i)
  }

  lemma ContainsShift(c: char, s: string, sub: string)
    requires Contains(s, sub)
    ensures Contains([c] + s, sub)
  {
    var i :| 0 <= i <= |s| - |sub| && OccursAt(s, sub, i);
    assert ([c] + s)[i + 1..i + 1 + |sub|] == s[i..i + |sub|];
    assert OccursAt([c] + s, sub, i + 1);
  }

  /** The prefix of `s` before the first occurrence of `sep`: `s.split(sep)[0]` for one character. */
  function PrefixBefore(s: string, sep: char): (r: string)
    ensures StartsWith(s, r)
    ensures sep !in r
    ensures r == s || s[|r|] == sep
  {
    if s == [] then ""
    else if s[0] == sep then ""
    else [s[0]] + PrefixBefore(s[1..], sep)
  }

  /** Python's `str.replace(pat, rep)`: left to right, non-overlapping. */
  function ReplaceAll(s: string, pat: string, rep: string): string
    requires |pat| > 0
    decreases |s|
  {
    if |s| < |pat| then s
    else if s[..|pat|] == pat then rep + ReplaceAll(s[|pat|..], pat, rep)
    else [s[0]] + ReplaceAll(s[1..], pat, rep)
  }

  // ---------------------------------------------------------------------
  // Ordering of strings (Python compares code point by code point).
  // ---------------------------------------------------------------------

  predicate Less(a: string, b: string)
    decreases |a|
  {
    if a == [] then b != []
    else b != [] && (a[0] < b[0] || (a[0] == b[0] && Less(a[1..], b[1..])))
  }

  predicate LessEq(a: string, b: string)
  {
    a == b || Less(a, b)
  }

  lemma {:induction false} LessIrreflexive(a: string)
    ensures !Less(a, a)
    decreases |a|
  {
    if a != [] {
      LessIrreflexive(a[1..]);
    }
  }

  lemma {:induction false} LessTransitive(a: string, b: string, c: string)
    requires Less(a, b) && Less(b, c)
    ensures Less(a, c)
    decreases |a|
  {
    if a != [] && a[0] == b[0] && b[0] == c[0] {
      LessTransitive(a[1..], b[1..], c[1..]);
    }
  }

  lemma {:induction false} LessTotal(a: string, b: string)
    ensures a == b || Less(a, b) || Less(b, a)
    decreases |a|
  {
    if a != [] && b != [] && a[0] == b[0] {
      LessTotal(a[1..], b[1..]);
      if a[1..] == b[1..] {
        assert a == [a[0]] + a[1..] && b == [b[0]] + b[1..];
      }
    }
  }

  lemma LessAsymmetric(a: string, b: string)
    requires Less(a, b)
    ensures !Less(b, a)
  {
    if Less(b, a) {
      LessTransitive(a, b, a);
      LessIrreflexive(a);
    }
  }

  predicate Sorted(xs: seq<string>)
  {
    forall i, j :: 0 <= i < j < |xs| ==> LessEq(xs[i], xs[j])
  }

  predicate StrictlySorted(xs: seq<string>)
  {
    forall i, j :: 0 <= i < j < |xs| ==> Less(xs[i], xs[j])
  }

  predicate NoDuplicates<T(==)>(xs: seq<T>)
  {
    forall i, j :: 0 <= i < j < |xs| ==> xs[i] != xs[j]
  }

  lemma LessEqTransitive(a: string, b: string, c: string)
    requires LessEq(a, b) && LessEq(b, c)
    ensures LessEq(a, c)
  {
    if a != b && b != c {
      LessTransitive(a, b, c);
    }
  }

  /** Inserts `x` into a sorted list after every element not greater than it. */
  function Insert(x: string, xs: seq<string>): (r: seq<string>)
    requires Sorted(xs)
    ensures Sorted(r)
    ensures multiset(r) == multiset(xs) + multiset{x}
  {
    if xs == [] then [x]
    else if LessEq(x, xs[0]) then
      InsertFrontSorted(x, xs);
      [x] + xs
    else
      LessTotal(x, xs[0]);
      var rest := Insert(x, xs[1..]);
      assert xs == [xs[0]] + xs[1..];
      InsertBehindSorted(xs[0], x, xs[1..], rest);
      [xs[0]] + rest
  }

  lemma InsertFrontSorted(x: string, xs: seq<string>)
    requires Sorted(xs) && xs != [] && LessEq(x, xs[0])
    ensures Sorted([x] + xs)
  {
    forall j | 0 < j < |xs| ensures LessEq(x, xs[j]) {
      LessEqTransitive(x, xs[0], xs[j]);
    }
  }

  lemma InsertBehindSorted(h: string, x: string, tail: seq<string>, rest: seq<string>)
    requires Sorted([h] + tail) && Less(h, x) && Sorted(rest)
    requires multiset(rest) == multiset(tail) + multiset{x}
    ensures Sorted([h] + rest)
  {
    forall j | 0 <= j < |rest| ensures LessEq(h, rest[j]) {
      assert rest[j] in multiset(rest);
      if rest[j] != x {
        assert rest[j] in multiset(tail);
        var k :| 0 <= k < |tail| && tail[k] == rest[j];
        assert ([h] + tail)[k + 1] == tail[k];
        assert LessEq(([h] + tail)[0], ([h] + tail)[k + 1]);
      }
    }
  }

  /** Python's `sorted(xs)` on a list of strings. */
  function SortStrings(xs: seq<string>): (r: seq<string>)
    ensures Sorted(r)
    ensures multiset(r) == multiset(xs)
  {
    if xs == [] then []
    else
      assert xs == [xs[0]] + xs[1..];
      Insert(xs[0], SortStrings(xs[1..]))
  }

  /** The elements of a set as a list without repetition, in an unspecified order. */
  ghost function SetToSeq(s: set<string>): (r: seq<string>)
    ensures |r| == |s| && NoDuplicates(r)
    ensures forall x :: x in r <==> x in s
  {
    if s == {} then []
    else
      var x :| x in s;
      [x] + SetToSeq(s - {x})
  }

  lemma SortedDistinctIsStrict(xs: seq<string>)
    requires Sorted(xs) && NoDuplicates(xs)
    ensures StrictlySorted(xs)
  {
  }

  lemma {:induction false} NoDuplicatesCount<T>(xs: seq<T>, y: T)
    requires NoDuplicates(xs)
    ensures multiset(xs)[y] <= 1
    decreases |xs|
  {
    if xs != [] {
      assert xs == [xs[0]] + xs[1..];
      NoDuplicatesCount(xs[1..], y);
      if xs[0] == y {
        assert y !in xs[1..];
      }
    }
  }

  lemma RepeatedCount<T>(ys: seq<T>, i: int, j: int)
    requires 0 <= i < j < |ys|
    ensures ys[i] == ys[j] ==> multiset(ys)[ys[i]] >= 2
  {
    assert ys == ys[..i] + [ys[i]] + ys[i + 1..j] + [ys[j]] + ys[j + 1..];
  }

  lemma DistinctMultiset(xs: seq<string>, ys: seq<string>)
    requires NoDuplicates(xs) && multiset(ys) == multiset(xs)
    ensures NoDuplicates(ys)
  {
    forall i, j | 0 <= i < j < |ys| ensures ys[i] != ys[j] {
      NoDuplicatesCount(xs, ys[i]);
      RepeatedCount(ys, i, j);
    }
  }

  /** Python's `sorted(s)` on a set of strings: every element once, strictly ascending. */
  ghost function SortedSet(s: set<string>): (r: seq<string>)
    ensures StrictlySorted(r) && |r| == |s|
    ensures forall x :: x in r <==> x in s
  {
    var l := SetToSeq(s);
    var r := SortStrings(l);
    DistinctMultiset(l, r);
    assert forall x :: x in r <==> x in multiset(l);
    r
  }

  /** Two strictly ascending lists with the same elements are the same list. */
  lemma {:induction false} StrictlySortedUnique(a: seq<string>, b: seq<string>)
    requires StrictlySorted(a) && StrictlySorted(b)
    requires forall x :: x in a <==> x in b
    ensures a == b
    decreases |a|
  {
    assert a != [] ==> a[0] in a;
    assert b != [] ==> b[0] in b;
    if a != [] && b != [] {
      HeadIsLeast(a, b);
      HeadIsLeast(b, a);
      if a[0] != b[0] {
        LessAsymmetric(a[0], b[0]);
      }
      forall x ensures x in a[1..] <==> x in b[1..] {
        TailMembers(a, x);
        TailMembers(b, x);
      }
      StrictlySortedUnique(a[1..], b[1..]);
      assert a == [a[0]] + a[1..] && b == [b[0]] + b[1..];
    }
  }

  lemma HeadIsLeast(a: seq<string>, b: seq<string>)
    requires StrictlySorted(a) && a != [] && b != []
    requires forall x :: x in a <==> x in b
    ensures b[0] == a[0] || Less(a[0], b[0])
  {
    assert b[0] in b;
    var k :| 0 <= k < |a| && a[k] == b[0];
  }

  lemma TailMembers(a: seq<string>, x: string)
    requires StrictlySorted(a) && a != []
    ensures x in a[1..] <==> (x in a && x != a[0])
  {
    if x in a[1..] {
      var k :| 0 <= k < |a[1..]| && a[1..][k] == x;
      assert Less(a[0], a[k + 1]);
      LessIrreflexive(x);
    }
    if x in a && x != a[0] {
      var k :| 0 <= k < |a| && a[k] == x;
      assert a[1..][k - 1] == x;
    }
  }

  /** Iterating a Python set: its elements once each, in some order. */
  method ListFromSet(s: set<string>) returns (r: seq<string>)
    ensures |r| == |s| && NoDuplicates(r)
    ensures forall x :: x in r <==> x in s
  {
    r := [];
    var rest := s;
    while rest != {}
      invariant rest <= s
      invariant NoDuplicates(r)
      invariant forall x :: x in r <==> x in s - rest
      invariant |r| + |rest| == |s|
      decreases rest
    {
      var x :| x in rest;
      assert x !in r;
      r := r + [x];
      rest := rest - {x};
    }
  }

  /** Python's `sorted(s)` for a set `s`, computed. */
  method SortedNames(s: set<string>) returns (r: seq<string>)
    ensures r == SortedSet(s)
    ensures StrictlySorted(r) && forall x :: x in r <==> x in s
  {
    var l := ListFromSet(s);
    r := SortStrings(l);
    DistinctMultiset(l, r);
    assert forall x :: x in r <==> x in multiset(l);
    StrictlySortedUnique(r, SortedSet(s));
  }

  // ---------------------------------------------------------------------
  // Subsequences: order-preserving selections without repetition.
  // ---------------------------------------------------------------------

  ghost predicate IsSubsequence<T>(xs: seq<T>, ys: seq<T>)
    decreases |ys|
  {
    xs == [] ||
    (ys != [] && ((xs[0] == ys[0] && IsSubsequence(xs[1..], ys[1..])) || IsSubsequence(xs, ys[1..])))
  }
}
