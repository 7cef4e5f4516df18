/**
 * `_fix_script_dir_depth`: the substitution of
 * `(=\s*)os.path.dirname(os.path.abspath(__file__))` by the same assignment
 * with one more `os.path.dirname(...)` around it, applied the way `re.sub`
 * does: left to right, to every non-overlapping match.
 */
module ScriptDir {
  import opened Text

  const Dirname: string := "os.path.dirname("
  /** The idiom for the directory of the running script. */
  const Original: string := Dirname + "os.path.abspath(__file__))"
  /** The same idiom one directory higher, as a file moved into a sub-package needs. */
  const Rewritten: string := Dirname + Original + ")"

  lemma IdiomFacts()
    ensures |Original| == 42 && Original[0] == 'o' && '=' !in Original
    ensures |Rewritten| == 59 && Rewritten[0] == 'o' && '=' !in Rewritten
  {
  }

  lemma RewrittenStart()
    ensures |Rewritten| > 0 && Rewritten[0] == 'o'
  {
    assert Rewritten == Dirname + Original + ")";
  }

  /** A replacement never starts a new match of the idiom. */
  lemma RewrittenIsNoMatch(x: string)
    ensures !StartsWith(Rewritten + x, Original)
  {
    assert (Rewritten + x)[24] == Rewritten[24] == 'd' && Original[24] == 'a';
  }

  /** The characters `\s` matches in a `str` pattern (Python's Unicode whitespace). */
  predicate IsSpace(c: char)
  {
    ('\t' <= c <= '\r') || ('\U{1C}' <= c <= '\U{1F}') || c == ' ' || c == '\U{85}' || c == '\U{A0}' ||
    c == '\U{1680}' || ('\U{2000}' <= c <= '\U{200A}') || c == '\U{2028}' || c == '\U{2029}' ||
    c == '\U{202F}' || c == '\U{205F}' || c == '\U{3000}'
  }

  /** The length of the longest run of whitespace at the start of `s` (what greedy `\s*` consumes). */
  function SpaceRun(s: string): (n: nat)
    ensures n <= |s|
    ensures forall i :: 0 <= i < n ==> IsSpace(s[i])
    ensures n < |s| ==> !IsSpace(s[n])
  {
    if s != [] && IsSpace(s[0]) then 1 + SpaceRun(s[1..]) else 0
  }

  /** The pattern matches at the start of `s`. */
  predicate IdiomAt(s: string)
  {
    |s| > 0 && s[0] == '=' && StartsWith(s[1 + SpaceRun(s[1..])..], Original)
  }

  /** The pattern matches somewhere in `s`. */
  predicate HasIdiom(s: string)
  {
    exists i | 0 <= i < |s| :: IdiomAt(s[i..])
  }

  /** `_SCRIPT_DIR_RE.sub(r'\1os.path.dirname(os.path.dirname(os.path.abspath(__file__)))', s)`. */
  function FixScriptDirDepth(s: string): string
    decreases |s|
  {
    if s == [] then []
    else if IdiomAt(s) then
      var k := 1 + SpaceRun(s[1..]);
      s[..k] + Rewritten + FixScriptDirDepth(s[k + |Original|..])
    else [s[0]] + FixScriptDirDepth(s[1..])
  }

  /** Text in which the pattern does not occur is returned unchanged. */
  lemma {:induction false} NoIdiomUnchanged(s: string)
    requires !HasIdiom(s)
    ensures FixScriptDirDepth(s) == s
    decreases |s|
  {
    if s != [] {
      assert s[0..] == s;
      assert !HasIdiom(s[1..]) by {
        forall i | 0 <= i < |s[1..]| ensures !IdiomAt(s[1..][i..]) {
          assert s[1..][i..] == s[i + 1..];
        }
      }
      NoIdiomUnchanged(s[1..]);
      assert s == [s[0]] + s[1..];
    }
  }

  /** A prefix free of `=` survives the rewrite only if the input had it too. */
  lemma {:induction false} EqFreePrefixKept(t: string, u: string)
    requires '=' !in u
    ensures StartsWith(FixScriptDirDepth(t), u) ==> StartsWith(t, u)
    decreases |t|
  {
    if t != [] && u != [] {
      var f := FixScriptDirDepth(t);
      if IdiomAt(t) {
        assert f[0] == '=';
        assert u[0] in u;
      } else {
        assert f == [t[0]] + FixScriptDirDepth(t[1..]);
        assert '=' !in u[1..] by { assert forall c :: c in u[1..] ==> c in u; }
        EqFreePrefixKept(t[1..], u[1..]);
        StartsWithCons(f, u);
        StartsWithCons(t, u);
        assert f[1..] == FixScriptDirDepth(t[1..]);
      }
    }
  }

  /** A prefix test is a test of the first characters and then of the rest. */
  lemma StartsWithCons(x: string, y: string)
    requires x != [] && y != []
    ensures StartsWith(x, y) <==> x[0] == y[0] && StartsWith(x[1..], y[1..])
  {
    if x[0] == y[0] && StartsWith(x[1..], y[1..]) {
      assert x[..|y|] == [x[0]] + x[1..][..|y| - 1];
      assert y == [y[0]] + y[1..];
    }
    if StartsWith(x, y) {
      assert x[1..][..|y| - 1] == x[..|y|][1..];
    }
  }

  /** After an `=`, the rewritten text shows `\s*` + the pattern only where the input did. */
  lemma AfterEqKept(t: string)
    ensures StartsWith(FixScriptDirDepth(t)[SpaceRun(FixScriptDirDepth(t))..], Original) ==>
      StartsWith(t[SpaceRun(t)..], Original)
  {
    var f := FixScriptDirDepth(t);
    var w := SpaceRun(f);
    if StartsWith(f[w..], Original) {
      IdiomFacts();
      var u := f[..w + |Original|];
      assert u == f[..w] + Original;
      assert '=' !in u by {
        forall i | 0 <= i < |u| ensures u[i] != '=' {
          if i >= w { assert u[i] == Original[i - w]; }
        }
      }
      EqFreePrefixKept(t, u);
      assert StartsWith(f, u);
      assert t[w] == u[w] == 'o';
      assert forall i :: 0 <= i < w ==> t[i] == u[i] == f[i];
      assert SpaceRun(t) == w;
      assert t[w..][..|Original|] == u[w..];
    }
  }

  lemma NoIdiomInSuffix(a: string, b: string, i: int)
    requires |a| <= i < |a + b|
    ensures (a + b)[i..] == b[i - |a|..]
  {
  }

  /** No match starts inside a replacement just emitted, whatever follows it. */
  lemma RewrittenHeadClean(s: string, tail: string, i: int)
    requires IdiomAt(s)
    requires 0 <= i < 1 + SpaceRun(s[1..]) + |Rewritten|
    ensures !IdiomAt((s[..1 + SpaceRun(s[1..])] + Rewritten + tail)[i..])
  {
    var k := 1 + SpaceRun(s[1..]);
    var f := s[..k] + Rewritten + tail;
    if i == 0 {
      assert f[0..] == f;
      EqBeforeRewrittenClean(s[..k], tail);
    } else {
      NoEqInsideHead(s[..k], tail, i);
    }
  }

  /** The `=` of a match just rewritten does not match again. */
  lemma EqBeforeRewrittenClean(h: string, tail: string)
    requires |h| > 0 && forall j :: 1 <= j < |h| ==> IsSpace(h[j])
    ensures !IdiomAt(h + Rewritten + tail)
  {
    var f := h + Rewritten + tail;
    var g := f[1..];
    assert g == h[1..] + (Rewritten + tail);
    SpacesBeforeRewritten(h[1..], tail);
    assert f[1 + SpaceRun(g)..] == g[SpaceRun(g)..];
  }

  /** No `=` follows the first character of a rewritten match, so no match starts there. */
  lemma NoEqInsideHead(h: string, tail: string, i: int)
    requires forall j :: 1 <= j < |h| ==> IsSpace(h[j])
    requires 0 < i < |h| + |Rewritten|
    ensures !IdiomAt((h + Rewritten + tail)[i..])
  {
    var f := h + Rewritten + tail;
    if i < |h| {
      assert f[i..][0] == h[i];
    } else {
      IdiomFacts();
      assert f[i..][0] == Rewritten[i - |h|];
    }
    assert f[i..][0] != '=';
  }

  /** Whitespace followed by a replacement: the `=` before it does not start a new match. */
  lemma SpacesBeforeRewritten(w: string, tail: string)
    requires forall j :: 0 <= j < |w| ==> IsSpace(w[j])
    ensures !StartsWith((w + (Rewritten + tail))[SpaceRun(w + (Rewritten + tail))..], Original)
  {
    var g := w + (Rewritten + tail);
    var n := SpaceRun(g);
    RewrittenStart();
    assert g[|w|] == 'o' && !IsSpace('o');
    assert forall j :: 0 <= j < |w| ==> g[j] == w[j];
    assert n == |w|;
    assert g[|w|..] == Rewritten + tail;
    RewrittenIsNoMatch(tail);
  }

  /** The rewritten text contains no further match. */
  lemma {:induction false} FixLeavesNoIdiom(s: string)
    ensures !HasIdiom(FixScriptDirDepth(s))
    decreases |s|
  {
    var f := FixScriptDirDepth(s);
    if s == [] {
    } else if IdiomAt(s) {
      var k := 1 + SpaceRun(s[1..]);
      var rest := s[k + |Original|..];
      var head := s[..k] + Rewritten;
      assert f == head + FixScriptDirDepth(rest);
      FixLeavesNoIdiom(rest);
      forall i | 0 <= i < |f| ensures !IdiomAt(f[i..]) {
        if i < |head| {
          RewrittenHeadClean(s, FixScriptDirDepth(rest), i);
        } else {
          NoIdiomInSuffix(head, FixScriptDirDepth(rest), i);
        }
      }
    } else {
      assert f == [s[0]] + FixScriptDirDepth(s[1..]);
      FixLeavesNoIdiom(s[1..]);
      AfterEqKept(s[1..]);
      forall i | 0 <= i < |f| ensures !IdiomAt(f[i..]) {
        if i == 0 {
          assert f[0..] == f && f[1..] == FixScriptDirDepth(s[1..]);
        } else {
          NoIdiomInSuffix([s[0]], FixScriptDirDepth(s[1..]), i);
        }
      }
    }
  }

  /** Applying the rewrite twice is the same as applying it once. */
  lemma FixIdempotent(s: string)
    ensures FixScriptDirDepth(FixScriptDirDepth(s)) == FixScriptDirDepth(s)
  {
    FixLeavesNoIdiom(s);
    NoIdiomUnchanged(FixScriptDirDepth(s));
  }

  lemma {:induction false} FixLength(s: string)
    ensures |FixScriptDirDepth(s)| >= |s|
    ensures HasIdiom(s) ==> |FixScriptDirDepth(s)| > |s|
    decreases |s|
  {
    if s != [] {
      if IdiomAt(s) {
        var k := 1 + SpaceRun(s[1..]);
        FixLength(s[k + |Original|..]);
      } else {
        FixLength(s[1..]);
        if HasIdiom(s) {
          var i :| 0 <= i < |s| && IdiomAt(s[i..]);
          assert i != 0 by { assert s[0..] == s; }
          assert s[1..][i - 1..] == s[i..];
        }
      }
    }
  }

  /** The rewrite changes the text exactly when the pattern occurs in it. */
  lemma FixChangesIffIdiom(s: string)
    ensures FixScriptDirDepth(s) != s <==> HasIdiom(s)
  {
    FixLength(s);
    if !HasIdiom(s) {
      NoIdiomUnchanged(s);
    }
  }
}
