/**
 * The clean-up every emitted file goes through before it is written: while
 * four newlines in a row remain, each such run is replaced by three.
 */
module BlankRuns {
  import opened Text

  const FourNewlines: string := "\n\n\n\n"
  const ThreeNewlines: string := "\n\n\n"

  /** `s` with every newline removed: what the collapse must leave alone. */
  function StripNewlines(s: string): (r: string)
    ensures '\n' !in r
    ensures |r| <= |s|
  {
    if s == [] then []
    else if s[0] == '\n' then StripNewlines(s[1..])
    else [s[0]] + StripNewlines(s[1..])
  }

  lemma {:induction false} StripNewlinesAppend(a: string, b: string)
    ensures StripNewlines(a + b) == StripNewlines(a) + StripNewlines(b)
    decreases |a|
  {
    if a != [] {
      assert (a + b)[0] == a[0] && (a + b)[1..] == a[1..] + b;
      StripNewlinesAppend(a[1..], b);
      if a[0] == '\n' {
        assert StripNewlines(a + b) == StripNewlines(a[1..] + b);
      } else {
        assert StripNewlines(a + b) == [a[0]] + StripNewlines(a[1..] + b);
      }
    } else {
      assert a + b == b;
    }
  }

  lemma StripAllNewlines(n: string)
    requires forall i :: 0 <= i < |n| ==> n[i] == '\n'
    ensures StripNewlines(n) == []
    decreases |n|
  {
    if n != [] {
      StripAllNewlines(n[1..]);
    }
  }

  lemma {:induction false} ContainsStep(s: string, pat: string)
    requires |pat| > 0 && |s| >= |pat| && s[..|pat|] != pat
    ensures Contains(s, pat) ==> Contains(s[1..], pat)
  {
    if Contains(s, pat) {
      var i :| 0 <= i <= |s| - |pat| && OccursAt(s, pat, i);
      assert i != 0;
      assert s[1..][i - 1..i - 1 + |pat|] == s[i..i + |pat|];
      assert OccursAt(s[1..], pat, i - 1);
    }
  }

  /** Replacing a pattern by something no longer never grows the text, and shrinks it when the pattern occurs. */
  lemma {:induction false} ReplaceShortens(s: string, pat: string, rep: string)
    requires |rep| < |pat|
    ensures |ReplaceAll(s, pat, rep)| <= |s|
    ensures Contains(s, pat) ==> |ReplaceAll(s, pat, rep)| < |s|
    decreases |s|
  {
    if |s| < |pat| {
    } else if s[..|pat|] == pat {
      ReplaceShortens(s[|pat|..], pat, rep);
    } else {
      ReplaceShortens(s[1..], pat, rep);
      ContainsStep(s, pat);
    }
  }

  /** One pass of `content.replace('\n\n\n\n', '\n\n\n')` keeps every other character in place. */
  lemma {:induction false} ReplaceKeepsText(s: string)
    ensures StripNewlines(ReplaceAll(s, FourNewlines, ThreeNewlines)) == StripNewlines(s)
    decreases |s|
  {
    if |s| < 4 {
    } else if s[..4] == FourNewlines {
      var rest := s[4..];
      ReplaceKeepsText(rest);
      StripNewlinesAppend(ThreeNewlines, ReplaceAll(rest, FourNewlines, ThreeNewlines));
      StripAllNewlines(ThreeNewlines);
      assert s == s[..4] + rest;
      StripNewlinesAppend(s[..4], rest);
      StripAllNewlines(s[..4]);
    } else {
      ReplaceKeepsText(s[1..]);
      assert ReplaceAll(s, FourNewlines, ThreeNewlines)[1..] == ReplaceAll(s[1..], FourNewlines, ThreeNewlines);
    }
  }

  // ---------------------------------------------------------------------
  // The collapse read in one pass: every run of blank lines capped at two
  // ---------------------------------------------------------------------

  /** `k` newlines. */
  function Newlines(k: nat): (r: string)
    ensures |r| == k && forall i :: 0 <= i < k ==> r[i] == '\n'
  {
    if k == 0 then [] else "\n" + Newlines(k - 1)
  }

  function Min(a: int, b: int): int
  {
    if a < b then a else b
  }

  /**
   * `s` read left to right after `run` newlines: a newline is kept while fewer
   * than three newlines precede it in the same run, every other character is kept.
   */
  function CapFrom(s: string, run: nat): string
    decreases |s|
  {
    if s == [] then []
    else if s[0] != '\n' then [s[0]] + CapFrom(s[1..], 0)
    else if run < 3 then "\n" + CapFrom(s[1..], run + 1)
    else CapFrom(s[1..], run)
  }

  /** Every maximal run of `k` newlines replaced by `min(k, 3)` newlines (at most two blank lines). */
  function CapRuns(s: string): string
  {
    CapFrom(s, 0)
  }

  /** Newlines read after a full run are all dropped. */
  lemma {:induction false} CapFromNewlinesDropped(k: nat, t: string)
    ensures CapFrom(Newlines(k) + t, 3) == CapFrom(t, 3)
    decreases k
  {
    if k > 0 {
      assert (Newlines(k) + t)[1..] == Newlines(k - 1) + t;
      CapFromNewlinesDropped(k - 1, t);
    } else {
      assert Newlines(k) + t == t;
    }
  }

  /** `k` newlines read after `run` newlines: only the first `3 - run` of them are kept. */
  lemma {:induction false} CapFromNewlines(k: nat, t: string, run: nat)
    requires run <= 3
    ensures CapFrom(Newlines(k) + t, run) == Newlines(Min(k, 3 - run)) + CapFrom(t, Min(run + k, 3))
    decreases k
  {
    if run == 3 {
      CapFromNewlinesDropped(k, t);
      assert Newlines(0) + CapFrom(t, 3) == CapFrom(t, 3);
    } else if k > 0 {
      var s := Newlines(k) + t;
      assert s[0] == '\n' && s[1..] == Newlines(k - 1) + t;
      CapFromNewlines(k - 1, t, run + 1);
    } else {
      assert Newlines(k) + t == t;
    }
  }

  /** A maximal run of `k` newlines becomes `min(k, 3)` newlines; the rest is read on its own. */
  lemma CapRunsOfRun(k: nat, t: string)
    requires t == [] || t[0] != '\n'
    ensures CapRuns(Newlines(k) + t) == Newlines(Min(k, 3)) + CapRuns(t)
  {
    CapFromNewlines(k, t, 0);
  }

  /** An occurrence in `b` is an occurrence in `a + b`. */
  lemma ContainsInSuffix(a: string, b: string, sub: string)
    ensures Contains(b, sub) ==> Contains(a + b, sub)
  {
    if Contains(b, sub) {
      var i :| 0 <= i <= |b| - |sub| && OccursAt(b, sub, i);
      assert (a + b)[|a| + i..|a| + i + |sub|] == b[i..i + |sub|];
      assert OccursAt(a + b, sub, |a| + i);
    }
  }

  /** Text without four newlines in a row (counting the `run` before it) is read unchanged. */
  lemma {:induction false} NoRunCapped(s: string, run: nat)
    requires run <= 3
    ensures !Contains(Newlines(run) + s, FourNewlines) ==> CapFrom(s, run) == s
    decreases |s|
  {
    if s != [] {
      if s[0] != '\n' {
        assert Newlines(run) + s == (Newlines(run) + [s[0]]) + s[1..];
        ContainsInSuffix(Newlines(run) + [s[0]], s[1..], FourNewlines);
        NoRunCapped(s[1..], 0);
        assert Newlines(0) + s[1..] == s[1..];
      } else if run < 3 {
        assert Newlines(run) + s == Newlines(run + 1) + s[1..];
        NoRunCapped(s[1..], run + 1);
      } else {
        assert (Newlines(run) + s)[..4] == FourNewlines;
        assert OccursAt(Newlines(run) + s, FourNewlines, 0);
      }
    }
  }

  /** Three and four newlines read after `run` newlines leave the same text. */
  lemma FourReadsAsThree(t: string, run: nat)
    requires run <= 3
    ensures CapFrom(FourNewlines + t, run) == CapFrom(ThreeNewlines + t, run)
  {
    assert FourNewlines == Newlines(4) && ThreeNewlines == Newlines(3);
    CapFromNewlines(4, t, run);
    CapFromNewlines(3, t, run);
  }

  /** One pass of `content.replace('\n\n\n\n', '\n\n\n')` does not change the capped text. */
  lemma {:induction false} ReplaceCapped(s: string, run: nat)
    requires run <= 3
    ensures CapFrom(ReplaceAll(s, FourNewlines, ThreeNewlines), run) == CapFrom(s, run)
    decreases |s|
  {
    var r := ReplaceAll(s, FourNewlines, ThreeNewlines);
    if |s| < 4 {
    } else if s[..4] == FourNewlines {
      var t := s[4..];
      assert s == FourNewlines + t;
      assert r == ThreeNewlines + ReplaceAll(t, FourNewlines, ThreeNewlines);
      assert ThreeNewlines == Newlines(3);
      CapFromNewlines(3, ReplaceAll(t, FourNewlines, ThreeNewlines), run);
      CapFromNewlines(3, t, run);
      ReplaceCapped(t, 3);
      FourReadsAsThree(t, run);
    } else {
      assert r == [s[0]] + ReplaceAll(s[1..], FourNewlines, ThreeNewlines);
      assert r[0] == s[0] && r[1..] == ReplaceAll(s[1..], FourNewlines, ThreeNewlines);
      var next: nat := if s[0] != '\n' then 0 else if run < 3 then run + 1 else run;
      ReplaceCapped(s[1..], next);
    }
  }

  /**
   * What the `while '\n\n\n\n' in content` loop leaves: every run of three
   * or more blank lines collapsed to exactly two, everything else as it was.
   */
  function Collapse(s: string): (r: string)
    ensures r == CapRuns(s)
    ensures !Contains(r, FourNewlines)
    ensures |r| <= |s|
    decreases |s|
  {
    if Contains(s, FourNewlines) then
      ReplaceShortens(s, FourNewlines, ThreeNewlines);
      ReplaceCapped(s, 0);
      Collapse(ReplaceAll(s, FourNewlines, ThreeNewlines))
    else
      NoRunCapped(s, 0);
      assert Newlines(0) + s == s;
      s
  }

  /** The collapse changes only newlines: everything else is kept, in order. */
  lemma {:induction false} CollapseKeepsText(s: string)
    ensures StripNewlines(Collapse(s)) == StripNewlines(s)
    decreases |s|
  {
    if Contains(s, FourNewlines) {
      ReplaceShortens(s, FourNewlines, ThreeNewlines);
      ReplaceKeepsText(s);
      CollapseKeepsText(ReplaceAll(s, FourNewlines, ThreeNewlines));
    }
  }

  /** Text with no run of four newlines is written as it is, so collapsing twice is collapsing once. */
  lemma CollapseIdempotent(s: string)
    ensures !Contains(s, FourNewlines) ==> Collapse(s) == s
    ensures Collapse(Collapse(s)) == Collapse(s)
  {
  }

  /** The loop of `stub` and `_write_helpers_file` that rewrites `content` until no four newlines remain. */
  method CollapseBlankRuns(content: string) returns (r: string)
    ensures r == Collapse(content)
    ensures !Contains(r, FourNewlines)
    ensures StripNewlines(r) == StripNewlines(content)
  {
    r := content;
    CollapseKeepsText(content);
    while Contains(r, FourNewlines)
      invariant Collapse(r) == Collapse(content)
      decreases |r|
    {
      ReplaceShortens(r, FourNewlines, ThreeNewlines);
      r := ReplaceAll(r, FourNewlines, ThreeNewlines);
    }
  }
}
