/**
 * The line-count law: a file longer than its limit is reported. Test files
 * (any path containing "test", ignoring case) get their own, usually lower,
 * limit.
 */
module CheckLoc {
  import opened Wrappers
  import opened Text
  import opened Messages

  /** The two limits given on the command line (`--test-max`, `--source-max`). */
  datatype Limits = Limits(testMax: int, sourceMax: int)

  /** `str.lower` on one character, for the ASCII letters. */
  function LowerChar(c: char): (d: char)
    ensures 'A' <= c <= 'Z' ==> d as int == c as int + 32
    ensures !('A' <= c <= 'Z') ==> d == c
  {
    if 'A' <= c <= 'Z' then (c as int + 32) as char else c
  }

  /** `str.lower`. */
  function Lower(s: string): (r: string)
    ensures |r| == |s| && forall i :: 0 <= i < |s| ==> r[i] == LowerChar(s[i])
  {
    seq(|s|, i requires 0 <= i < |s| => LowerChar(s[i]))
  }

  /** Lowering twice is lowering once. */
  lemma LowerIdempotent(s: string)
    ensures Lower(Lower(s)) == Lower(s)
  {
    assert forall i :: 0 <= i < |s| ==> LowerChar(LowerChar(s[i])) == LowerChar(s[i]);
  }

  /** `"test" in rel.lower()`. */
  predicate IsTestPath(rel: string)
  {
    Contains(Lower(rel), "test")
  }

  /** Whether a path counts as a test does not depend on letter case. */
  lemma IsTestPathCaseBlind(rel: string)
    ensures IsTestPath(Lower(rel)) <==> IsTestPath(rel)
  {
    LowerIdempotent(rel);
  }

  /** `check_loc(rel, loc, args)`. */
  function CheckLoc(rel: string, loc: nat, limits: Limits): Option<Finding>
  {
    var isTest := IsTestPath(rel);
    var limit := if isTest then limits.testMax else limits.sourceMax;
    if loc > limit then
      var kind := if isTest then "test" else "source";
      Some(Finding("loc", rel + ": " + NatToString(loc) + " lines (" + kind + ", limit "
                          + IntToString(limit) + ", over by " + IntToString(loc - limit) + ")"))
    else None
  }

  /**
   * A file is reported exactly when it is longer than the limit for its kind;
   * the rule is "loc", the kind named is "test" exactly when the test limit
   * applied, and the overage printed is a positive number (no sign).
   */
  lemma CheckLocReport(rel: string, loc: nat, limits: Limits)
    ensures var limit := if IsTestPath(rel) then limits.testMax else limits.sourceMax;
      && (CheckLoc(rel, loc, limits).None? <==> loc <= limit)
      && (CheckLoc(rel, loc, limits).Some? ==>
            && loc - limit > 0
            && CheckLoc(rel, loc, limits).value.rule == "loc"
            && CheckLoc(rel, loc, limits).value.message
               == rel + ": " + NatToString(loc) + " lines ("
                  + (if IsTestPath(rel) then "test" else "source")
                  + ", limit " + IntToString(limit) + ", over by " + NatToString(loc - limit) + ")")
  {
  }

  /** A file at exactly its limit passes, and one line more is reported. */
  lemma CheckLocThreshold(rel: string, loc: nat, limits: Limits)
    requires loc == (if IsTestPath(rel) then limits.testMax else limits.sourceMax)
    ensures CheckLoc(rel, loc, limits).None?
    ensures CheckLoc(rel, loc + 1, limits).Some?
  {
  }

  /** A longer file is reported whenever a shorter one is. */
  lemma CheckLocMonotone(rel: string, loc: nat, more: nat, limits: Limits)
    requires loc <= more
    ensures CheckLoc(rel, loc, limits).Some? ==> CheckLoc(rel, more, limits).Some?
  {
  }

  /** The test limit and the source limit never mix: only the applicable one matters. */
  lemma CheckLocIgnoresOtherLimit(rel: string, loc: nat, limits: Limits, other: int)
    ensures IsTestPath(rel) ==> CheckLoc(rel, loc, limits) == CheckLoc(rel, loc, limits.(sourceMax := other))
    ensures !IsTestPath(rel) ==> CheckLoc(rel, loc, limits) == CheckLoc(rel, loc, limits.(testMax := other))
  {
  }
}
