/**
 * A user's monthly usage: the share of the analysis quota used, and whether
 * another analysis is allowed. A negative limit means unlimited.
 */
module User {

  /** `UserUsage`, limited to the counts the properties read. */
  datatype UserUsage = UserUsage(analysesUsed: int, analysesLimit: int)

  /** `usage_percentage`: used over limit, in percent, capped at 100; 0 without a positive limit. */
  function UsagePercentage(u: UserUsage): (pct: real)
    ensures u.analysesLimit <= 0 ==> pct == 0.0
    ensures pct <= 100.0
    ensures u.analysesUsed >= 0 ==> pct >= 0.0
    ensures u.analysesLimit > 0 && u.analysesUsed <= u.analysesLimit ==>
              pct * (u.analysesLimit as real) == (u.analysesUsed as real) * 100.0
  {
    if u.analysesLimit <= 0 then 0.0
    else
      var share := (u.analysesUsed as real) / (u.analysesLimit as real) * 100.0;
      UsageShareBounds(u.analysesUsed, u.analysesLimit);
      if share < 100.0 then share else 100.0
  }

  lemma UsageShareBounds(used: int, limit: int)
    requires limit > 0
    ensures var share := (used as real) / (limit as real) * 100.0;
            && share * (limit as real) == (used as real) * 100.0
            && (used >= 0 ==> share >= 0.0)
            && (used <= limit ==> share <= 100.0)
            && (used >= limit ==> share >= 100.0)
            && (used < limit ==> share < 100.0)
  {
    var q, l := (used as real) / (limit as real), limit as real;
    assert q * l == used as real;
    if q < 0.0 {
      assert q * l < 0.0;
    }
    if q > 1.0 {
      assert (q - 1.0) * l > 0.0;
    }
    if q < 1.0 {
      assert (1.0 - q) * l > 0.0;
    }
  }

  /** `can_analyze`: always with an unlimited quota, otherwise while below the limit. */
  function CanAnalyze(u: UserUsage): (ok: bool)
    ensures u.analysesLimit < 0 ==> ok
    ensures u.analysesLimit >= 0 ==> (ok <==> u.analysesUsed < u.analysesLimit)
    ensures u.analysesLimit == 0 ==> (ok <==> u.analysesUsed < 0)
  {
    u.analysesLimit < 0 || u.analysesUsed < u.analysesLimit
  }

  /** A user with a positive limit who may not analyse again has used the whole quota. */
  lemma RefusedMeansFullyUsed(u: UserUsage)
    requires u.analysesLimit > 0
    requires !CanAnalyze(u)
    ensures UsagePercentage(u) == 100.0
  {
    UsageShareBounds(u.analysesUsed, u.analysesLimit);
  }

  /** A user below a positive limit has used less than the whole quota. */
  lemma AllowedMeansBelowFull(u: UserUsage)
    requires u.analysesLimit > 0
    requires CanAnalyze(u)
    ensures UsagePercentage(u) < 100.0
  {
    UsageShareBounds(u.analysesUsed, u.analysesLimit);
  }
}
