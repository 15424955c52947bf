/** The `TIER_LIMITS` table and the lookup the status route performs on it. */
module Tiers {
  import opened Wrappers
  import opened Plans

  /** -1 in an allowance means unlimited. */
  const UNLIMITED: int := -1

  datatype Limits = Limits(maxChildren: int, dailyQuestions: int, dailyAiCalls: int)

  /** `TIER_LIMITS`: the three rows of the table, one per known tier. */
  function TierTable(): (t: map<string, Limits>)
    ensures t.Keys == {FREE, SCHOLAR, ACHIEVER}
    ensures t[FREE] == Limits(2, 20, 10)
    ensures t[SCHOLAR] == Limits(5, UNLIMITED, UNLIMITED)
    ensures t[ACHIEVER] == Limits(10, UNLIMITED, UNLIMITED)
  {
    map[FREE := Limits(2, 20, 10),
        SCHOLAR := Limits(5, UNLIMITED, UNLIMITED),
        ACHIEVER := Limits(10, UNLIMITED, UNLIMITED)]
  }

  /** A tier the table has a row for. */
  predicate KnownTier(tier: string)
  {
    tier == FREE || tier == SCHOLAR || tier == ACHIEVER
  }

  /**
   * `TIER_LIMITS[tier] || TIER_LIMITS.free`: the row of a known tier, the free row
   * for a missing or unknown one. Paid tiers, and only they, have unlimited daily
   * questions and AI calls.
   */
  function LimitsFor(tier: Option<string>): (r: Limits)
    ensures tier.Some? && KnownTier(tier.value) ==> r == TierTable()[tier.value]
    ensures !(tier.Some? && KnownTier(tier.value)) ==> r == Limits(2, 20, 10)
    ensures tier == Some(FREE) ==> r == Limits(2, 20, 10)
    ensures tier == Some(SCHOLAR) ==> r == Limits(5, UNLIMITED, UNLIMITED)
    ensures tier == Some(ACHIEVER) ==> r == Limits(10, UNLIMITED, UNLIMITED)
    ensures r.dailyQuestions == UNLIMITED <==> tier == Some(SCHOLAR) || tier == Some(ACHIEVER)
    ensures r.dailyAiCalls == UNLIMITED <==> tier == Some(SCHOLAR) || tier == Some(ACHIEVER)
    ensures r.maxChildren >= 2
  {
    if tier.Some? && tier.value in TierTable() then TierTable()[tier.value] else TierTable()[FREE]
  }

  /** The order of the plans: free below scholar below achiever. */
  function Rank(tier: string): nat
  {
    if tier == ACHIEVER then 2 else if tier == SCHOLAR then 1 else 0
  }

  /** Allowance `a` is at least `b`, reading -1 as unlimited. */
  predicate AllowanceAtLeast(a: int, b: int)
  {
    a == UNLIMITED || (b != UNLIMITED && a >= b)
  }

  predicate AtLeastAsGenerous(x: Limits, y: Limits)
  {
    x.maxChildren >= y.maxChildren
    && AllowanceAtLeast(x.dailyQuestions, y.dailyQuestions)
    && AllowanceAtLeast(x.dailyAiCalls, y.dailyAiCalls)
  }

  /** A higher plan never grants less than a lower one, and every plan grants at least the free row. */
  lemma HigherTierGrantsMore(t: string, u: string)
    requires KnownTier(t) && KnownTier(u) && Rank(t) >= Rank(u)
    ensures AtLeastAsGenerous(LimitsFor(Some(t)), LimitsFor(Some(u)))
    ensures Rank(t) > Rank(u) ==> LimitsFor(Some(t)).maxChildren > LimitsFor(Some(u)).maxChildren
  {
  }
}
