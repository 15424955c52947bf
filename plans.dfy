/** The two paid plans and their configured Stripe price ids (`PRICE_IDS`). */
module Plans {
  import opened Wrappers

  const FREE: string := "free"
  const SCHOLAR: string := "scholar"
  const ACHIEVER: string := "achiever"

  /** `PRICE_IDS`: the price id configured for each paid plan. */
  datatype PriceIds = PriceIds(scholar: string, achiever: string)

  /** The plan whitelist of create-checkout: `!plan || !['scholar', 'achiever'].includes(plan)` rejects. */
  function IsPlan(plan: Option<string>): (ok: bool)
    ensures ok <==> plan == Some(SCHOLAR) || plan == Some(ACHIEVER)
  {
    Truthy(plan) && plan.value in [SCHOLAR, ACHIEVER]
  }

  /** `PRICE_IDS[plan]` for a whitelisted plan. */
  function PriceFor(prices: PriceIds, plan: string): (price: string)
    requires plan == SCHOLAR || plan == ACHIEVER
    ensures plan == ACHIEVER ==> price == prices.achiever
    ensures plan == SCHOLAR ==> price == prices.scholar
  {
    if plan == SCHOLAR then prices.scholar else prices.achiever
  }

  /** The first line item's price, `items.data[0]?.price.id`. */
  function FirstPrice(itemPrices: seq<string>): (r: Option<string>)
    ensures r.Some? <==> |itemPrices| > 0
    ensures r.Some? ==> r.value == itemPrices[0]
  {
    if |itemPrices| == 0 then None else Some(itemPrices[0])
  }

  /**
   * Plan resolution for an updated subscription: the achiever plan exactly when the
   * first item's price is the configured achiever price, the scholar plan otherwise
   * (an empty item list or an unknown price included).
   */
  function ResolvePlan(prices: PriceIds, itemPrices: seq<string>): (plan: string)
    ensures plan == ACHIEVER || plan == SCHOLAR
    ensures plan == ACHIEVER <==> |itemPrices| > 0 && itemPrices[0] == prices.achiever
  {
    if FirstPrice(itemPrices) == Some(prices.achiever) then ACHIEVER else SCHOLAR
  }

  /**
   * Resolving the price that checkout charged for a plan gives that plan back,
   * provided the two configured prices differ.
   */
  lemma PlanRoundTrip(prices: PriceIds, plan: string)
    requires plan == SCHOLAR || plan == ACHIEVER
    requires prices.scholar != prices.achiever
    ensures ResolvePlan(prices, [PriceFor(prices, plan)]) == plan
  {
  }

  /** With one price configured for both plans, a scholar subscription resolves as achiever. */
  lemma SharedPriceMisresolves(prices: PriceIds)
    requires prices.scholar == prices.achiever
    ensures ResolvePlan(prices, [PriceFor(prices, SCHOLAR)]) == ACHIEVER
  {
  }
}
