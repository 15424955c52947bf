/** The environment-derived configuration of the payment handler. */
module Settings {
  import opened Wrappers
  import opened Plans

  /** The environment variables the handler reads; None when unset. */
  datatype Env = Env(
    webhookSecret: Option<string>,
    priceScholar: Option<string>,
    priceAchiever: Option<string>,
    frontendUrl: Option<string>)

  /** The configuration, resolved once from the environment. */
  datatype Config = Config(webhookSecret: string, prices: PriceIds, frontendUrl: string)

  const DEFAULT_PRICE_SCHOLAR: string := "price_scholar"
  const DEFAULT_PRICE_ACHIEVER: string := "price_achiever"
  const DEFAULT_FRONTEND_URL: string := "https://tutor.agentsform.ai"

  /**
   * Every setting takes the environment's value when it is a non-empty string and
   * its default otherwise; the webhook secret defaults to the empty string.
   */
  function ResolveConfig(env: Env): (c: Config)
    ensures c.prices.scholar != "" && c.prices.achiever != "" && c.frontendUrl != ""
    ensures Truthy(env.webhookSecret) ==> c.webhookSecret == env.webhookSecret.value
    ensures !Truthy(env.webhookSecret) ==> c.webhookSecret == ""
    ensures Truthy(env.priceScholar) ==> c.prices.scholar == env.priceScholar.value
    ensures !Truthy(env.priceScholar) ==> c.prices.scholar == DEFAULT_PRICE_SCHOLAR
    ensures Truthy(env.priceAchiever) ==> c.prices.achiever == env.priceAchiever.value
    ensures !Truthy(env.priceAchiever) ==> c.prices.achiever == DEFAULT_PRICE_ACHIEVER
    ensures Truthy(env.frontendUrl) ==> c.frontendUrl == env.frontendUrl.value
    ensures !Truthy(env.frontendUrl) ==> c.frontendUrl == DEFAULT_FRONTEND_URL
  {
    Config(
      OrElse(env.webhookSecret, ""),
      PriceIds(OrElse(env.priceScholar, DEFAULT_PRICE_SCHOLAR), OrElse(env.priceAchiever, DEFAULT_PRICE_ACHIEVER)),
      OrElse(env.frontendUrl, DEFAULT_FRONTEND_URL))
  }

  /** With nothing configured, the default prices are distinct, so plan resolution round-trips. */
  lemma DefaultPricesDistinct(env: Env)
    requires !Truthy(env.priceScholar) && !Truthy(env.priceAchiever)
    ensures ResolveConfig(env).prices.scholar != ResolveConfig(env).prices.achiever
  {
  }
}
