/** The tier policy of the unified backend: which LLM provider and model a
    request goes to, the daily-limit table, the checkout whitelist and the
    `Authorization: Bearer` header check. Environment variables become
    parameters (`ProviderKeys`, `DailyLimits`, `PriceIds`, the API base URL). */
module UnifiedBackend {
  import opened Http
  import opened Ascii

  /** `SubscriptionTier`, ordered free < premium < pro < founders. */
  datatype Tier = Free | Premium | Pro | Founders

  datatype Provider = OpenAI | Anthropic | Google

  /** Which of `OPENAI_API_KEY`, `ANTHROPIC_API_KEY`, `GOOGLE_AI_API_KEY` are set. */
  datatype ProviderKeys = ProviderKeys(openai: bool, anthropic: bool, google: bool)

  function Rank(t: Tier): (r: nat) {
    match t
    case Free => 0
    case Premium => 1
    case Pro => 2
    case Founders => 3
  }

  /** The enum's string value. */
  function TierName(t: Tier): (name: string) {
    match t
    case Free => "free"
    case Premium => "premium"
    case Pro => "pro"
    case Founders => "founders"
  }

  /** `SubscriptionTier(s)`: the tier whose value is `s`, if any. */
  function TierFromName(s: string): (r: Option<Tier>)
    ensures r.Some? ==> TierName(r.value) == s
    ensures r.None? ==> forall t: Tier :: TierName(t) != s
  {
    if s == "free" then Some(Free)
    else if s == "premium" then Some(Premium)
    else if s == "pro" then Some(Pro)
    else if s == "founders" then Some(Founders)
    else None
  }

  function HasKey(keys: ProviderKeys, p: Provider): (configured: bool) {
    match p
    case OpenAI => keys.openai
    case Anthropic => keys.anthropic
    case Google => keys.google
  }

  /** Provider selection at the top of `generate_response`: an explicitly
      requested provider is kept; otherwise PRO goes to Anthropic and PREMIUM
      to OpenAI when their keys are set, and everything else to Google when
      its key is set. */
  function SelectProvider(tier: Tier, requested: Option<Provider>, keys: ProviderKeys): (p: Option<Provider>)
    ensures requested.Some? ==> p == requested
    ensures requested.None? ==>
      (p == Some(Anthropic) <==> tier == Pro && keys.anthropic)
    ensures requested.None? ==>
      (p == Some(OpenAI) <==> tier == Premium && keys.openai)
    ensures requested.None? ==>
      (p == Some(Google) <==> keys.google && !(tier == Pro && keys.anthropic) && !(tier == Premium && keys.openai))
  {
    if requested.Some? then requested
    else if tier == Pro && keys.anthropic then Some(Anthropic)
    else if tier == Premium && keys.openai then Some(OpenAI)
    else if keys.google then Some(Google)
    else None
  }

  /** The tier rule only ever picks a provider whose key is configured, and
      it finds none exactly when no rule applies. */
  lemma DefaultSelectionIsConfigured(tier: Tier, keys: ProviderKeys)
    ensures var p := SelectProvider(tier, None, keys);
      (p.Some? ==> HasKey(keys, p.value)) &&
      (p.None? <==> !keys.google && !(tier == Pro && keys.anthropic) && !(tier == Premium && keys.openai))
  {
  }

  /** FREE and FOUNDERS never reach OpenAI or Anthropic by the tier rule. */
  lemma FreeAndFoundersDefaultToGoogle(tier: Tier, keys: ProviderKeys)
    requires tier == Free || tier == Founders
    ensures SelectProvider(tier, None, keys) == if keys.google then Some(Google) else None
  {
  }

  /** `_generate_openai`: the GPT-4 model for the two highest tiers. */
  function OpenAiModel(tier: Tier): (m: string)
    ensures m == "gpt-4-turbo-preview" <==> Rank(tier) >= 2
    ensures m == "gpt-3.5-turbo" <==> Rank(tier) < 2
  {
    if tier in [Pro, Founders] then "gpt-4-turbo-preview" else "gpt-3.5-turbo"
  }

  /** `_generate_anthropic`: Opus for the top tier only. */
  function AnthropicModel(tier: Tier): (m: string)
    ensures m == "claude-3-opus-20240229" <==> Rank(tier) == 3
    ensures m == "claude-3-sonnet-20240229" <==> Rank(tier) < 3
  {
    if tier == Founders then "claude-3-opus-20240229" else "claude-3-sonnet-20240229"
  }

  /** `_generate_google` always calls gemini-1.5-flash. */
  const GoogleModel := "gemini-1.5-flash"

  function ModelFor(p: Provider, tier: Tier): (model: string) {
    match p
    case OpenAI => OpenAiModel(tier)
    case Anthropic => AnthropicModel(tier)
    case Google => GoogleModel
  }

  /** The outbound HTTP call, as an abstract input: its reply text, or the
      message of the exception it raised. */
  datatype CallOutcome = Replied(text: string) | Failed(message: string)

  datatype LlmCall = LlmCall(provider: Provider, model: string)

  /** What `generate_response` did: the provider call it made, if any, and
      the text it returned or the exception it raised. */
  datatype Generation = Generation(call: Option<LlmCall>, result: Result<string>)

  /** `LLMService.generate_response`. */
  function GenerateResponse(tier: Tier, requested: Option<Provider>, keys: ProviderKeys, outcome: CallOutcome): (g: Generation)
    ensures g.call.None? <==> SelectProvider(tier, requested, keys).None?
    ensures g.call.None? ==> g.result == Err(HttpError(503, "No LLM provider available"))
    ensures g.call.Some? ==> Some(g.call.value.provider) == SelectProvider(tier, requested, keys)
    ensures requested.Some? ==> g.call == Some(LlmCall(requested.value, ModelFor(requested.value, tier)))
    ensures g.call.Some? ==>
      g.call.value.model == ModelFor(g.call.value.provider, tier) &&
      (requested.None? ==> HasKey(keys, g.call.value.provider))
    ensures g.call.Some? ==> (g.result.Ok? <==> outcome.Replied?)
    ensures g.call.Some? && g.result.Ok? ==> g.result.value == outcome.text
    ensures g.call.Some? && outcome.Failed? ==>
      g.result == Err(HttpError(500, "AI generation failed: " + outcome.message))
  {
    match SelectProvider(tier, requested, keys)
    case None => Generation(None, Err(HttpError(503, "No LLM provider available")))
    case Some(p) =>
      var call := LlmCall(p, ModelFor(p, tier));
      match outcome
      case Replied(text) => Generation(Some(call), Ok(text))
      case Failed(message) =>
        Generation(Some(call), Err(HttpError(500, "AI generation failed: " + message)))
  }

  /** Under the tier rule neither GPT-4 nor Opus is ever called: the tiers
      that would get them are routed elsewhere. */
  lemma DefaultRoutingUsesBaseModels(tier: Tier, keys: ProviderKeys, outcome: CallOutcome)
    ensures var g := GenerateResponse(tier, None, keys, outcome);
      g.call.Some? ==>
        g.call.value.model != "gpt-4-turbo-preview" && g.call.value.model != "claude-3-opus-20240229"
  {
  }

  /** `FREE_TIER_DAILY_IDENTIFICATIONS` and its two siblings. */
  datatype DailyLimits = DailyLimits(free: int, premium: int, pro: int)

  const DefaultLimits := DailyLimits(5, 30, 999)

  const FoundersLimit := 9999

  /** `_calculate_remaining_usage`: the tier's daily limit from the table,
      0 for a name that is not a tier. The tier is looked up by its string
      value, as the dict lookup on a `str` enum does. */
  function RemainingUsage(tier: string, limits: DailyLimits): (n: int)
    ensures TierFromName(tier) == Some(Free) ==> n == limits.free
    ensures TierFromName(tier) == Some(Premium) ==> n == limits.premium
    ensures TierFromName(tier) == Some(Pro) ==> n == limits.pro
    ensures TierFromName(tier) == Some(Founders) ==> n == FoundersLimit
    ensures TierFromName(tier).None? ==> n == 0
  {
    var table := map[
      "free" := limits.free,
      "premium" := limits.premium,
      "pro" := limits.pro,
      "founders" := FoundersLimit];
    if tier in table then table[tier] else 0
  }

  /** A configuration whose limits rise with the tier and stay at or below
      the fixed founders limit. */
  predicate Ascending(limits: DailyLimits) {
    limits.free <= limits.premium <= limits.pro <= FoundersLimit
  }

  /** With ascending limits, a higher tier never gets a smaller limit. */
  lemma RemainingUsageMonotone(limits: DailyLimits, a: Tier, b: Tier)
    requires Ascending(limits)
    requires Rank(a) <= Rank(b)
    ensures RemainingUsage(TierName(a), limits) <= RemainingUsage(TierName(b), limits)
  {
  }

  /** Under the default configuration, free <= premium <= pro <= founders. */
  lemma DefaultLimitsMonotone(a: Tier, b: Tier)
    requires Rank(a) <= Rank(b)
    ensures RemainingUsage(TierName(a), DefaultLimits) <= RemainingUsage(TierName(b), DefaultLimits)
  {
    RemainingUsageMonotone(DefaultLimits, a, b);
  }

  /** `STRIPE_PREMIUM_PRICE_ID` and `STRIPE_PRO_PRICE_ID`, possibly unset. */
  datatype PriceIds = PriceIds(premium: Option<string>, pro: Option<string>)

  /** The arguments `create_subscription_checkout` passes to Stripe. */
  datatype CheckoutRequest = CheckoutRequest(userId: string, priceId: Option<string>, successUrl: string, cancelUrl: string)

  /** `create_subscription_checkout` up to the Stripe call. */
  function SubscriptionCheckout(tier: string, userId: string, prices: PriceIds, apiBase: string): (r: Result<CheckoutRequest>)
    ensures r.Ok? <==> tier == "premium" || tier == "pro"
    ensures r.Err? ==> r.error == HttpError(400, "Invalid subscription tier")
    ensures r.Ok? ==> r.value.userId == userId
    ensures r.Ok? ==> r.value.priceId == if tier == "premium" then prices.premium else prices.pro
    ensures r.Ok? ==> r.value.successUrl == apiBase + "/subscription/success?session_id={CHECKOUT_SESSION_ID}"
    ensures r.Ok? ==> r.value.cancelUrl == apiBase + "/subscription/cancel"
  {
    var priceIdMap := map["premium" := prices.premium, "pro" := prices.pro];
    if tier !in priceIdMap then Err(HttpError(400, "Invalid subscription tier"))
    else Ok(CheckoutRequest(
      userId,
      priceIdMap[tier],
      apiBase + "/subscription/success?session_id={CHECKOUT_SESSION_ID}",
      apiBase + "/subscription/cancel"))
  }

  /** Of the four tiers, only PREMIUM and PRO can be bought. */
  lemma CheckoutTiers(t: Tier, userId: string, prices: PriceIds, apiBase: string)
    ensures SubscriptionCheckout(TierName(t), userId, prices, apiBase).Ok? <==> (t == Premium || t == Pro)
  {
  }

  const BearerPrefix := "Bearer "

  /** The header check of `get_current_user`: the token is the second
      space-separated field of a header that starts with "Bearer ". */
  function BearerToken(authorization: Option<string>): (r: Result<string>)
    ensures r.Err? <==> authorization.None? || !(BearerPrefix <= authorization.value)
    ensures r.Err? ==> r.error == HttpError(401, "Invalid authorization header")
    ensures r.Ok? ==>
      var h := authorization.value;
      var n := |BearerPrefix| + |r.value|;
      ' ' !in r.value && BearerPrefix + r.value <= h && (n == |h| || h[n] == ' ')
  {
    if authorization.None? || authorization.value == "" || !(BearerPrefix <= authorization.value) then
      Err(HttpError(401, "Invalid authorization header"))
    else
      var h := authorization.value;
      var rest := h[|BearerPrefix|..];
      assert h == "Bearer" + [' '] + rest;
      SplitAfterField("Bearer", rest, ' ');
      FirstField(rest, ' ');
      Ok(Split(h, ' ')[1])
  }
}
