# Crystal Grimoire backends: tier policy and demo catalogue matching

This project models, in Dafny, the decision logic inside three FastAPI
backends of Crystal Grimoire, and proves what that logic promises.

- **Unified backend** (`backend/unified_backend.py`), module `UnifiedBackend`:
  the subscription tiers; how `LLMService.generate_response` picks an LLM
  provider from the tier and the configured API keys; which model each
  provider call uses per tier; the daily-limit table of
  `_calculate_remaining_usage`; the tier whitelist of the Stripe checkout;
  and the `Authorization: Bearer` header check of `get_current_user`.
  Environment configuration is passed in as parameters: `ProviderKeys` says
  which keys are set, `DailyLimits` holds the three configurable limits
  (`DefaultLimits` is 5/30/999), and `PriceIds` holds the two Stripe price ids.
  The API base URL is a parameter too. The outcome of the outbound LLM call is an abstract
  input, `CallOutcome`.
- **Demo backends** (`backend/demo_backend.py` and its copy
  `backend/demo_backend_alt.py`), modules `DemoCatalogue`, `DemoBackend`,
  `DemoBackendAlt`. The two files have identical tables and rules, so
  `DemoCatalogue` defines them once. That covers the crystal catalogue, the
  twelve-sign horoscope table, the canned guidance answers, the first-match
  search, the zodiac flag, the compatible-crystal filter and the keyword
  routing. Each file's endpoints are their own methods in `DemoBackend` and
  `DemoBackendAlt`. Only the first file has the checkout endpoint.
- **String built-ins** (module `Ascii`): `str.lower`, `str.title` (the
  CPython rule: a letter is lower-cased when the character before it is a
  letter, upper-cased otherwise), substring `in`, and `str.split(" ")`. All of
  them work over ASCII. `Http` holds `Option`, `HttpError` and `Result`.
  `Result` stands for an endpoint's response or the `HTTPException` it
  raises.

The two search loops of the demo endpoints are methods with loop invariants:
the reassign-and-break search for the best match, and the append-in-a-loop
filter for the compatible crystals. Each is proved against a specification
function: `FirstMatch`, and `CompatibleIndices` with `NamesAt`. The
properties of those functions are proved as their own contracts and as
lemmas. Random picks (`random.choice`, `random.randint`) are nondeterministic
choices (`:|`). Their contracts state only membership and bounds.

`_calculate_remaining_usage` returns a fixed
number per tier (999 for pro by default, 9999 for founders) and has no usage
input at all, so its result cannot depend on usage.

Two facts the proofs bring out:

- Under the tier rule (no explicit provider), GPT-4 and Claude Opus are never
  called (`DefaultRoutingUsesBaseModels`). PRO goes to Anthropic, which gives
  PRO Sonnet. PREMIUM goes to OpenAI, which gives PREMIUM GPT-3.5. FOUNDERS
  falls through to Google, and so does PRO without an Anthropic key. The Opus
  branch and the whole GPT-4 branch are reached only when a provider is passed
  explicitly, and no caller in the file passes one
  (backend/unified_backend.py:285, 430, 476), so neither model is used by
  this program.
- `identify_crystal` compares the title-cased sign with Clear Quartz's list
  `["All signs"]`. A title-cased string never equals "All signs", so the flag
  is never set for Clear Quartz (`ClearQuartzNeverZodiacMatch`).
  `get_horoscope` instead treats "All signs" as a wildcard
  (`ClearQuartzAlwaysCompatible`).

## Model

| member | source | states |
|---|---|---|
| UnifiedBackend.TierFromName | backend/unified_backend.py:68-72 | a string names a tier exactly when it is one of the four enum values, and it names that one tier |
| UnifiedBackend.SelectProvider | backend/unified_backend.py:164-171 | an explicit provider is kept unchanged; otherwise Anthropic exactly for PRO with an Anthropic key, OpenAI exactly for PREMIUM with an OpenAI key, Google exactly when neither applies and a Google key is set, else none |
| UnifiedBackend.DefaultSelectionIsConfigured | backend/unified_backend.py:156-171 | the tier rule only picks a provider whose key is configured, and finds none exactly when no rule applies and there is no Google key |
| UnifiedBackend.FreeAndFoundersDefaultToGoogle | backend/unified_backend.py:165-171 | FREE and FOUNDERS are routed to Google when its key is set and to no provider otherwise |
| UnifiedBackend.OpenAiModel | backend/unified_backend.py:191 | gpt-4-turbo-preview exactly for the two highest tiers (PRO, FOUNDERS), gpt-3.5-turbo for the others |
| UnifiedBackend.AnthropicModel | backend/unified_backend.py:212 | claude-3-opus-20240229 exactly for the top tier (FOUNDERS), claude-3-sonnet-20240229 for the others |
| UnifiedBackend.GenerateResponse | backend/unified_backend.py:161-187 | no provider resolved gives 503 and no call is made; the provider called is exactly the one the selection rule picks; an explicit provider is called with that provider's tier model; a default-routed call only goes to a configured provider; the reply is returned when the call succeeds and a 500 is raised when it fails |
| UnifiedBackend.DefaultRoutingUsesBaseModels | backend/unified_backend.py:165-212 | without an explicit provider, neither gpt-4-turbo-preview nor claude-3-opus-20240229 is ever called |
| UnifiedBackend.RemainingUsage | backend/unified_backend.py:536-545 | the configured limit for free, premium and pro; 9999 for founders whatever the configuration; 0 for any string that is not a tier |
| UnifiedBackend.RemainingUsageMonotone | backend/unified_backend.py:536-545 | when the configured limits ascend, a higher tier never gets a smaller limit |
| UnifiedBackend.DefaultLimitsMonotone | backend/unified_backend.py:63-65 | with the default limits 5/30/999, the limits are non-decreasing free <= premium <= pro <= founders |
| UnifiedBackend.SubscriptionCheckout | backend/unified_backend.py:501-520 | accepts exactly "premium" and "pro" and rejects everything else with 400 before any Stripe call; the price id is that tier's, and the success and cancel URLs are the API base URL followed by the fixed success path (with the `{CHECKOUT_SESSION_ID}` placeholder) and cancel path |
| UnifiedBackend.CheckoutTiers | backend/unified_backend.py:507-513 | of the four tiers only PREMIUM and PRO can be checked out; FREE and FOUNDERS are rejected |
| UnifiedBackend.BearerToken | backend/unified_backend.py:352-357 | a missing header or one not starting with "Bearer " is rejected with 401; otherwise the token is the space-free text after "Bearer " that runs up to the next space or the end |
| Ascii.SplitJoin | backend/unified_backend.py:357 | the fields of `split(" ")` rejoined with the separator give back the input, and no field contains the separator |
| Ascii.ContainsIff | backend/demo_backend.py:127 | substring `in` holds exactly when the needle occurs at some position of the text |
| Ascii.TitleIgnoresCase | backend/demo_backend.py:133 | title-casing a lower-cased string gives the same result as title-casing the original |
| Ascii.TitleNeverAllSigns | backend/demo_backend.py:133 | no title-cased string equals "All signs" |
| DemoCatalogue.FirstMatch | backend/demo_backend.py:124-129 | the position found matches (name or colour in the description) and no earlier entry matches; when none is found, no entry matches |
| DemoCatalogue.FindBestMatch | backend/demo_backend.py:122-129 | the result is a catalogue entry: the first entry whose lower-cased name or colour occurs in the lower-cased description, else entry 0 |
| DemoCatalogue.EarliestMatchWins | backend/demo_backend.py:126-129 | when entry i matches, the best match is a matching entry at or before i |
| DemoCatalogue.ZodiacMatchIgnoresCase | backend/demo_backend.py:132-133 | the zodiac flag is the same for a sign and its lower-cased form |
| DemoCatalogue.ClearQuartzNeverZodiacMatch | backend/demo_backend.py:133 | the zodiac flag is never set for Clear Quartz, whose list holds only "All signs" |
| DemoCatalogue.CompatibleIndices | backend/demo_backend.py:206-209 | the kept positions are in range and strictly increasing, and a position is kept exactly when its entry lists the title-cased sign or "All signs" |
| DemoCatalogue.CompatibleCrystals | backend/demo_backend.py:205-209 | the filter loop returns the names of the compatible entries in catalogue order |
| DemoCatalogue.CompatibleNamesMembership | backend/demo_backend.py:207-209 | a name is listed exactly when some compatible entry carries it |
| DemoCatalogue.ClearQuartzAlwaysCompatible | backend/demo_backend.py:206-209 | "Clear Quartz" is listed for every sign, so the list is never empty |
| DemoCatalogue.DrawLuckyNumbers | backend/demo_backend.py:217 | exactly three numbers, each in 1..50 |
| DemoCatalogue.RouteGuidance | backend/demo_backend.py:163-172 | the chosen group has a keyword in the lower-cased query and no higher-priority group does (anxious/stress, then love/relationship, then transformation/change); no choice means no group has one |
| DemoCatalogue.RouteIgnoresCase | backend/demo_backend.py:163 | routing is the same for a query and its lower-cased form |
| DemoCatalogue.SelectGuidance | backend/demo_backend.py:165-172 | a routed query gets canned response k plus suffix k; an unrouted one gets one of the four canned responses; every answer starts with a canned response |
| DemoBackend.IdentifyCrystal | backend/demo_backend.py:114-152 | the crystal is the catalogue's best match (Amethyst when nothing matches); the flag is exact membership of the title-cased zodiac (default "unknown") and is never set for Clear Quartz; the recommendation is the one the flag selects; the chakra sentence, the usage suggestion (with the lower-cased chakra), the fixed usage count 4 and the tier "free" are stated |
| DemoBackend.GetPersonalizedGuidance | backend/demo_backend.py:154-195 | the guidance follows the keyword priority with a random canned fallback; the context reports the sign (default "Unknown"), the owned crystals (default empty), the moon phase and the guidance type |
| DemoBackend.GetHoroscope | backend/demo_backend.py:197-226 | rejected with 400 exactly when the lower-cased sign is not one of the twelve keys; otherwise the sign is title-cased, the text is that sign's entry, the compatible list is the order-preserving filter and holds Clear Quartz, the daily crystal is drawn from it, there are three lucky numbers in 1..50, the moon phase is "Waxing Crescent", and the advice names the lower-cased sign |
| DemoBackend.CreateSubscriptionCheckout | backend/demo_backend.py:242-267 | accepts exactly premium, pro and founders and rejects anything else with 400; tier, price and three features come from that tier's table entries, the URL is the demo checkout base followed by the tier, and demo mode is set |
| DemoBackend.CheckoutUrlIdentifiesTier | backend/demo_backend.py:257 | two accepted checkouts with the same URL are for the same tier |
| DemoBackendAlt.IdentifyCrystal | backend/demo_backend_alt.py:125-159 | as in the first demo file: best match or Amethyst, exact-membership zodiac flag (default "unknown") never set for Clear Quartz, recommendation selected by the flag, and the same chakra, usage and tier fields |
| DemoBackendAlt.GetPersonalizedGuidance | backend/demo_backend_alt.py:161-198 | the same keyword priority with a random canned fallback, and the same context defaults |
| DemoBackendAlt.GetHoroscope | backend/demo_backend_alt.py:200-229 | an unknown lower-cased sign is rejected with 400 before anything else; otherwise the compatible list is the order-preserving filter and holds Clear Quartz, the daily crystal is drawn from it, there are three lucky numbers in 1..50, and the moon phase and advice are as in the first file |

## Left out

- FastAPI wiring: decorators, `Depends`, CORS, `lifespan` and the uvicorn entry points. They hold no logic.
- Firebase: profile reads and writes, usage counters, `auth.verify_id_token`, and the profile creation in `get_current_user` after the header check. All of these are vendor SDK calls.
- Stripe: `stripe.checkout.Session.create` and the webhook stub. The model stops at the arguments passed to Stripe.
- The HTTP calls to OpenAI, Anthropic, Gemini and the horoscope API, and the JSON extraction of their replies. A call's result is the abstract `CallOutcome`. The horoscope service with its AI fallback, and the unified `identify_crystal`, `get_personalized_guidance` and `get_horoscope` endpoints, only build prompts and forward them over this I/O.
- UnifiedBackend.GenerateResponse: the "Invalid LLM provider" 400 branch is not modelled. A provider is always one of the three enum values, so the branch cannot be reached.
- Environment variables and `Config` loading. They become parameters (`ProviderKeys`, `DailyLimits`, `PriceIds`, the API base URL). Parsing of the limit strings by `int()` is left out.
- Floating point: the identification confidence and its 2-decimal rounding in the second demo file, marketplace prices and ratings, and the moon-phase percentage.
- Time and identifiers: `time.sleep`, the `datetime.now()` date strings, and the `uuid` checkout session id.
- Static demo endpoints: health, root, crystal database, user profile, marketplace listings and moon phase. They return fixed or random literals.
- DemoCatalogue.SelectGuidance: the fallback `random.choice` is an unspecified pick from the four canned responses. Only membership is stated.
- DemoCatalogue.DrawLuckyNumbers: each `random.randint(1, 50)` is an unspecified pick. Only the count and the bounds are stated.
- Unicode case conversion: `lower` and `title` are modelled on ASCII letters only. Other characters pass through unchanged.
- A user context that is explicitly `null` makes the demo endpoints raise in Python; this is not modelled.
- Request parsing: the request-model defaults are not modelled except the user-context entries (taken as `Option`). In particular `GetPersonalizedGuidance` takes `guidanceType` already resolved; the default `guidance_type = "general"` (backend/demo_backend.py:78, backend/demo_backend_alt.py:78) is applied before it.
- Fixed literal fields of the demo responses are not carried by `Identification`, `Guidance`, `Horoscope` and `Checkout`: `success`, `tier_benefits.upgrade_message`, `follow_up_suggestions`, `tier_info`, `planetary_influences`, and the `date`, `confidence` and `session_id` values covered above.
- The model types the context entries as `Option<string>` (zodiac sign) and `Option<seq<string>>` (owned crystals), so it covers only a string sign and a list of strings. In Python, a zodiac entry that is not a string makes `identify_crystal` raise, because it calls `.title()` on it. `get_personalized_guidance` does not raise: it copies any JSON value for the zodiac sign or the owned crystals unchanged into `context_used`. Neither case is modelled.
- The mobile client is not modelled; only the three backend files are.
