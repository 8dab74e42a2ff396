/** The fixed tables of the demo backends and the matching, filtering and
    routing rules both demo files apply to them. */
module DemoCatalogue {
  import opened Http
  import opened Ascii

  /** An entry of `DEMO_CRYSTALS`. */
  datatype Crystal = Crystal(
    name: string,
    kind: string,
    color: string,
    chakra: string,
    properties: seq<string>,
    zodiacCompatibility: seq<string>,
    description: string)

  const AllSigns := "All signs"

  const DemoCrystals: seq<Crystal> := [
    Crystal("Amethyst", "Quartz", "Purple", "Crown",
      ["Spiritual protection", "Enhanced intuition", "Stress relief"],
      ["Pisces", "Virgo", "Aquarius"],
      "A powerful protective stone that transforms negative energy into love."),
    Crystal("Rose Quartz", "Quartz", "Pink", "Heart",
      ["Unconditional love", "Emotional healing", "Self-compassion"],
      ["Taurus", "Libra"],
      "The stone of unconditional love, promoting deep inner healing."),
    Crystal("Clear Quartz", "Quartz", "Clear", "Crown",
      ["Amplification", "Clarity", "Energy cleansing"],
      [AllSigns],
      "The master healer that amplifies energy and brings clarity.")
  ]

  const Amethyst := DemoCrystals[0]
  const ClearQuartz := DemoCrystals[2]

  /** `DEMO_HOROSCOPES`, keyed by lower-case sign. */
  const Horoscopes: map<string, string> := map[
    "aries" := "Today brings fiery energy perfect for new beginnings. Your ruling planet Mars encourages bold action.",
    "taurus" := "Venus blesses you with harmony and beauty today. Focus on material stability and sensual pleasures.",
    "gemini" := "Mercury enhances your communication skills. It's a perfect day for learning and social connections.",
    "cancer" := "The Moon illuminates your emotional depths. Trust your intuition and nurture those you love.",
    "leo" := "The Sun radiates through you today. Step into your power and let your creativity shine brightly.",
    "virgo" := "Earth energy grounds you in practical matters. Pay attention to details and health routines.",
    "libra" := "Venus brings balance to relationships. Seek harmony and beauty in all your interactions.",
    "scorpio" := "Pluto stirs transformative energies. Embrace change and dive deep into mysteries.",
    "sagittarius" := "Jupiter expands your horizons. Adventure and higher learning call to your spirit.",
    "capricorn" := "Saturn supports your ambitions. Structure and discipline lead to lasting achievements.",
    "aquarius" := "Uranus sparks innovation. Think outside the box and embrace your unique perspective.",
    "pisces" := "Neptune enhances your psychic abilities. Dreams and intuition guide your way forward."
  ]

  /** `DEMO_GUIDANCE_RESPONSES` */
  const GuidanceResponses: seq<string> := [
    "Based on your spiritual profile, I sense you're entering a period of deep transformation. The crystals in your collection, particularly amethyst, are perfectly aligned with your current energy. Consider placing amethyst under your pillow tonight to enhance dream clarity.",
    "Your birth chart shows strong water element influence, which resonates beautifully with rose quartz energy. This is an excellent time for heart chakra healing work. Try holding rose quartz during meditation and focus on self-love affirmations.",
    "The current lunar phase supports releasing old patterns. Clear quartz would be perfect for this work - it will amplify your intentions while cleansing stagnant energy. Create a simple crystal grid with your clear quartz at the center.",
    "I notice Scorpio influence in your chart, suggesting you're naturally drawn to transformation work. Black tourmaline would be a powerful addition to your collection for protection during this deep spiritual work."
  ]

  /** The sentence appended to canned response k when keyword group k matched. */
  const GuidanceSuffixes: seq<string> := [
    " For anxiety relief, try amethyst or rose quartz in a calming meditation.",
    " Rose quartz is your ally in matters of the heart.",
    " Clear quartz will amplify your transformational work."
  ]

  // ----- best match -----

  /** The crystal's lower-cased name or colour occurs in the lower-cased description. */
  predicate Matches(c: Crystal, descriptionLower: string) {
    Contains(descriptionLower, Lower(c.name)) || Contains(descriptionLower, Lower(c.color))
  }

  /** The position of the first matching entry, if any. */
  function FirstMatch(catalogue: seq<Crystal>, descriptionLower: string): (r: Option<nat>)
    ensures r.Some? ==>
      r.value < |catalogue| && Matches(catalogue[r.value], descriptionLower) &&
      forall j :: 0 <= j < r.value ==> !Matches(catalogue[j], descriptionLower)
    ensures r.None? ==> forall j :: 0 <= j < |catalogue| ==> !Matches(catalogue[j], descriptionLower)
    decreases |catalogue|
  {
    if catalogue == [] then None
    else if Matches(catalogue[0], descriptionLower) then Some(0)
    else
      match FirstMatch(catalogue[1..], descriptionLower)
      case None => None
      case Some(i) => Some(i + 1)
  }

  /** The entry `identify_crystal` settles on: the first match, else entry 0. */
  function BestMatch(catalogue: seq<Crystal>, descriptionLower: string): (best: Crystal)
    requires catalogue != []
  {
    match FirstMatch(catalogue, descriptionLower)
    case Some(i) => catalogue[i]
    case None => catalogue[0]
  }

  /** The search loop of `identify_crystal`: start from entry 0 and stop at
      the first entry whose name or colour the description mentions. */
  method FindBestMatch(catalogue: seq<Crystal>, description: string) returns (best: Crystal)
    requires catalogue != []
    ensures best in catalogue
    ensures best == BestMatch(catalogue, Lower(description))
  {
    var descriptionLower := Lower(description);
    best := catalogue[0];
    var i := 0;
    while i < |catalogue|
      invariant 0 <= i <= |catalogue|
      invariant best == catalogue[0]
      invariant forall j :: 0 <= j < i ==> !Matches(catalogue[j], descriptionLower)
    {
      var crystal := catalogue[i];
      if Contains(descriptionLower, Lower(crystal.name)) || Contains(descriptionLower, Lower(crystal.color)) {
        best := crystal;
        assert FirstMatch(catalogue, descriptionLower) == Some(i);
        break;
      }
      i := i + 1;
    }
  }

  /** Of two matching entries, the earlier one wins. */
  lemma EarliestMatchWins(catalogue: seq<Crystal>, descriptionLower: string, i: nat)
    requires i < |catalogue| && Matches(catalogue[i], descriptionLower)
    ensures exists k :: (0 <= k <= i && BestMatch(catalogue, descriptionLower) == catalogue[k] &&
                         Matches(catalogue[k], descriptionLower))
  {
  }

  // ----- zodiac flag -----

  /** `user_zodiac.title() in best_match["zodiac_compatibility"]` */
  predicate ZodiacMatch(userZodiac: string, c: Crystal) {
    Title(userZodiac) in c.zodiacCompatibility
  }

  /** The flag ignores the case of the user's sign. */
  lemma ZodiacMatchIgnoresCase(userZodiac: string, c: Crystal)
    ensures ZodiacMatch(Lower(userZodiac), c) == ZodiacMatch(userZodiac, c)
  {
    TitleIgnoresCase(userZodiac);
  }

  /** Clear Quartz lists only "All signs", which no title-cased string
      equals, so its zodiac flag is never set. */
  lemma ClearQuartzNeverZodiacMatch(userZodiac: string)
    ensures !ZodiacMatch(userZodiac, ClearQuartz)
  {
    TitleNeverAllSigns(userZodiac);
  }

  /** The recommendation sentence the flag selects. */
  function Recommendation(userZodiac: string, zodiacMatch: bool): (text: string) {
    if zodiacMatch then "Perfect for " + userZodiac + " energy!"
    else "A wonderful complement to " + userZodiac + " energy"
  }

  // ----- compatible crystals -----

  /** `sign.title() in compat or "All signs" in compat` */
  predicate CompatibleWith(c: Crystal, titleSign: string) {
    titleSign in c.zodiacCompatibility || AllSigns in c.zodiacCompatibility
  }

  /** The positions the compatible filter keeps, in catalogue order. */
  function CompatibleIndices(catalogue: seq<Crystal>, titleSign: string): (r: seq<nat>)
    ensures forall k :: 0 <= k < |r| ==> r[k] < |catalogue|
    ensures forall k, l :: 0 <= k < l < |r| ==> r[k] < r[l]
    ensures forall i :: 0 <= i < |catalogue| ==> (i in r <==> CompatibleWith(catalogue[i], titleSign))
    decreases |catalogue|
  {
    if catalogue == [] then []
    else
      var n := |catalogue| - 1;
      CompatibleIndices(catalogue[..n], titleSign) + (if CompatibleWith(catalogue[n], titleSign) then [n] else [])
  }

  /** The names at the given positions. */
  function NamesAt(catalogue: seq<Crystal>, indices: seq<nat>): (r: seq<string>)
    requires forall k :: 0 <= k < |indices| ==> indices[k] < |catalogue|
  {
    seq(|indices|, k requires 0 <= k < |indices| => catalogue[indices[k]].name)
  }

  /** The filter loop of `get_horoscope`: the names of the compatible
      entries, in catalogue order. */
  method CompatibleCrystals(catalogue: seq<Crystal>, titleSign: string) returns (names: seq<string>)
    ensures names == NamesAt(catalogue, CompatibleIndices(catalogue, titleSign))
  {
    names := [];
    for i := 0 to |catalogue|
      invariant names == NamesAt(catalogue, CompatibleIndices(catalogue[..i], titleSign))
    {
      var crystal := catalogue[i];
      assert catalogue[..i + 1][..i] == catalogue[..i];
      if titleSign in crystal.zodiacCompatibility || AllSigns in crystal.zodiacCompatibility {
        names := names + [crystal.name];
      }
    }
    assert catalogue[..|catalogue|] == catalogue;
  }

  /** A name is listed exactly when some compatible entry carries it. */
  lemma CompatibleNamesMembership(catalogue: seq<Crystal>, titleSign: string, name: string)
    ensures name in NamesAt(catalogue, CompatibleIndices(catalogue, titleSign)) <==>
      exists i :: 0 <= i < |catalogue| && catalogue[i].name == name && CompatibleWith(catalogue[i], titleSign)
  {
    var idx := CompatibleIndices(catalogue, titleSign);
    var names := NamesAt(catalogue, idx);
    if name in names {
      var k :| 0 <= k < |names| && names[k] == name;
      assert idx[k] in idx;
    }
    if exists i :: 0 <= i < |catalogue| && catalogue[i].name == name && CompatibleWith(catalogue[i], titleSign) {
      var i :| 0 <= i < |catalogue| && catalogue[i].name == name && CompatibleWith(catalogue[i], titleSign);
      var k :| 0 <= k < |idx| && idx[k] == i;
      assert names[k] == name;
    }
  }

  /** Clear Quartz is listed for every sign, so the list is never empty. */
  lemma ClearQuartzAlwaysCompatible(titleSign: string)
    ensures "Clear Quartz" in NamesAt(DemoCrystals, CompatibleIndices(DemoCrystals, titleSign))
  {
    assert CompatibleWith(DemoCrystals[2], titleSign);
    CompatibleNamesMembership(DemoCrystals, titleSign, "Clear Quartz");
  }

  /** `[random.randint(1, 50) for _ in range(3)]`, each draw an
      unspecified pick from 1..50. */
  method DrawLuckyNumbers() returns (numbers: seq<int>)
    ensures |numbers| == 3
    ensures forall k :: 0 <= k < |numbers| ==> 1 <= numbers[k] <= 50
  {
    numbers := [];
    for draw := 0 to 3
      invariant |numbers| == draw
      invariant forall k :: 0 <= k < |numbers| ==> 1 <= numbers[k] <= 50
    {
      var n :| 1 <= n <= 50;
      numbers := numbers + [n];
    }
  }

  // ----- guidance routing -----

  /** The keyword groups of `get_personalized_guidance`, in priority order. */
  const KeywordGroups: seq<seq<string>> := [
    ["anxious", "stress"],
    ["love", "relationship"],
    ["transformation", "change"]
  ]

  predicate GroupHit(k: nat, queryLower: string)
    requires k < |KeywordGroups|
  {
    exists w :: w in KeywordGroups[k] && Contains(queryLower, w)
  }

  /** The if/elif chain of `get_personalized_guidance`: which canned
      response the query selects, or None for the random fallback. */
  function RouteGuidance(query: string): (r: Option<nat>)
    ensures r.Some? ==> (r.value < |KeywordGroups| && GroupHit(r.value, Lower(query)) &&
                         forall j :: 0 <= j < r.value ==> !GroupHit(j, Lower(query)))
    ensures r.None? ==> forall j :: 0 <= j < |KeywordGroups| ==> !GroupHit(j, Lower(query))
  {
    var q := Lower(query);
    if Contains(q, "anxious") || Contains(q, "stress") then Some(0)
    else if Contains(q, "love") || Contains(q, "relationship") then Some(1)
    else if Contains(q, "transformation") || Contains(q, "change") then Some(2)
    else None
  }

  /** Routing does not depend on the case of the query. */
  lemma RouteIgnoresCase(query: string)
    ensures RouteGuidance(Lower(query)) == RouteGuidance(query)
  {
    LowerIdempotent(query);
  }

  /** The text of a keyword-routed answer. */
  function CannedGuidance(k: nat): (guidance: string)
    requires k < |GuidanceSuffixes|
  {
    GuidanceResponses[k] + GuidanceSuffixes[k]
  }

  /** Every answer, routed or random, opens with one of the four canned responses. */
  predicate OpensWithCannedResponse(guidance: string) {
    exists k :: 0 <= k < |GuidanceResponses| && GuidanceResponses[k] <= guidance
  }

  /** Keyword selection with the random fallback (`random.choice`), as a
      nondeterministic pick from the four canned responses. */
  method SelectGuidance(query: string) returns (guidance: string)
    ensures match RouteGuidance(query)
      case Some(k) => k < |GuidanceSuffixes| && guidance == CannedGuidance(k)
      case None => guidance in GuidanceResponses
    ensures OpensWithCannedResponse(guidance)
  {
    var route := RouteGuidance(query);
    if route.Some? {
      var k := route.value;
      guidance := CannedGuidance(k);
      assert GuidanceResponses[k] <= guidance;
    } else {
      assert GuidanceResponses[0] in GuidanceResponses;
      guidance :| guidance in GuidanceResponses;
    }
  }

  // ----- response shapes shared by both demo backends -----

  /** The `identify_crystal` response fields that depend on the request (fixed literals and the random confidence are not carried). */
  datatype Identification = Identification(
    crystal: Crystal,
    zodiacCompatibility: bool,
    chakraAlignment: string,
    recommendation: string,
    usageSuggestion: string,
    usageRemaining: int,
    currentTier: string)

  /** The `context_used` part of the guidance response. */
  datatype GuidanceContext = GuidanceContext(
    zodiacSign: string,
    ownedCrystals: seq<string>,
    moonPhase: string,
    guidanceType: string)

  datatype Guidance = Guidance(guidance: string, contextUsed: GuidanceContext)

  /** The `get_horoscope` response fields that depend on the sign, the fixed moon phase, and its two random picks (the date and `planetary_influences` are not carried). */
  datatype Horoscope = Horoscope(
    zodiacSign: string,
    horoscope: string,
    dailyCrystal: string,
    luckyNumbers: seq<int>,
    moonPhase: string,
    compatibleCrystals: seq<string>,
    spiritualAdvice: string)
}
