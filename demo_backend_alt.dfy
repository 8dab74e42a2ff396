/** The endpoints of the second demo backend (the copy served on port 8081):
    the same identification, guidance and horoscope rules over the same
    tables; it has no checkout endpoint. */
module DemoBackendAlt {
  import opened Http
  import opened Ascii
  import opened DemoCatalogue

  /** `identify_crystal`; `userZodiac` is the "zodiac_sign" entry of the
      request's user context, if present. */
  method IdentifyCrystal(description: string, userZodiac: Option<string>) returns (r: Identification)
    ensures r.crystal in DemoCrystals
    ensures r.crystal == BestMatch(DemoCrystals, Lower(description))
    ensures FirstMatch(DemoCrystals, Lower(description)).None? ==> r.crystal == Amethyst
    ensures r.zodiacCompatibility == ZodiacMatch(userZodiac.GetOr("unknown"), r.crystal)
    ensures r.crystal == ClearQuartz ==> !r.zodiacCompatibility
    ensures r.recommendation == Recommendation(userZodiac.GetOr("unknown"), r.zodiacCompatibility)
    ensures r.chakraAlignment == "This crystal resonates with your " + r.crystal.chakra + " chakra"
    ensures r.usageSuggestion ==
      "Try placing " + r.crystal.name + " on your " + Lower(r.crystal.chakra) + " chakra during meditation"
    ensures r.usageRemaining == 4 && r.currentTier == "free"
  {
    var best := FindBestMatch(DemoCrystals, description);
    var zodiac := userZodiac.GetOr("unknown");
    var zodiacMatch := Title(zodiac) in best.zodiacCompatibility;
    ClearQuartzNeverZodiacMatch(zodiac);
    r := Identification(
      best,
      zodiacMatch,
      "This crystal resonates with your " + best.chakra + " chakra",
      Recommendation(zodiac, zodiacMatch),
      "Try placing " + best.name + " on your " + Lower(best.chakra) + " chakra during meditation",
      4,
      "free");
  }

  /** `get_personalized_guidance`; the two options are the "zodiac_sign"
      and "owned_crystals" entries of the user context, if present. */
  method GetPersonalizedGuidance(query: string, guidanceType: string, userZodiac: Option<string>,
                                 ownedCrystals: Option<seq<string>>) returns (r: Guidance)
    ensures match RouteGuidance(query)
      case Some(k) => k < |GuidanceSuffixes| && r.guidance == CannedGuidance(k)
      case None => r.guidance in GuidanceResponses
    ensures OpensWithCannedResponse(r.guidance)
    ensures r.contextUsed ==
      GuidanceContext(userZodiac.GetOr("Unknown"), ownedCrystals.GetOr([]), "Waxing Crescent", guidanceType)
  {
    var guidance := SelectGuidance(query);
    r := Guidance(
      guidance,
      GuidanceContext(userZodiac.GetOr("Unknown"), ownedCrystals.GetOr([]), "Waxing Crescent", guidanceType));
  }

  /** `get_horoscope` */
  method GetHoroscope(zodiacSign: string) returns (r: Result<Horoscope>)
    ensures r.Err? <==> Lower(zodiacSign) !in Horoscopes
    ensures r.Err? ==> r.error == HttpError(400, "Invalid zodiac sign")
    ensures r.Ok? ==> r.value.zodiacSign == Title(zodiacSign)
    ensures r.Ok? ==> r.value.horoscope == Horoscopes[Lower(zodiacSign)]
    ensures r.Ok? ==> r.value.moonPhase == "Waxing Crescent"
    ensures r.Ok? ==> (r.value.spiritualAdvice ==
                       "Today's energy supports " + Lower(zodiacSign) + " in manifestation work. Focus on your heart's desires.")
    ensures r.Ok? ==>
      r.value.compatibleCrystals == NamesAt(DemoCrystals, CompatibleIndices(DemoCrystals, Title(zodiacSign)))
    ensures r.Ok? ==> "Clear Quartz" in r.value.compatibleCrystals
    ensures r.Ok? ==> r.value.dailyCrystal in r.value.compatibleCrystals
    ensures r.Ok? ==> |r.value.luckyNumbers| == 3
    ensures r.Ok? ==> forall k :: 0 <= k < |r.value.luckyNumbers| ==> 1 <= r.value.luckyNumbers[k] <= 50
  {
    var sign := Lower(zodiacSign);
    if sign !in Horoscopes {
      return Err(HttpError(400, "Invalid zodiac sign"));
    }
    TitleIgnoresCase(zodiacSign);
    var compatible := CompatibleCrystals(DemoCrystals, Title(sign));
    ClearQuartzAlwaysCompatible(Title(sign));
    var daily: string;
    if compatible != [] {
      daily :| daily in compatible;
    } else {
      daily := "Clear Quartz";
    }
    var lucky := DrawLuckyNumbers();
    r := Ok(Horoscope(
      Title(sign),
      Horoscopes[sign],
      daily,
      lucky,
      "Waxing Crescent",
      compatible,
      "Today's energy supports " + sign + " in manifestation work. Focus on your heart's desires."));
  }
}
