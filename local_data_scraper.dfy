/**
 * The local-data scraper: the street, landmark, permit, wildlife and season facts a city's pages
 * quote, derived from the city's name and its state's two-letter code by fixed tables.
 */
module LocalDataScraper {
  import opened Text

  datatype LocalData = LocalData(
    mainStreets: seq<string>, landmarks: seq<string>, neighborhoods: seq<string>, challenges: seq<string>,
    permitDepartment: string, permitCost: nat, permitProcessingDays: nat, permitUrl: string,
    townRules: seq<string>, localWildlife: seq<string>, seasonalFactors: seq<string>,
    nearbyFacilities: seq<string>)

  /** The states with two extra landmarks and two extra challenges. */
  const ExtraStates: set<string> := {"CA", "TX", "FL", "NY"}

  const CostsByState: map<string, nat> := map["CA" := 75, "NY" := 65, "TX" := 45, "FL" := 50, "WA" := 60, "CO" := 55]
  const DefaultCost: nat := 50
  const ProcessingDays: nat := 3

  const WildlifeByState: map<string, seq<string>> := map[
    "CA" := ["seagulls", "raccoons", "coyotes"],
    "TX" := ["armadillos", "raccoons", "possums"],
    "FL" := ["alligators", "raccoons", "iguanas"],
    "NY" := ["raccoons", "possums", "rats"],
    "WA" := ["raccoons", "bears", "deer"],
    "CO" := ["bears", "deer", "mountain lions"]]
  const DefaultWildlife: seq<string> := ["raccoons", "possums"]

  const HeatStates: set<string> := {"CA", "TX", "FL", "AZ"}
  const WinterStates: set<string> := {"NY", "CO", "WA"}
  const HurricaneStates: set<string> := {"FL", "TX", "LA"}
  const HeatFactors: seq<string> := ["extreme summer heat", "high temperatures affect debris decomposition"]
  const WinterFactors: seq<string> :=
    ["winter snow", "ice and freezing temperatures", "holiday season construction slowdowns"]
  const HurricaneFactors: seq<string> := ["hurricane season", "storm debris"]

  const TownRules: seq<string> := [
    "Permit required for public street placement",
    "Must not block sidewalks or hydrants",
    "Reflective tape required for overnight placement",
    "Maximum 14-day rental period in residential zones"]
  const NearbyFacilities: seq<string> := ["County landfill", "Recycling center", "Transfer station"]

  // ---------------------------------------------------------------------------
  // Permits
  // ---------------------------------------------------------------------------

  /** `costsByState[stateCode] || 50`. */
  function PermitCost(stateCode: string): (cost: nat)
    ensures stateCode in CostsByState ==> cost == CostsByState[stateCode]
    ensures stateCode !in CostsByState ==> cost == DefaultCost
  {
    if stateCode in CostsByState && CostsByState[stateCode] != 0 then CostsByState[stateCode] else DefaultCost
  }

  /** Every state pays between 45 and 75, and a state outside the table pays 50. */
  lemma PermitCostRange(stateCode: string)
    ensures 45 <= PermitCost(stateCode) <= 75
  {
  }

  /** The host name of the permit page: the lower-cased city without white space, then the
      lower-cased state code. */
  function PermitHost(city: string, stateCode: string): string {
    ReplaceSpaceRuns(ToLower(city), "") + ToLower(stateCode)
  }

  function PermitUrl(city: string, stateCode: string): string {
    "https://" + PermitHost(city, stateCode) + ".gov/permits"
  }

  predicate NoUpper(s: string) {
    forall i | 0 <= i < |s| :: !('A' <= s[i] <= 'Z')
  }

  lemma {:induction false} RemoveSpacesKeepsNoUpper(s: string)
    requires NoUpper(s)
    ensures NoUpper(ReplaceSpaceRuns(s, ""))
  {
    if s != [] {
      RemoveSpacesKeepsNoUpper(s[1..]);
      if !IsSpace(s[0]) {
        var r := ReplaceSpaceRuns(s[1..], "");
        assert ReplaceSpaceRuns(s, "") == [s[0]] + r;
      }
    }
  }

  /** The permit page is on a host whose city part has no white space and no capital letter,
      whatever the city's name. */
  lemma PermitUrlShape(city: string, stateCode: string)
    ensures var part := ReplaceSpaceRuns(ToLower(city), "");
      && PermitUrl(city, stateCode) == "https://" + part + ToLower(stateCode) + ".gov/permits"
      && NoSpace(part) && NoUpper(part)
  {
    RemoveSpacesLeavesNone(ToLower(city));
    RemoveSpacesKeepsNoUpper(ToLower(city));
  }

  /** Names that differ only in case and white space share their permit page. */
  lemma PermitUrlIgnoresSpacing(a: string, b: string, stateCode: string)
    requires ReplaceSpaceRuns(ToLower(a), "") == ReplaceSpaceRuns(ToLower(b), "")
    ensures PermitUrl(a, stateCode) == PermitUrl(b, stateCode)
  {
  }

  // ---------------------------------------------------------------------------
  // The lists
  // ---------------------------------------------------------------------------

  function MainStreets(city: string, stateCode: string): seq<string> {
    [city + " Avenue", "Main Street", stateCode + " Highway", "Downtown Boulevard"]
  }

  function Neighborhoods(city: string): (r: seq<string>)
    ensures |r| == 4
    ensures forall i | 0 <= i < |r| :: Contains(r[i], city)
  {
    var r := ["Downtown " + city, "East " + city, "West " + city, city + " Heights"];
    assert OccursAt(r[0], 9, city) && OccursAt(r[1], 5, city) && OccursAt(r[2], 5, city) && OccursAt(r[3], 0, city);
    r
  }

  function BaseLandmarks(city: string): seq<string> {
    [city + " City Hall", "Downtown " + city, city + " Park", "Municipal buildings"]
  }

  function StateLandmarks(stateCode: string): seq<string> {
    if stateCode == "CA" then ["beaches", "coastal areas"]
    else if stateCode == "TX" then ["highways", "commercial districts"]
    else if stateCode == "FL" then ["waterfront", "marina districts"]
    else if stateCode == "NY" then ["historic districts", "waterfronts"]
    else []
  }

  function Landmarks(city: string, stateCode: string): seq<string> {
    BaseLandmarks(city) + StateLandmarks(stateCode)
  }

  /** Four landmarks of the city, and two more in the four states with extras. */
  lemma LandmarksShape(city: string, stateCode: string)
    ensures var r := Landmarks(city, stateCode);
      && |r| == 4 + (if stateCode in ExtraStates then 2 else 0)
      && r[..4] == BaseLandmarks(city)
  {
  }

  /** `generateLandmarks`: the base list, then one push per state test. */
  method GenerateLandmarks(city: string, stateCode: string) returns (landmarks: seq<string>)
    ensures landmarks == Landmarks(city, stateCode)
  {
    landmarks := BaseLandmarks(city);
    if stateCode == "CA" { landmarks := landmarks + ["beaches", "coastal areas"]; }
    if stateCode == "TX" { landmarks := landmarks + ["highways", "commercial districts"]; }
    if stateCode == "FL" { landmarks := landmarks + ["waterfront", "marina districts"]; }
    if stateCode == "NY" { landmarks := landmarks + ["historic districts", "waterfronts"]; }
  }

  const BaseChallenges: seq<string> := ["narrow streets", "parking restrictions", "HOA restrictions"]

  function StateChallenges(stateCode: string): seq<string> {
    if stateCode == "CA" then ["strict environmental regulations", "earthquake zones"]
    else if stateCode == "TX" then ["heat considerations", "wide lots"]
    else if stateCode == "FL" then ["hurricane season", "flood zones"]
    else if stateCode == "NY" then ["winter weather", "dense neighborhoods"]
    else []
  }

  function Challenges(stateCode: string): seq<string> {
    BaseChallenges + StateChallenges(stateCode)
  }

  /** Three challenges everywhere, and two more in the four states with extras. */
  lemma ChallengesShape(stateCode: string)
    ensures var r := Challenges(stateCode);
      |r| == 3 + (if stateCode in ExtraStates then 2 else 0) && r[..3] == BaseChallenges
  {
  }

  /** `generateChallenges`. */
  method GenerateChallenges(stateCode: string) returns (challenges: seq<string>)
    ensures challenges == Challenges(stateCode)
  {
    challenges := BaseChallenges;
    if stateCode == "CA" { challenges := challenges + ["strict environmental regulations", "earthquake zones"]; }
    if stateCode == "TX" { challenges := challenges + ["heat considerations", "wide lots"]; }
    if stateCode == "FL" { challenges := challenges + ["hurricane season", "flood zones"]; }
    if stateCode == "NY" { challenges := challenges + ["winter weather", "dense neighborhoods"]; }
  }

  /** `wildlifeByState[stateCode] || ['raccoons', 'possums']`: a list is never falsy. */
  function Wildlife(stateCode: string): (r: seq<string>)
    ensures stateCode in WildlifeByState ==> r == WildlifeByState[stateCode]
    ensures stateCode !in WildlifeByState ==> r == DefaultWildlife
  {
    if stateCode in WildlifeByState then WildlifeByState[stateCode] else DefaultWildlife
  }

  /** Raccoons are on every state's list but Colorado's. */
  lemma RaccoonsAlmostEverywhere(stateCode: string)
    ensures "raccoons" in Wildlife(stateCode) <==> stateCode != "CO"
    ensures 2 <= |Wildlife(stateCode)| <= 3
  {
    if stateCode == "CO" {
      assert Wildlife(stateCode) == ["bears", "deer", "mountain lions"];
    }
  }

  /** The three groups of seasonal factors, each present when the state is on its list. */
  function SeasonalFactors(stateCode: string): seq<string> {
    (if stateCode in HeatStates then HeatFactors else [])
    + (if stateCode in WinterStates then WinterFactors else [])
    + (if stateCode in HurricaneStates then HurricaneFactors else [])
  }

  /** No state is both hot and wintry, so at most two groups apply and at most four factors. */
  lemma SeasonalFactorsCount(stateCode: string)
    ensures var r := SeasonalFactors(stateCode);
      && |r| == (if stateCode in HeatStates then 2 else 0) + (if stateCode in WinterStates then 3 else 0)
                + (if stateCode in HurricaneStates then 2 else 0)
      && |r| <= 4
      && (r == [] <==> stateCode !in HeatStates + WinterStates + HurricaneStates)
  {
  }

  /** Texas and Florida get the heat group first, then the hurricane group. */
  lemma GulfStatesFactors(stateCode: string)
    requires stateCode == "TX" || stateCode == "FL"
    ensures SeasonalFactors(stateCode) == HeatFactors + HurricaneFactors
  {
  }

  /** `generateSeasonalFactors`: three tests, each pushing its group. */
  method GenerateSeasonalFactors(stateCode: string) returns (factors: seq<string>)
    ensures factors == SeasonalFactors(stateCode)
  {
    factors := [];
    if stateCode in HeatStates { factors := factors + HeatFactors; }
    if stateCode in WinterStates { factors := factors + WinterFactors; }
    if stateCode in HurricaneStates { factors := factors + HurricaneFactors; }
  }

  /** `scrapeLocalData`. */
  method ScrapeLocalData(city: string, stateCode: string) returns (data: LocalData)
    ensures data.landmarks == Landmarks(city, stateCode) && data.challenges == Challenges(stateCode)
    ensures data.seasonalFactors == SeasonalFactors(stateCode)
    ensures data.permitCost == PermitCost(stateCode) && data.permitUrl == PermitUrl(city, stateCode)
    ensures data.permitDepartment == city + " Code Enforcement" && data.permitProcessingDays == ProcessingDays
    ensures data.mainStreets == MainStreets(city, stateCode) && data.neighborhoods == Neighborhoods(city)
    ensures data.townRules == TownRules && data.localWildlife == Wildlife(stateCode)
    ensures data.nearbyFacilities == NearbyFacilities
  {
    var landmarks := GenerateLandmarks(city, stateCode);
    var challenges := GenerateChallenges(stateCode);
    var factors := GenerateSeasonalFactors(stateCode);
    data := LocalData(MainStreets(city, stateCode), landmarks, Neighborhoods(city), challenges,
                      city + " Code Enforcement", PermitCost(stateCode), ProcessingDays, PermitUrl(city, stateCode),
                      TownRules, Wildlife(stateCode), factors, NearbyFacilities);
  }
}
