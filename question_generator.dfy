/**
 * The question plan of a city (`lib/research/question-generator.ts`): the main page merges the
 * scraped questions with the core templates and keeps the 50 of highest priority, each topic
 * page has its own fixed template list, and each of up to five neighbourhoods gets a page of
 * fifteen local questions.
 */
module QuestionGenerator {
  import opened Wrappers
  import opened Text
  import opened Sorting

  datatype GeneratedQuestion = GeneratedQuestion(question: string, category: string, source: string, priority: int)

  /** A scraped question; `category` and `source` may be missing. */
  datatype ScrapedQuestion = ScrapedQuestion(question: string, category: Option<string>, source: Option<string>)

  /** The parts of `CityData` the plan reads. */
  datatype CityData = CityData(city: string, stateCode: string, neighborhoods: seq<string>)

  datatype QuestionPage = QuestionPage(questions: seq<GeneratedQuestion>, slug: string, title: string, metaDescription: string)

  datatype NeighborhoodPage = NeighborhoodPage(page: QuestionPage, neighborhood: string)

  function Priority(q: GeneratedQuestion): int { q.priority }

  const ScrapedPriority: int := 100
  const MainQuestionLimit: nat := 50
  const NeighborhoodLimit: nat := 5

  /** `v || fallback` for an optional string: a missing or empty value gives way to `fallback`. */
  function OrDefault(v: Option<string>, fallback: string): (r: string)
    ensures r == fallback || (v == Some(r) && r != "")
  {
    if v.Some? && v.value != "" then v.value else fallback
  }

  /** A scraped question as the main page stores it. */
  function FromScraped(q: ScrapedQuestion): (g: GeneratedQuestion)
    ensures g.question == q.question && g.priority == ScrapedPriority
    ensures g.category != "" && g.source != ""
    ensures q.category.None? ==> g.category == "general"
    ensures q.source.None? ==> g.source == "scraped"
  {
    GeneratedQuestion(q.question, OrDefault(q.category, "general"), OrDefault(q.source, "scraped"), ScrapedPriority)
  }

  function FromScrapedAll(qs: seq<ScrapedQuestion>): (r: seq<GeneratedQuestion>)
    ensures |r| == |qs| && forall i | 0 <= i < |qs| :: r[i] == FromScraped(qs[i])
  {
    seq(|qs|, i requires 0 <= i < |qs| => FromScraped(qs[i]))
  }

  // ---------------------------------------------------------------------------
  // Template wording
  // ---------------------------------------------------------------------------

  /** A template question is fixed text around the city, the state code or the neighbourhood. */
  datatype Slot = CityName | StateCode | Hood
  datatype Template =
    | Plain(text: string)
    | One(before: string, slot: Slot, after: string)
    | Two(before: string, first: Slot, middle: string, second: Slot, after: string)

  function SlotValue(s: Slot, c: CityData, hood: string): string {
    match s
    case CityName => c.city
    case StateCode => c.stateCode
    case Hood => hood
  }

  /** The template literal with its placeholders filled in. */
  function Wording(t: Template, c: CityData, hood: string): string {
    match t
    case Plain(text) => text
    case One(before, slot, after) => before + SlotValue(slot, c, hood) + after
    case Two(before, first, middle, second, after) =>
      before + SlotValue(first, c, hood) + middle + SlotValue(second, c, hood) + after
  }

  /** The texts of a template list. */
  function Fill(c: CityData, hood: string, templates: seq<Template>): (r: seq<string>)
    ensures |r| == |templates|
  {
    seq(|templates|, i requires 0 <= i < |templates| => Wording(templates[i], c, hood))
  }

  /** Template questions: text, category and priority position by position, source `template`. */
  function Templates(texts: seq<string>, category: nat -> string, priorities: seq<int>): (r: seq<GeneratedQuestion>)
    requires |texts| == |priorities|
    ensures |r| == |priorities|
    ensures forall i | 0 <= i < |r| ::
      r[i] == GeneratedQuestion(texts[i], category(i), "template", priorities[i])
  {
    seq(|texts|, i requires 0 <= i < |texts| => GeneratedQuestion(texts[i], category(i), "template", priorities[i]))
  }

  /** Template questions listed in non-increasing priority come out in that order. */
  lemma TemplatesOrdered(texts: seq<string>, category: nat -> string, priorities: seq<int>)
    requires |texts| == |priorities| && NonIncreasingFrom(priorities, 0)
    ensures SortedDesc(Templates(texts, category, priorities), Priority)
  {
    NonIncreasingFromSorted(priorities, 0);
  }

  /** `city.toLowerCase().replace(/\s+/g, '-')`. */
  function Slug(name: string): (r: string)
    ensures NoSpace(r)
  {
    ReplaceLeavesNoSpace(ToLower(name), "-");
    ReplaceSpaceRuns(ToLower(name), "-")
  }

  /** The slug is the lower-cased name's pieces between runs of white space, joined by `-`. */
  lemma SlugPieces(name: string)
    ensures Slug(name) == Join(SplitSpaces(ToLower(name)), "-")
  {
    ReplaceIsSplitJoin(ToLower(name), "-");
  }

  // ---------------------------------------------------------------------------
  // Main city page
  // ---------------------------------------------------------------------------

  /** No core template reaches the priority of a scraped question. */
  type CorePriority = p: int | p <= 97

  /** The core questions, in source order: 15 on pricing, 12 on sizes, 10 on permits, 8 on logistics. */
  const CoreWordings: seq<Template> := [
    Two("How much does a dumpster rental cost in ", CityName, ", ", StateCode, "?"),
    One("What's the average price for a 10 yard dumpster in ", CityName, "?"),
    One("What's the average price for a 20 yard dumpster in ", CityName, "?"),
    One("What's the average price for a 30 yard dumpster in ", CityName, "?"),
    One("Are there any hidden fees for dumpster rental in ", CityName, "?"),
    One("What's included in the rental price in ", CityName, "?"),
    One("Is there a weight limit on dumpsters in ", CityName, "?"),
    One("What happens if I exceed the weight limit in ", CityName, "?"),
    One("Do you offer discounts for long-term rentals in ", CityName, "?"),
    One("How much does a week-long rental cost in ", CityName, "?"),
    One("Can I get same-day delivery in ", CityName, "?"),
    One("Are weekend rentals more expensive in ", CityName, "?"),
    One("What payment methods do you accept in ", CityName, "?"),
    One("Is there a deposit required in ", CityName, "?"),
    One("Can I extend my rental period in ", CityName, "?"),
    One("What size dumpster do I need in ", CityName, "?"),
    Plain("What's the difference between a 10 and 20 yard dumpster?"),
    Plain("What's the difference between a 20 and 30 yard dumpster?"),
    One("How do I choose the right size for my project in ", CityName, "?"),
    One("What's the most popular dumpster size in ", CityName, "?"),
    One("Can I upgrade to a larger size after delivery in ", CityName, "?"),
    Plain("What are the dimensions of a 20 yard dumpster?"),
    Plain("How many tons can a 20 yard dumpster hold?"),
    One("What size dumpster for a kitchen remodel in ", CityName, "?"),
    One("What size dumpster for a bathroom remodel in ", CityName, "?"),
    One("Will a 10 yard dumpster fit in my driveway in ", CityName, "?"),
    One("What size for yard waste removal in ", CityName, "?"),
    One("Do I need a permit for a dumpster in ", CityName, "?"),
    One("How much is a dumpster permit in ", CityName, "?"),
    One("How do I get a permit in ", CityName, "?"),
    One("Do I need a permit if it's on my property in ", CityName, "?"),
    One("What are the HOA rules for dumpsters in ", CityName, "?"),
    One("Can I put a dumpster on the street in ", CityName, "?"),
    One("What are the placement rules in ", CityName, "?"),
    One("Can I put it in my driveway in ", CityName, "?"),
    One("Are there time restrictions for delivery in ", CityName, "?"),
    One("What happens if I don't get a permit in ", CityName, "?"),
    One("How long can I keep a dumpster in ", CityName, "?"),
    One("Can I extend my rental in ", CityName, "?"),
    One("How far in advance should I book in ", CityName, "?"),
    One("Do I need to be present for delivery in ", CityName, "?"),
    One("What happens if I overfill the dumpster in ", CityName, "?"),
    One("How do I prepare my driveway in ", CityName, "?"),
    One("Will it damage my driveway in ", CityName, "?"),
    One("Can I move it after delivery in ", CityName, "?")
  ]
  const CorePriorities: seq<CorePriority> := [95, 94, 94, 94, 92, 91, 90, 90, 88, 87, 86, 85, 84, 83, 82, 96, 93, 93, 92, 88, 86, 85, 85, 84, 83, 82, 81, 97, 95, 94, 92, 90, 89, 88, 87, 84, 82, 91, 89, 88, 87, 84, 82, 81, 80]

  function CoreCategory(i: nat): string {
    if i < 15 then "pricing" else if i < 27 then "size" else if i < 37 then "permits" else "logistics"
  }

  /** The texts of the core questions for a city. */
  function CoreTexts(c: CityData): (r: seq<string>)
    ensures |r| == |CorePriorities|
  {
    Fill(c, "", CoreWordings)
  }

  function CoreQuestions(texts: seq<string>): (r: seq<GeneratedQuestion>)
    requires |texts| == |CorePriorities|
  {
    Templates(texts, CoreCategory, CorePriorities)
  }

  /** Every core question is a template below the scraped priority. */
  lemma CoreQuestionsAreTemplates(texts: seq<string>)
    requires |texts| == |CorePriorities|
    ensures forall q | q in CoreQuestions(texts) :: q.source == "template" && q.priority < ScrapedPriority
  {
    var core := CoreQuestions(texts);
    forall q | q in core ensures q.source == "template" && q.priority < ScrapedPriority {
      var j :| 0 <= j < |core| && core[j] == q;
    }
  }

  /** Scraped questions, then the core ones, stably sorted by descending priority, cut to 50. */
  function MainQuestions(scraped: seq<ScrapedQuestion>, texts: seq<string>): seq<GeneratedQuestion>
    requires |texts| == |CorePriorities|
  {
    Take(SortDesc(FromScrapedAll(scraped) + CoreQuestions(texts), Priority), MainQuestionLimit)
  }

  function MainSlug(c: CityData): string {
    Slug(c.city) + "-" + ToLower(c.stateCode)
  }

  const MainTitleOpen: string := "Dumpster Rental "
  const MainTitleClose: string := " - Affordable Roll-Off Dumpsters"
  const MainMetaOpen: string := "Rent a dumpster in "
  const MainMetaClose: string :=
    ". Fast delivery, transparent pricing, all sizes. Perfect for home, business & construction projects."

  function MainTitle(c: CityData): string {
    MainTitleOpen + c.city + ", " + c.stateCode + MainTitleClose
  }

  function MainMeta(c: CityData): string {
    MainMetaOpen + c.city + ", " + c.stateCode + MainMetaClose
  }

  /** `generateMainCityPage`. */
  function MainCityPage(scraped: seq<ScrapedQuestion>, c: CityData): QuestionPage {
    QuestionPage(MainQuestions(scraped, CoreTexts(c)), MainSlug(c),
      MainTitle(c), MainMeta(c))
  }

  /** `generateMainCityPage`: push the scraped questions, push the core ones, sort, slice. */
  method GenerateMainCityPage(scraped: seq<ScrapedQuestion>, c: CityData) returns (page: QuestionPage)
    ensures page == MainCityPage(scraped, c)
  {
    var questions: seq<GeneratedQuestion> := [];
    var i := 0;
    while i < |scraped|
      invariant i <= |scraped|
      invariant questions == FromScrapedAll(scraped[..i])
    {
      questions := questions + [FromScraped(scraped[i])];
      i := i + 1;
    }
    assert scraped[..i] == scraped;
    questions := questions + CoreQuestions(CoreTexts(c));
    questions := SortDesc(questions, Priority);
    page := QuestionPage(Take(questions, MainQuestionLimit), MainSlug(c),
      MainTitle(c), MainMeta(c));
  }

  /** The main page holds min(50, #scraped + 45) questions, in non-increasing priority. */
  lemma MainQuestionsOrdered(scraped: seq<ScrapedQuestion>, texts: seq<string>)
    requires |texts| == |CorePriorities|
    ensures var r := MainQuestions(scraped, texts);
      && |r| == (if |scraped| + 45 < MainQuestionLimit then |scraped| + 45 else MainQuestionLimit)
      && SortedDesc(r, Priority)
  {
    var all := FromScrapedAll(scraped) + CoreQuestions(texts);
    SortDescSorted(all, Priority);
    TakeSorted(SortDesc(all, Priority), Priority, MainQuestionLimit);
  }

  /** The scraped questions come first, in their own order; every later question is a core
      template, below the scraped priority. */
  lemma MainQuestionsScrapedFirst(scraped: seq<ScrapedQuestion>, texts: seq<string>)
    requires |texts| == |CorePriorities|
    ensures var r := MainQuestions(scraped, texts);
      var n := if |scraped| < MainQuestionLimit then |scraped| else MainQuestionLimit;
      && n <= |r|
      && r[..n] == FromScrapedAll(scraped)[..n]
      && forall i | n <= i < |r| :: r[i] in CoreQuestions(texts) && r[i].source == "template" && r[i].priority < ScrapedPriority
  {
    var mine := FromScrapedAll(scraped);
    var core := CoreQuestions(texts);
    var s := SortDesc(mine + core, Priority);
    TopGroupFirst(mine, core, Priority, ScrapedPriority);
    CoreQuestionsAreTemplates(texts);
  }

  /** `generateMainCityPage` on a city: the shape above, and the slug `<city>-<state>`. */
  lemma MainCityPageShape(scraped: seq<ScrapedQuestion>, c: CityData)
    ensures var p := MainCityPage(scraped, c);
      var n := if |scraped| < MainQuestionLimit then |scraped| else MainQuestionLimit;
      && |p.questions| == (if |scraped| + 45 < MainQuestionLimit then |scraped| + 45 else MainQuestionLimit)
      && SortedDesc(p.questions, Priority)
      && p.questions[..n] == FromScrapedAll(scraped)[..n]
      && (forall i | n <= i < |p.questions| :: p.questions[i].source == "template" && p.questions[i].priority < ScrapedPriority)
      && p.slug == Join(SplitSpaces(ToLower(c.city)), "-") + "-" + ToLower(c.stateCode)
  {
    MainQuestionsOrdered(scraped, CoreTexts(c));
    MainQuestionsScrapedFirst(scraped, CoreTexts(c));
    SlugPieces(c.city);
  }

  // ---------------------------------------------------------------------------
  // Topic pages
  // ---------------------------------------------------------------------------

  /** The residential questions, in source order. */
  const ResidentialWordings: seq<Template> := [
    One("What size dumpster for a home cleanout in ", CityName, "?"),
    One("Best dumpster for garage cleanout in ", CityName, "?"),
    One("Best dumpster for basement cleanout in ", CityName, "?"),
    One("Best dumpster for attic cleanout in ", CityName, "?"),
    One("How much does residential dumpster rental cost in ", CityName, "?"),
    One("Can I put furniture in a dumpster in ", CityName, "?"),
    One("Can I put appliances in a dumpster in ", CityName, "?"),
    One("Can I put mattresses in a dumpster in ", CityName, "?"),
    One("Best dumpster for estate cleanout in ", CityName, "?"),
    One("Dumpster rental for moving in ", CityName, "?"),
    One("Best dumpster for downsizing in ", CityName, "?"),
    One("Dumpster for spring cleaning in ", CityName, "?"),
    One("What size for full house cleanout in ", CityName, "?"),
    One("Can I rent a dumpster for yard waste in ", CityName, "?"),
    One("Best dumpster for decluttering in ", CityName, "?"),
    One("Dumpster for foreclosure cleanout in ", CityName, "?"),
    One("Best dumpster for hoarding cleanup in ", CityName, "?"),
    One("What items can't go in a residential dumpster in ", CityName, "?"),
    One("How long can I keep a residential dumpster in ", CityName, "?"),
    One("Do I need a permit for my driveway in ", CityName, "?"),
    One("Can I share a dumpster with my neighbor in ", CityName, "?"),
    One("Best time to rent for home projects in ", CityName, "?"),
    One("Dumpster for home renovation in ", CityName, "?"),
    One("What size for bathroom remodel in ", CityName, "?"),
    One("Dumpster for flooring removal in ", CityName, "?")
  ]
  const ResidentialPriorities: seq<int> := [95, 94, 94, 93, 92, 91, 91, 90, 89, 88, 88, 87, 86, 85, 84, 83, 82, 81, 80, 79, 78, 77, 76, 75, 74]
  /** The commercial questions, in source order. */
  const CommercialWordings: seq<Template> := [
    One("Commercial dumpster rental prices in ", CityName, "?"),
    One("Long-term dumpster rental for businesses in ", CityName, "?"),
    One("What size dumpster for retail store cleanout in ", CityName, "?"),
    One("What size dumpster for office cleanout in ", CityName, "?"),
    One("Restaurant dumpster requirements in ", CityName, "?"),
    One("Dumpster rental for property management in ", CityName, "?"),
    One("Can I get recurring dumpster service in ", CityName, "?"),
    One("Best dumpster for warehouse cleanout in ", CityName, "?"),
    One("Dumpster for commercial renovations in ", CityName, "?"),
    One("What size dumpster for a strip mall in ", CityName, "?"),
    One("Do businesses get discounts in ", CityName, "?"),
    One("Dumpster for business relocations in ", CityName, "?"),
    One("Can I get a locked dumpster in ", CityName, "?"),
    One("What permits do businesses need in ", CityName, "?"),
    One("Dumpster for hotel renovations in ", CityName, "?"),
    One("Best dumpster for medical office in ", CityName, "?"),
    One("Dumpster for gym or fitness center in ", CityName, "?"),
    One("Can dumpsters be in parking lots in ", CityName, "?"),
    One("Best commercial dumpster service in ", CityName, "?"),
    One("Dumpster for apartment complex in ", CityName, "?"),
    One("How often should commercial dumpsters be emptied in ", CityName, "?"),
    One("Dumpster for shopping center in ", CityName, "?"),
    One("Can I get a commercial dumpster with wheels in ", CityName, "?"),
    One("Best dumpster for auto shop in ", CityName, "?"),
    One("Dumpster for salon or spa in ", CityName, "?")
  ]
  const CommercialPriorities: seq<int> := [95, 94, 93, 93, 92, 91, 90, 89, 88, 87, 86, 85, 84, 83, 82, 81, 80, 79, 78, 77, 76, 75, 74, 73, 72]
  /** The construction questions, in source order. */
  const ConstructionWordings: seq<Template> := [
    One("What size dumpster for construction debris in ", CityName, "?"),
    One("What size dumpster for a home addition in ", CityName, "?"),
    One("What size dumpster for demolition in ", CityName, "?"),
    One("Can I put concrete in a dumpster in ", CityName, "?"),
    One("Can I put drywall in a dumpster in ", CityName, "?"),
    One("Can I put wood in a dumpster in ", CityName, "?"),
    One("Can I put bricks in a dumpster in ", CityName, "?"),
    One("What size dumpster for deck removal in ", CityName, "?"),
    One("What size dumpster for fence removal in ", CityName, "?"),
    One("Best dumpster for landscaping debris in ", CityName, "?"),
    One("Do contractors get discounts in ", CityName, "?"),
    One("Can I get multiple dumpsters for one site in ", CityName, "?"),
    One("What permits do contractors need in ", CityName, "?"),
    One("Dumpster for new home construction in ", CityName, "?"),
    One("Best dumpster for siding removal in ", CityName, "?"),
    One("Can I put mixed construction debris in one dumpster in ", CityName, "?"),
    One("What size dumpster for framing waste in ", CityName, "?"),
    One("Dumpster for interior gutting in ", CityName, "?"),
    One("Can I put insulation in a dumpster in ", CityName, "?"),
    One("What items can't go in construction dumpsters in ", CityName, "?"),
    One("How long can I keep a construction dumpster in ", CityName, "?"),
    One("Best dumpster for commercial construction in ", CityName, "?"),
    One("Dumpster for foundation work in ", CityName, "?"),
    One("Can I get same-day delivery in ", CityName, "?"),
    One("What's the weight limit for construction dumpsters in ", CityName, "?")
  ]
  const ConstructionPriorities: seq<int> := [95, 94, 94, 93, 92, 92, 91, 90, 89, 88, 87, 86, 85, 84, 83, 82, 81, 80, 79, 78, 77, 76, 75, 74, 73]
  /** The roofing questions, in source order. */
  const RoofingWordings: seq<Template> := [
    One("What size dumpster for roof replacement in ", CityName, "?"),
    One("Can I put shingles in a dumpster in ", CityName, "?"),
    One("How heavy is a roofing dumpster in ", CityName, "?"),
    One("What size dumpster for 1500 sq ft roof in ", CityName, "?"),
    One("What size dumpster for 2000 sq ft roof in ", CityName, "?"),
    One("What size dumpster for 3000 sq ft roof in ", CityName, "?"),
    One("Can I mix roofing materials in one dumpster in ", CityName, "?"),
    One("What's the weight limit for roofing dumpsters in ", CityName, "?"),
    One("Can I put metal roofing in a dumpster in ", CityName, "?"),
    One("Best dumpster for roof tear-off in ", CityName, "?"),
    One("Do roofers get special rates in ", CityName, "?"),
    One("How do I protect my driveway during roofing in ", CityName, "?"),
    One("Can I get same-day roofing dumpster in ", CityName, "?"),
    One("What if my roofing dumpster is overweight in ", CityName, "?"),
    One("Can I put tar paper in a dumpster in ", CityName, "?"),
    One("Best dumpster placement for roofing in ", CityName, "?"),
    One("Do I need a permit for roofing dumpster in ", CityName, "?"),
    One("How long for typical roofing rental in ", CityName, "?"),
    One("Can I extend my roofing rental in ", CityName, "?"),
    One("What size for commercial roof in ", CityName, "?")
  ]
  const RoofingPriorities: seq<int> := [95, 94, 93, 92, 92, 91, 90, 89, 88, 87, 86, 85, 84, 83, 82, 81, 80, 79, 78, 77]

  const ResidentialTitleOpen: string := "Residential Dumpster Rental "
  const ResidentialTitleClose: string := " - Home Cleanout Experts"
  const ResidentialMetaOpen: string := "Residential dumpster rentals in "
  const ResidentialMetaClose: string :=
    " for home cleanouts, renovations & decluttering. All sizes, fast delivery. Perfect for homeowners."

  /** `generateResidentialPage`: 25 questions of category `residential` under the slug `residential`. */
  function ResidentialPage(c: CityData): QuestionPage {
    QuestionPage(Templates(Fill(c, "", ResidentialWordings), (_: nat) => "residential", ResidentialPriorities), "residential",
      ResidentialTitleOpen + c.city + ", " + c.stateCode + ResidentialTitleClose, ResidentialMetaOpen + c.city + ResidentialMetaClose)
  }

  /** The residential priorities never increase; checked from the end of the list, a stretch at a time. */
  lemma ResidentialPrioritiesOrdered()
    ensures NonIncreasingFrom(ResidentialPriorities, 0)
  {
    assert NonIncreasingFrom(ResidentialPriorities, 24);
    assert NonIncreasingFrom(ResidentialPriorities, 12);
  }

  /** The residential page has exactly 25 questions, all of category `residential`, in non-increasing
      priority order, and the slug `residential`. */
  lemma ResidentialPageShape(c: CityData)
    ensures var p := ResidentialPage(c);
      && |p.questions| == 25 && p.slug == "residential"
      && (forall i | 0 <= i < 25 :: p.questions[i].category == "residential" && p.questions[i].source == "template")
      && SortedDesc(p.questions, Priority)
  {
    ResidentialPrioritiesOrdered();
    TemplatesOrdered(Fill(c, "", ResidentialWordings), (_: nat) => "residential", ResidentialPriorities);
  }

  const CommercialTitleOpen: string := "Commercial Dumpster Rental "
  const CommercialTitleClose: string := " - Business Waste Solutions"
  const CommercialMetaOpen: string := "Commercial dumpster rentals in "
  const CommercialMetaClose: string :=
    " for businesses, property managers & retail. Long-term rentals available. Reliable service."

  /** `generateCommercialPage`: 25 questions of category `commercial` under the slug `commercial`. */
  function CommercialPage(c: CityData): QuestionPage {
    QuestionPage(Templates(Fill(c, "", CommercialWordings), (_: nat) => "commercial", CommercialPriorities), "commercial",
      CommercialTitleOpen + c.city + ", " + c.stateCode + CommercialTitleClose, CommercialMetaOpen + c.city + CommercialMetaClose)
  }

  /** The commercial priorities never increase; checked from the end of the list, a stretch at a time. */
  lemma CommercialPrioritiesOrdered()
    ensures NonIncreasingFrom(CommercialPriorities, 0)
  {
    assert NonIncreasingFrom(CommercialPriorities, 24);
    assert NonIncreasingFrom(CommercialPriorities, 12);
  }

  /** The commercial page has exactly 25 questions, all of category `commercial`, in non-increasing
      priority order, and the slug `commercial`. */
  lemma CommercialPageShape(c: CityData)
    ensures var p := CommercialPage(c);
      && |p.questions| == 25 && p.slug == "commercial"
      && (forall i | 0 <= i < 25 :: p.questions[i].category == "commercial" && p.questions[i].source == "template")
      && SortedDesc(p.questions, Priority)
  {
    CommercialPrioritiesOrdered();
    TemplatesOrdered(Fill(c, "", CommercialWordings), (_: nat) => "commercial", CommercialPriorities);
  }

  const ConstructionTitleOpen: string := "Construction Dumpster Rental "
  const ConstructionTitleClose: string := " - Contractor Solutions"
  const ConstructionMetaOpen: string := "Construction dumpster rentals in "
  const ConstructionMetaClose: string :=
    " for contractors & builders. Heavy-duty dumpsters, flexible rental periods. Reliable service."

  /** `generateConstructionPage`: 25 questions of category `construction` under the slug `construction`. */
  function ConstructionPage(c: CityData): QuestionPage {
    QuestionPage(Templates(Fill(c, "", ConstructionWordings), (_: nat) => "construction", ConstructionPriorities), "construction",
      ConstructionTitleOpen + c.city + ", " + c.stateCode + ConstructionTitleClose, ConstructionMetaOpen + c.city + ConstructionMetaClose)
  }

  /** The construction priorities never increase; checked from the end of the list, a stretch at a time. */
  lemma ConstructionPrioritiesOrdered()
    ensures NonIncreasingFrom(ConstructionPriorities, 0)
  {
    assert NonIncreasingFrom(ConstructionPriorities, 24);
    assert NonIncreasingFrom(ConstructionPriorities, 12);
  }

  /** The construction page has exactly 25 questions, all of category `construction`, in non-increasing
      priority order, and the slug `construction`. */
  lemma ConstructionPageShape(c: CityData)
    ensures var p := ConstructionPage(c);
      && |p.questions| == 25 && p.slug == "construction"
      && (forall i | 0 <= i < 25 :: p.questions[i].category == "construction" && p.questions[i].source == "template")
      && SortedDesc(p.questions, Priority)
  {
    ConstructionPrioritiesOrdered();
    TemplatesOrdered(Fill(c, "", ConstructionWordings), (_: nat) => "construction", ConstructionPriorities);
  }

  const RoofingTitleOpen: string := "Roofing Dumpster Rental "
  const RoofingTitleClose: string := " - Shingle Disposal Experts"
  const RoofingMetaOpen: string := "Roofing dumpster rentals in "
  const RoofingMetaClose: string :=
    " for roofers & contractors. Heavy-duty dumpsters for shingle disposal & roof tear-offs."

  /** `generateRoofingPage`: 20 questions of category `roofing` under the slug `roofing`. */
  function RoofingPage(c: CityData): QuestionPage {
    QuestionPage(Templates(Fill(c, "", RoofingWordings), (_: nat) => "roofing", RoofingPriorities), "roofing",
      RoofingTitleOpen + c.city + ", " + c.stateCode + RoofingTitleClose, RoofingMetaOpen + c.city + RoofingMetaClose)
  }

  /** The roofing priorities never increase; checked from the end of the list, a stretch at a time. */
  lemma RoofingPrioritiesOrdered()
    ensures NonIncreasingFrom(RoofingPriorities, 0)
  {
    assert NonIncreasingFrom(RoofingPriorities, 19);
    assert NonIncreasingFrom(RoofingPriorities, 7);
  }

  /** The roofing page has exactly 20 questions, all of category `roofing`, in non-increasing
      priority order, and the slug `roofing`. */
  lemma RoofingPageShape(c: CityData)
    ensures var p := RoofingPage(c);
      && |p.questions| == 20 && p.slug == "roofing"
      && (forall i | 0 <= i < 20 :: p.questions[i].category == "roofing" && p.questions[i].source == "template")
      && SortedDesc(p.questions, Priority)
  {
    RoofingPrioritiesOrdered();
    TemplatesOrdered(Fill(c, "", RoofingWordings), (_: nat) => "roofing", RoofingPriorities);
  }

  // ---------------------------------------------------------------------------
  // Neighbourhood pages
  // ---------------------------------------------------------------------------

  /** The local questions of a neighbourhood page, in source order. */
  const NeighborhoodWordings: seq<Template> := [
    Two("Dumpster rental in ", Hood, ", ", CityName, "?"),
    One("How much does dumpster rental cost in ", Hood, "?"),
    Two("Best dumpster service in ", Hood, ", ", CityName, "?"),
    One("Can I put a dumpster on the street in ", Hood, "?"),
    One("What size dumpster for ", Hood, " homes?"),
    One("Are there HOA restrictions in ", Hood, "?"),
    One("Same-day delivery in ", Hood, "?"),
    Two("Residential dumpster in ", Hood, ", ", CityName, "?"),
    One("Do I need a permit in ", Hood, "?"),
    One("Parking rules for dumpsters in ", Hood, "?"),
    One("Best time to rent in ", Hood, "?"),
    One("Dumpster for home renovation in ", Hood, "?"),
    One("Can I share a dumpster in ", Hood, "?"),
    One("Typical driveway size in ", Hood, "?"),
    One("Weight restrictions in ", Hood, "?")
  ]
  const NeighborhoodPriorities: seq<int> := [95, 94, 93, 92, 91, 90, 89, 88, 87, 86, 85, 84, 83, 82, 81]

  const NeighborhoodTitleOpen: string := "Dumpster Rental in "
  const NeighborhoodMetaOpen: string := "Local dumpster rental in "
  const NeighborhoodMetaClose: string := ". Fast delivery, transparent pricing, all sizes available."

  /** The page of one neighbourhood. */
  function NeighborhoodPageOf(hood: string, c: CityData): NeighborhoodPage {
    NeighborhoodPage(
      QuestionPage(Templates(Fill(c, hood, NeighborhoodWordings), (_: nat) => "local", NeighborhoodPriorities), Slug(hood),
        NeighborhoodTitleOpen + hood + ", " + c.city + " " + c.stateCode,
        NeighborhoodMetaOpen + hood + ", " + c.city + NeighborhoodMetaClose),
      hood)
  }

  /** `generateNeighborhoodPages`: no neighbourhoods, no pages; otherwise one page for each of
      the first five. */
  function NeighborhoodPages(c: CityData): seq<NeighborhoodPage> {
    if |c.neighborhoods| == 0 then []
    else
      var hoods := Take(c.neighborhoods, NeighborhoodLimit);
      seq(|hoods|, i requires 0 <= i < |hoods| => NeighborhoodPageOf(hoods[i], c))
  }

  lemma NeighborhoodPrioritiesOrdered()
    ensures NonIncreasingFrom(NeighborhoodPriorities, 0)
  {
    assert NonIncreasingFrom(NeighborhoodPriorities, 14);
    assert NonIncreasingFrom(NeighborhoodPriorities, 2);
  }

  /** One page per neighbourhood among the first five, in order: it names the neighbourhood, its
      slug is the neighbourhood's, and it holds 15 local questions in non-increasing priority. */
  lemma NeighborhoodPagesShape(c: CityData)
    ensures var pages := NeighborhoodPages(c);
      && |pages| == (if |c.neighborhoods| < NeighborhoodLimit then |c.neighborhoods| else NeighborhoodLimit)
      && forall i | 0 <= i < |pages| ::
           && pages[i].neighborhood == c.neighborhoods[i]
           && pages[i].page.slug == Slug(c.neighborhoods[i])
           && |pages[i].page.questions| == 15
           && SortedDesc(pages[i].page.questions, Priority)
  {
    NeighborhoodPrioritiesOrdered();
    var pages := NeighborhoodPages(c);
    forall i | 0 <= i < |pages|
      ensures SortedDesc(pages[i].page.questions, Priority)
    {
      var hood := c.neighborhoods[i];
      TemplatesOrdered(Fill(c, hood, NeighborhoodWordings), (_: nat) => "local", NeighborhoodPriorities);
    }
  }
}
