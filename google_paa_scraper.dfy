/**
 * The "People Also Ask" questions: twenty fixed question templates about dumpster rental, and
 * four more per project type, filled in with the city's name.
 */
module GooglePaaScraper {
  import opened Text

  datatype PaaQuestion = PaaQuestion(question: string, source: string)

  const PaaSource: string := "Google People Also Ask"

  /** A question template: an opening followed by the city and a question mark, or a fixed text. */
  datatype Template = WithCity(opening: string) | Fixed(text: string)

  function Fill(t: Template, city: string): string {
    match t
    case WithCity(opening) => opening + city + "?"
    case Fixed(text) => text
  }

  /** A template with the city names the city. */
  lemma FillNamesCity(opening: string, city: string)
    ensures Contains(Fill(WithCity(opening), city), city)
  {
    assert OccursAt(opening + city + "?", |opening|, city);
  }

  const QuestionTemplates: seq<Template> := [
    WithCity("How much does a dumpster rental cost in "),
    WithCity("What size dumpster do I need in "),
    WithCity("Do I need a permit for a dumpster in "),
    WithCity("How long can I keep a dumpster in "),
    WithCity("Can I put a dumpster in my driveway in "),
    WithCity("What items are not allowed in a dumpster in "),
    WithCity("How much weight can a dumpster hold in "),
    Fixed("What's the difference between a 10 yard and 20 yard dumpster?"),
    WithCity("How far in advance should I book a dumpster in "),
    WithCity("Do dumpster rentals include pickup in "),
    WithCity("Can I move a dumpster once it's delivered in "),
    WithCity("What happens if I overfill a dumpster in "),
    WithCity("Are there any restrictions on where I can place a dumpster in "),
    WithCity("How do I prepare my driveway for a dumpster in "),
    WithCity("What's the best dumpster size for a home renovation in "),
    WithCity("Can I rent a dumpster for one day in "),
    WithCity("Do I need to be present for dumpster delivery in "),
    WithCity("What's included in the dumpster rental price in "),
    WithCity("Can I extend my dumpster rental period in "),
    WithCity("What's the cheapest dumpster rental option in ")]

  /** The position of the one template without the city. */
  const FixedTemplate: nat := 7

  /** What `scrapeGooglePAA` returns: one record per template, in template order. */
  function PaaQuestions(city: string): seq<PaaQuestion> {
    seq(|QuestionTemplates|, i requires 0 <= i < |QuestionTemplates| => PaaQuestion(Fill(QuestionTemplates[i], city), PaaSource))
  }

  /** Twenty questions, all from the same source, every one but the eighth naming the city. */
  lemma PaaQuestionsShape(city: string)
    ensures var r := PaaQuestions(city);
      && |r| == 20
      && (forall i | 0 <= i < |r| :: r[i].source == PaaSource && r[i].question == Fill(QuestionTemplates[i], city))
      && (forall i | 0 <= i < |r| && i != FixedTemplate :: Contains(r[i].question, city))
  {
    var r := PaaQuestions(city);
    forall i | 0 <= i < |r| && i != FixedTemplate ensures Contains(r[i].question, city) {
      assert QuestionTemplates[i].WithCity?;
      FillNamesCity(QuestionTemplates[i].opening, city);
    }
  }

  /** `scrapeGooglePAA(city, state)`: the `forEach` over the templates pushes one record each.
      The state is not used, so the result is the same for every state. */
  method ScrapeGooglePaa(city: string, state: string) returns (questions: seq<PaaQuestion>)
    ensures questions == PaaQuestions(city)
  {
    questions := [];
    for i := 0 to |QuestionTemplates|
      invariant questions == PaaQuestions(city)[..i]
    {
      questions := questions + [PaaQuestion(Fill(QuestionTemplates[i], city), PaaSource)];
    }
  }

  datatype Topic = Residential | Commercial | Construction | Roofing

  const ResidentialOpenings: seq<string> := [
    "What size dumpster for home cleanout in ", "How much to rent a dumpster for garage cleanout in ",
    "Best dumpster size for estate cleanout in ", "Can I rent a dumpster for yard waste in "]
  const CommercialOpenings: seq<string> := [
    "Commercial dumpster rental prices in ", "Long-term dumpster rental for businesses in ",
    "Restaurant dumpster requirements in ", "Office cleanout dumpster size in "]
  const ConstructionOpenings: seq<string> := [
    "What dumpster size for home addition in ", "Construction debris dumpster rental in ",
    "Concrete disposal dumpster in ", "Demolition dumpster rental cost in "]
  const RoofingOpenings: seq<string> := [
    "Roofing shingle dumpster size in ", "How heavy is a roofing dumpster in ",
    "Can I mix roofing materials in a dumpster in ", "Best dumpster for roof replacement in "]

  /** The openings of each topic's questions; every one is followed by the city and `?`. */
  function TopicOpenings(topic: Topic): (r: seq<string>)
    ensures |r| == 4
  {
    match topic
    case Residential => ResidentialOpenings
    case Commercial => CommercialOpenings
    case Construction => ConstructionOpenings
    case Roofing => RoofingOpenings
  }

  /** `generateTopicQuestions(city, topic)`. */
  function TopicQuestions(city: string, topic: Topic): (r: seq<PaaQuestion>)
    ensures |r| == 4
  {
    var openings := TopicOpenings(topic);
    seq(|openings|, i requires 0 <= i < |openings| => PaaQuestion(Fill(WithCity(openings[i]), city), PaaSource))
  }

  /** Every topic question comes from the same source and names the city. */
  lemma TopicQuestionsNameCity(city: string, topic: Topic)
    ensures forall q | q in TopicQuestions(city, topic) :: q.source == PaaSource && Contains(q.question, city)
  {
    var r := TopicQuestions(city, topic);
    forall q | q in r ensures q.source == PaaSource && Contains(q.question, city) {
      var i :| 0 <= i < 4 && r[i] == q;
      assert q.question == Fill(WithCity(TopicOpenings(topic)[i]), city);
      FillNamesCity(TopicOpenings(topic)[i], city);
    }
  }
}
