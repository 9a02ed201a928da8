/**
 * The schema.org JSON-LD objects every generated page carries: the FAQ page schema built from
 * the questions and their answers (with the `[Link: ...]` references removed), the service
 * schema with its four offers, the local business schema and the organization schema.
 */
module Schemas {
  import opened Wrappers
  import opened Text
  import opened Json
  import opened Records
  import opened AnswerParsing

  // ---------------------------------------------------------------------------
  // answer.replace(/\[Link:.*?\]/g, '')
  // ---------------------------------------------------------------------------

  const LinkPrefix: string := "[Link:"

  /** No character is a line terminator (what `.` without the `s` flag can match). */
  predicate NoLineTerminator(s: string) {
    forall i | 0 <= i < |s| :: !IsLineTerminator(s[i])
  }

  /** `/\[Link:.*?\]/` tried at the head of `s`: the length of the shortest match.  The lazy
      `.*?` stops at the first `]`; a line terminator before it means no match. */
  function LinkRefAtHead(s: string): (r: Option<nat>)
    ensures r.Some? ==> |LinkPrefix| < r.value <= |s|
  {
    if !OccursAt(s, 0, LinkPrefix) then None
    else
      var c := FirstOf(s[6..], ']');
      if 6 + c < |s| && NoLineTerminator(s[6..6 + c]) then Some(6 + c + 1) else None
  }

  /** The global replace: scanning left to right, each match is removed and the scan resumes
      after it. */
  function StripLinks(s: string): (r: string)
    decreases |s|
    ensures |r| <= |s|
  {
    if s == [] then []
    else
      match LinkRefAtHead(s)
      case Some(n) => StripLinks(s[n..])
      case None => [s[0]] + StripLinks(s[1..])
  }

  /** Text before the first `[` is kept as it is. */
  lemma {:induction false} StripPlainPrefix(a: string, b: string)
    requires '[' !in a
    ensures StripLinks(a + b) == a + StripLinks(b)
  {
    if a != [] {
      var s := a + b;
      assert s[0] == a[0] && s[1..] == a[1..] + b;
      StripPlainHead(s);
      StripPlainPrefix(a[1..], b);
      HeadThenRest(a, StripLinks(b));
    } else {
      assert a + b == b;
    }
  }

  /** A first character other than `[` starts no reference and is kept. */
  lemma StripPlainHead(s: string)
    requires s != [] && s[0] != '['
    ensures StripLinks(s) == [s[0]] + StripLinks(s[1..])
  {
    assert !OccursAt(s, 0, LinkPrefix);
  }

  lemma HeadThenRest<T>(a: seq<T>, rest: seq<T>)
    requires a != []
    ensures [a[0]] + (a[1..] + rest) == a + rest
  {
    assert a == [a[0]] + a[1..];
  }

  /** Text without `[` is left alone. */
  lemma StripLinksPlain(s: string)
    requires '[' !in s
    ensures StripLinks(s) == s
  {
    StripPlainPrefix(s, []);
    assert s + [] == s;
  }

  /** A reference on one line is removed whole, up to and including its `]`. */
  lemma StripReference(url: string, rest: string)
    requires ']' !in url && NoLineTerminator(url)
    ensures StripLinks(LinkPrefix + url + "]" + rest) == StripLinks(rest)
  {
    var s := LinkPrefix + url + "]" + rest;
    assert s[..6] == LinkPrefix;
    assert s[6..] == url + ("]" + rest);
    FirstAfterFree(url, "]" + rest, ']');
    assert s[6..6 + |url|] == url;
    assert s[6 + |url| + 1..] == rest;
  }

  /** The first `c` in `a + b`, when `a` has none and `b` starts with `c`. */
  lemma FirstAfterFree(a: string, b: string, c: char)
    requires c !in a && b != [] && b[0] == c
    ensures FirstOf(a + b, c) == |a|
  {
    var s := a + b;
    assert s[..|a|] == a;
    assert s[|a|] == c;
  }

  /** A reference that spans a line break is not a match: the `[` stays. */
  lemma BrokenReferenceKept(url: string, rest: string)
    requires ']' !in url && !NoLineTerminator(url)
    ensures StripLinks(LinkPrefix + url + "]" + rest) == ['['] + StripLinks((LinkPrefix + url + "]" + rest)[1..])
  {
    var s := LinkPrefix + url + "]" + rest;
    assert s[..6] == LinkPrefix;
    assert s[6..] == url + ("]" + rest);
    FirstAfterFree(url, "]" + rest, ']');
    assert s[6..6 + |url|] == url;
  }

  // ---------------------------------------------------------------------------
  // buildFAQSchema
  // ---------------------------------------------------------------------------

  const SchemaOrg: string := "https://schema.org"

  /** `answers[index]?.answer.replace(/\[Link:.*?\]/g, '').trim() || ''`. */
  function SchemaAnswerText(answers: seq<Answer>, index: nat): string {
    if index < |answers| then Trim(StripLinks(answers[index].answer)) else ""
  }

  function QuestionEntity(name: string, text: string): Json {
    JObj(map["@type" := JStr("Question"), "name" := JStr(name),
             "acceptedAnswer" := JObj(map["@type" := JStr("Answer"), "text" := JStr(text)])])
  }

  /** `buildFAQSchema(questions, answers)`: an FAQ page whose entities read back as one
      question/answer pair per question, in question order, each answer having its references
      removed and being trimmed, or `''` when the answer is missing. */
  function FaqSchema(questions: seq<Question>, answers: seq<Answer>): (r: Json)
    ensures Get(r, "@type") == Some(JStr("FAQPage"))
    ensures var read := ReadFaqSchema(r);
      && read.Some? && |read.value| == |questions|
      && forall i | 0 <= i < |questions| ::
           read.value[i] == (questions[i].question, SchemaAnswerText(answers, i))
  {
    var items := seq(|questions|, i requires 0 <= i < |questions| =>
                       QuestionEntity(questions[i].question, SchemaAnswerText(answers, i)));
    var pairs := seq(|questions|, i requires 0 <= i < |questions| =>
                       (questions[i].question, SchemaAnswerText(answers, i)));
    ReadEntitiesOf(items, pairs);
    JObj(map["@context" := JStr(SchemaOrg), "@type" := JStr("FAQPage"), "mainEntity" := JArr(items)])
  }

  /** What a consumer of the schema reads from one entity: its name and its answer text. */
  function ReadEntity(e: Json): Option<(string, string)> {
    match (Get(e, "name"), Get(e, "acceptedAnswer"))
    case (Some(JStr(name)), Some(acc)) =>
      (match Get(acc, "text")
       case Some(JStr(text)) => Some((name, text))
       case _ => None)
    case _ => None
  }

  function ReadEntities(items: seq<Json>): Option<seq<(string, string)>> {
    if items == [] then Some([])
    else
      match (ReadEntities(items[..|items| - 1]), ReadEntity(items[|items| - 1]))
      case (Some(init), Some(last)) => Some(init + [last])
      case _ => None
  }

  /** Reads the question/answer pairs back out of an FAQ page schema. */
  function ReadFaqSchema(j: Json): Option<seq<(string, string)>> {
    match Get(j, "mainEntity")
    case Some(JArr(items)) => ReadEntities(items)
    case _ => None
  }

  lemma {:induction false} ReadEntitiesOf(items: seq<Json>, pairs: seq<(string, string)>)
    requires |items| == |pairs|
    requires forall i | 0 <= i < |items| :: items[i] == QuestionEntity(pairs[i].0, pairs[i].1)
    ensures ReadEntities(items) == Some(pairs)
  {
    if items != [] {
      var n := |items| - 1;
      ReadEntitiesOf(items[..n], pairs[..n]);
      assert ReadEntity(items[n]) == Some(pairs[n]);
      assert pairs[..n] + [pairs[n]] == pairs;
    }
  }

  /** The schema holds exactly one entity per question, in order: the question's text and its
      answer with the references removed, trimmed, or `''` when the answer is missing. */
  /** An answer without references appears trimmed. */
  lemma SchemaTextOfPlainAnswer(answers: seq<Answer>, index: nat)
    requires index < |answers| && '[' !in answers[index].answer
    ensures SchemaAnswerText(answers, index) == Trim(answers[index].answer)
  {
    StripLinksPlain(answers[index].answer);
  }

  /** An answer `text [Link:url] more` appears without its reference. */
  lemma SchemaTextDropsReference(answers: seq<Answer>, index: nat, text: string, url: string, more: string)
    requires index < |answers| && answers[index].answer == text + LinkPrefix + url + "]" + more
    requires '[' !in text && ']' !in url && NoLineTerminator(url)
    ensures SchemaAnswerText(answers, index) == Trim(text + StripLinks(more))
  {
    var rest := LinkPrefix + url + "]" + more;
    assert answers[index].answer == text + rest;
    StripPlainPrefix(text, rest);
    StripReference(url, more);
  }

  // ---------------------------------------------------------------------------
  // buildServiceSchema, buildLocalBusinessSchema, buildOrganizationSchema
  // ---------------------------------------------------------------------------

  const BusinessName: string := "Ultimate Dumpsters"
  const Telephone: string := "(866) 858-3867"
  const PriceRange: string := "$295-$695"
  const WikidataBase: string := "https://www.wikidata.org/wiki/"
  const DefaultServiceType: string := "dumpster rental"
  const LogoUrl: string := "https://ultimatedumpsters.com/logo.png"
  const Description: string :=
    "Professional dumpster rental service serving customers nationwide with 15+ years of experience."
  const Facebook: string := "https://www.facebook.com/ultimatedumpsters"
  const LinkedIn: string := "https://www.linkedin.com/company/ultimatedumpsters"

  /** One offer of the catalogue: a container size and its price band in dollars. */
  datatype Offer = Offer(yards: nat, low: nat, high: nat)

  const Offers: seq<Offer> :=
    [Offer(10, 295, 395), Offer(20, 395, 495), Offer(30, 495, 595), Offer(40, 595, 695)]

  function OfferJson(o: Offer): Json {
    JObj(map["@type" := JStr("Offer"),
             "itemOffered" := JObj(map["@type" := JStr("Service"),
                                       "name" := JStr(NatToString(o.yards) + " Yard Dumpster Rental")]),
             "priceSpecification" := JObj(map["@type" := JStr("PriceSpecification"),
                                              "price" := JStr(NatToString(o.low) + "-" + NatToString(o.high)),
                                              "priceCurrency" := JStr("USD")])])
  }

  /** The four offers go up in steps of 10 yards, and their price bands are 100 dollars wide and
      follow one another without gap from 295 to 695, the business's advertised range. */
  lemma OfferBands()
    ensures |Offers| == 4
    ensures forall k | 0 <= k < 4 :: Offers[k].yards == 10 * (k + 1) && Offers[k].high == Offers[k].low + 100
    ensures forall k | 0 < k < 4 :: Offers[k].low == Offers[k - 1].high
    ensures Offers[0].low == 295 && Offers[3].high == 695
  {
  }

  /** `${cityData.wikidata_id || ''}`: an absent id gives the bare prefix. */
  function WikidataUrl(city: City): string {
    WikidataBase + city.wikidataId.GetOr("")
  }

  function AreaServed(city: City): Json {
    JObj(map["@type" := JStr("City"), "name" := JStr(city.name), "@id" := JStr(WikidataUrl(city))])
  }

  function Provider(): Json {
    JObj(map["@type" := JStr("LocalBusiness"), "name" := JStr(BusinessName),
             "telephone" := JStr(Telephone), "priceRange" := JStr(PriceRange)])
  }

  /** `buildServiceSchema(cityData, serviceType = 'dumpster rental')`; `None` is the omitted
      argument. */
  function ServiceSchema(city: City, serviceType: Option<string>): (r: Json)
    ensures Get(r, "serviceType")
         == Some(JStr((if serviceType.Some? then serviceType.value else DefaultServiceType) + " service"))
    ensures var provider := Get(r, "provider");
      && provider.Some? && Get(provider.value, "name") == Some(JStr(BusinessName))
      && Get(provider.value, "telephone") == Some(JStr(Telephone))
    ensures Get(r, "areaServed") == Some(AreaServed(city))
    ensures var catalog := Get(r, "hasOfferCatalog");
      && catalog.Some?
      && var list := Get(catalog.value, "itemListElement");
      && list.Some? && list.value.JArr? && |list.value.items| == |Offers|
      && forall k | 0 <= k < |Offers| :: list.value.items[k] == OfferJson(Offers[k])
  {
    var items := seq(|Offers|, k requires 0 <= k < |Offers| => OfferJson(Offers[k]));
    JObj(map["@context" := JStr(SchemaOrg), "@type" := JStr("Service"),
             "serviceType" := JStr(serviceType.GetOr(DefaultServiceType) + " service"),
             "provider" := Provider(),
             "areaServed" := AreaServed(city),
             "hasOfferCatalog" := JObj(map["@type" := JStr("OfferCatalog"),
                                           "name" := JStr("Dumpster Rental Services"),
                                           "itemListElement" := JArr(items)])])
  }

  /** `buildLocalBusinessSchema(cityData)`: the business, with the city's name and state code
      as its address and the city's coordinates passed through as stored. */
  function LocalBusinessSchema(city: City): (r: Json)
    ensures Get(r, "name") == Some(JStr(BusinessName)) && Get(r, "telephone") == Some(JStr(Telephone))
    ensures Get(r, "areaServed") == Some(AreaServed(city))
    ensures var geo := Get(r, "geo");
      && geo.Some? && Get(geo.value, "latitude") == Some(city.latitude)
      && Get(geo.value, "longitude") == Some(city.longitude)
    ensures var address := Get(r, "address");
      && address.Some? && Get(address.value, "addressLocality") == Some(JStr(city.name))
      && Get(address.value, "addressRegion") == Some(JStr(city.stateCode))
  {
    JObj(map["@context" := JStr(SchemaOrg), "@type" := JStr("LocalBusiness"),
             "@id" := JStr("https://ultimatedumpsters.com/#organization"),
             "name" := JStr(BusinessName), "image" := JStr(LogoUrl),
             "telephone" := JStr(Telephone), "priceRange" := JStr(PriceRange),
             "address" := JObj(map["@type" := JStr("PostalAddress"), "addressLocality" := JStr(city.name),
                                   "addressRegion" := JStr(city.stateCode), "addressCountry" := JStr("US")]),
             "geo" := JObj(map["@type" := JStr("GeoCoordinates"), "latitude" := city.latitude,
                               "longitude" := city.longitude]),
             "aggregateRating" := JObj(map["@type" := JStr("AggregateRating"), "ratingValue" := JStr("4.9"),
                                           "reviewCount" := JStr("1200"), "bestRating" := JStr("5"),
                                           "worstRating" := JStr("1")]),
             "areaServed" := AreaServed(city),
             "openingHours" := JStr("Mo-Su 06:00-22:00")])
  }

  /** `buildOrganizationSchema()`. */
  function OrganizationSchema(): (r: Json)
    ensures Get(r, "name") == Some(JStr(BusinessName)) && Get(r, "telephone") == Some(JStr(Telephone))
  {
    JObj(map["@context" := JStr(SchemaOrg), "@type" := JStr("Organization"),
             "name" := JStr(BusinessName), "url" := JStr("https://ultimatedumpsters.com"),
             "logo" := JStr(LogoUrl), "telephone" := JStr(Telephone),
             "foundingDate" := JStr("2009"),
             "description" := JStr(Description),
             "sameAs" := JArr([JStr(Facebook), JStr(LinkedIn)])])
  }

  /** The three business schemas name the same business with the same telephone number, and
      the service and local business schemas serve the same area, the city's. */
  lemma SchemasNameOneBusiness(city: City, serviceType: Option<string>)
    ensures var provider := Get(ServiceSchema(city, serviceType), "provider").value;
      && Get(provider, "name") == Get(LocalBusinessSchema(city), "name") == Get(OrganizationSchema(), "name")
      && Get(provider, "telephone") == Get(LocalBusinessSchema(city), "telephone")
         == Get(OrganizationSchema(), "telephone")
    ensures Get(ServiceSchema(city, serviceType), "areaServed") == Get(LocalBusinessSchema(city), "areaServed")
  {
  }
}
