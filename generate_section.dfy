/**
 * The section route: one section of a main or neighbourhood page is written by the language
 * model, its JSON object is cut out of the reply, and the object is stored in the job's
 * `results_json` under `sections[pageKey][section]`.  The prompt prose is not modelled; the model
 * is a function of what the prompt is built from and of the token budget.
 */
module SectionRoute {
  import opened Wrappers
  import opened Text
  import opened Json
  import opened Records
  import opened Tables
  import opened ContentGenerator

  datatype SectionRequest = SectionRequest(
    cityId: string,
    pageType: string,
    section: string,
    neighborhoodName: Option<string>,
    jobId: nat)

  /** What the prompt of a section is built from; `neighborhood` is `None` for the main page. */
  datatype SectionPrompt = SectionPrompt(section: string, cityName: string, state: string, neighborhood: Option<string>)

  /** The language model: the reply's content blocks for a prompt and a token budget, or the error. */
  type SectionModel = (SectionPrompt, nat) -> Result<seq<ContentBlock>, string>

  /** The reply of a stored section: the section key and the word count reported. */
  datatype SectionOk = SectionOk(section: string, wordCount: Json)

  // ---------------------------------------------------------------------------
  // The section switches and their token budgets
  // ---------------------------------------------------------------------------

  const MainSections: seq<string> :=
    ["hero_services", "areas_whychoose", "pricing_process", "faqs_part1", "faqs_part2", "testimonials_cta"]
  const NeighborhoodSections: seq<string> := ["intro_projects", "service_details", "faqs_cta"]

  /** `maxTokens` of a main-page section, `None` where the switch throws `'Invalid section'`. */
  function MainTokens(section: string): (r: Option<nat>)
    ensures r.Some? <==> section in MainSections
    ensures r.Some? ==> 1500 <= r.value <= 3000
  {
    if section == "hero_services" then Some(3000)
    else if section == "areas_whychoose" then Some(2500)
    else if section == "pricing_process" then Some(2000)
    else if section == "faqs_part1" then Some(2500)
    else if section == "faqs_part2" then Some(2500)
    else if section == "testimonials_cta" then Some(1500)
    else None
  }

  /** `maxTokens` of a neighbourhood-page section, `None` where the switch throws. */
  function NeighborhoodTokens(section: string): (r: Option<nat>)
    ensures r.Some? <==> section in NeighborhoodSections
    ensures r.Some? ==> 1500 <= r.value <= 2000
  {
    if section == "intro_projects" then Some(2000)
    else if section == "service_details" then Some(1500)
    else if section == "faqs_cta" then Some(2000)
    else None
  }

  /** The budget of a section of the main page (`None`) or of a neighbourhood page. */
  function Tokens(neighborhood: Option<string>, section: string): Option<nat> {
    if neighborhood.None? then MainTokens(section) else NeighborhoodTokens(section)
  }

  /** The two switches share no key: a section name belongs to one kind of page. */
  lemma SectionKindsDisjoint(section: string)
    ensures !(MainTokens(section).Some? && NeighborhoodTokens(section).Some?)
  {
  }

  // ---------------------------------------------------------------------------
  // generateMainSection / generateNeighborhoodSection
  // ---------------------------------------------------------------------------

  /** Asking for one section: the parsed object, or the message of the error thrown. */
  function GenerateSection(model: SectionModel, parse: Parser, city: City, neighborhood: Option<string>,
                           section: string): Result<map<string, Json>, string>
  {
    var tokens :- if Tokens(neighborhood, section).Some? then Success(Tokens(neighborhood, section).value)
                  else Failure("Invalid section");
    var blocks :- model(SectionPrompt(section, city.name, city.stateCode, neighborhood), tokens);
    var text :- ReplyText(blocks);
    var span :- if BraceSpan(text).Some? then Success(BraceSpan(text).value) else Failure("No JSON in response");
    parse(span)
  }

  /** An unknown section key throws before the model is asked. */
  lemma UnknownSectionThrows(model: SectionModel, parse: Parser, city: City, neighborhood: Option<string>,
                             section: string)
    requires Tokens(neighborhood, section).None?
    ensures GenerateSection(model, parse, city, neighborhood, section) == Failure("Invalid section")
  {
  }

  /** The object parsed is the greedy `{`...`}` span of the reply text; a reply with no `{` before a
      `}` throws `'No JSON in response'` and nothing is parsed. */
  lemma GeneratedFromSpan(model: SectionModel, parse: Parser, city: City, neighborhood: Option<string>,
                          section: string, text: string)
    requires Tokens(neighborhood, section).Some?
    requires model(SectionPrompt(section, city.name, city.stateCode, neighborhood), Tokens(neighborhood, section).value)
             == Success([TextBlock(text)])
    ensures !HasBraceSpan(text) ==>
      GenerateSection(model, parse, city, neighborhood, section) == Failure("No JSON in response")
    ensures HasBraceSpan(text) ==>
      GenerateSection(model, parse, city, neighborhood, section) == parse(BraceSpan(text).value)
  {
  }

  // ---------------------------------------------------------------------------
  // Storing a section
  // ---------------------------------------------------------------------------

  /** The key of the page a section belongs to. */
  function PageKey(pageType: string, neighborhoodName: string): (k: string)
    ensures pageType == "main" ==> k == "main"
    ensures pageType != "main" ==> |k| >= 13 && k[..13] == "neighborhood_" && k[13..] == neighborhoodName
  {
    if pageType == "main" then "main" else "neighborhood_" + neighborhoodName
  }

  /** Sections of different pages never share a key: the main key is no neighbourhood key and two
      neighbourhoods share a key only when they share a name. */
  lemma PageKeysDistinct(a: string, b: string)
    ensures PageKey("main", a) != PageKey("neighborhood", b)
    ensures PageKey("neighborhood", a) == PageKey("neighborhood", b) <==> a == b
  {
    var ka, kb := PageKey("neighborhood", a), PageKey("neighborhood", b);
    if ka == kb {
      assert a == ka[13..] == kb[13..] == b;
    }
    assert PageKey("main", a) == "main";
    assert |kb| >= 13;
  }

  const EmptySections: Json := JObj(map["sections" := JObj(map[])])

  /** `job?.results_json || { sections: {} }`. */
  function ResultsOrDefault(stored: Option<Json>): (r: Json)
    ensures stored.Some? && Truthy(stored.value) ==> r == stored.value
    ensures !(stored.Some? && Truthy(stored.value)) ==> r == EmptySections
  {
    if stored.Some? && Truthy(stored.value) then stored.value else EmptySections
  }

  /** The name of a value's type, as the errors about it give it. */
  function TypeName(j: Json): string {
    match j
    case JNull => "null"
    case JBool(_) => "boolean"
    case JNum(_) => "number"
    case JStr(_) => "string"
    case JArr(_) => "array"
    case JObj(_) => "object"
  }

  function CannotRead(key: string, on: string): string {
    "Cannot read properties of " + on + " (reading '" + key + "')"
  }

  function CannotCreate(key: string, on: Json): string {
    "Cannot create property '" + key + "' on " + TypeName(on)
  }

  /** The page's map after `if (!sections[pageKey]) sections[pageKey] = {}`. */
  function PageEntry(sections: map<string, Json>, pageKey: string): (r: Json)
    ensures pageKey in sections && Truthy(sections[pageKey]) ==> r == sections[pageKey]
    ensures !(pageKey in sections && Truthy(sections[pageKey])) ==> r == JObj(map[])
  {
    if pageKey in sections && Truthy(sections[pageKey]) then sections[pageKey] else JObj(map[])
  }

  /** `results.sections[pageKey][section] = content` on a JSON value in strict mode, then written
      back as JSON: the payload stored, or the `TypeError` thrown.  A property set on an array is
      not part of its JSON, so such a write leaves the payload as it was. */
  function StoreSection(results: Json, pageKey: string, section: string, content: Json): Result<Json, string> {
    match results
    case JNull => Failure(CannotRead("sections", "null"))
    case JObj(fields) =>
      if "sections" !in fields then Failure(CannotRead(pageKey, "undefined"))
      else
        (match fields["sections"]
        case JNull => Failure(CannotRead(pageKey, "null"))
        case JArr(_) => Success(results)
        case JObj(sections) =>
          var page := PageEntry(sections, pageKey);
          (match page
           case JObj(entries) =>
             Success(JObj(fields["sections" := JObj(sections[pageKey := JObj(entries[section := content])])]))
           case JArr(_) => Success(results)
           case _ => Failure(CannotCreate(section, page)))
        case other => Failure(CannotCreate(pageKey, other)))
    case _ => Failure(CannotRead(pageKey, "undefined"))
  }

  /** Lines 65-72 of the route, step by step: the page map is created when missing or falsy, then
      the section is assigned in it. */
  method SetSection(results: Json, pageKey: string, section: string, content: Json) returns (r: Result<Json, string>)
    ensures r == StoreSection(results, pageKey, section, content)
  {
    if results.JNull? {
      return Failure(CannotRead("sections", "null"));
    }
    if !results.JObj? || "sections" !in results.fields {
      return Failure(CannotRead(pageKey, "undefined"));
    }
    var fields := results.fields;
    var sections := fields["sections"];
    if sections.JNull? {
      return Failure(CannotRead(pageKey, "null"));
    }
    if sections.JArr? {
      return Success(results);
    }
    if !sections.JObj? {
      return Failure(CannotCreate(pageKey, sections));
    }
    var pages := sections.fields;
    if !(pageKey in pages && Truthy(pages[pageKey])) {
      pages := pages[pageKey := JObj(map[])];
    }
    var page := pages[pageKey];
    assert page == PageEntry(sections.fields, pageKey);
    if page.JArr? {
      return Success(results);
    }
    if !page.JObj? {
      return Failure(CannotCreate(section, page));
    }
    pages := pages[pageKey := JObj(page.fields[section := content])];
    assert pages == sections.fields[pageKey := JObj(page.fields[section := content])];
    r := Success(JObj(fields["sections" := JObj(pages)]));
  }

  /** `results.sections`, when it is an object. */
  function SectionsOf(results: Json): Option<map<string, Json>> {
    if results.JObj? && "sections" in results.fields && results.fields["sections"].JObj?
    then Some(results.fields["sections"].fields) else None
  }

  /** Where the payload has a `sections` object whose entry for the page is missing, falsy or an
      object, the section is stored under `[pageKey][section]` and everything else is kept: the
      other top-level fields, the other pages and the other sections of the same page. */
  lemma StoresOnlyThatSection(results: Json, pageKey: string, section: string, content: Json)
    requires SectionsOf(results).Some?
    requires PageEntry(SectionsOf(results).value, pageKey).JObj?
    ensures StoreSection(results, pageKey, section, content).Success?
    ensures var r := StoreSection(results, pageKey, section, content).value;
      && r.JObj? && r.fields.Keys == results.fields.Keys
      && (forall key | key in r.fields && key != "sections" :: r.fields[key] == results.fields[key])
      && SectionsOf(r).Some?
      && var before, after := SectionsOf(results).value, SectionsOf(r).value;
      && after.Keys == before.Keys + {pageKey}
      && (forall k | k in after && k != pageKey :: after[k] == before[k])
      && after[pageKey] == JObj(PageEntry(before, pageKey).fields[section := content])
  {
  }

  /** Storing a section twice keeps only the second content: regenerating overwrites. */
  lemma RegenerateOverwrites(results: Json, pageKey: string, section: string, first: Json, second: Json)
    requires StoreSection(results, pageKey, section, first).Success?
    ensures StoreSection(StoreSection(results, pageKey, section, first).value, pageKey, section, second)
         == StoreSection(results, pageKey, section, second)
  {
    var fields := results.fields;
    var sections := fields["sections"];
    if sections.JObj? {
      var page := PageEntry(sections.fields, pageKey);
      if page.JObj? {
        var r1 := StoreSection(results, pageKey, section, first).value;
        var inner := JObj(page.fields[section := first]);
        assert r1 == JObj(fields["sections" := JObj(sections.fields[pageKey := inner])]);
        assert PageEntry(r1.fields["sections"].fields, pageKey) == inner;
        assert inner.fields[section := second] == page.fields[section := second];
        assert sections.fields[pageKey := inner][pageKey := JObj(page.fields[section := second])]
            == sections.fields[pageKey := JObj(page.fields[section := second])];
        var last := JObj(sections.fields[pageKey := JObj(page.fields[section := second])]);
        assert fields["sections" := JObj(sections.fields[pageKey := inner])]["sections" := last]
            == fields["sections" := last];
      } else {
        assert page.JArr?;
      }
    }
  }

  /** A job without a payload gets the default one, which then holds just this section. */
  lemma DefaultHoldsOnlyTheSection(pageKey: string, section: string, content: Json)
    ensures StoreSection(ResultsOrDefault(None), pageKey, section, content)
         == Success(JObj(map["sections" := JObj(map[pageKey := JObj(map[section := content])])]))
  {
    var page := JObj(map[pageKey := JObj(map[section := content])]);
    assert map["sections" := JObj(map[])]["sections" := page] == map["sections" := page];
  }

  /** A payload that is an object without `sections`, such as the one the research route creates,
      makes the store step throw: the default applies only when there is no payload at all. */
  lemma NoSectionsThrows(stored: Json, pageKey: string, section: string, content: Json)
    requires stored.JObj? && "sections" !in stored.fields
    ensures ResultsOrDefault(Some(stored)) == stored
    ensures StoreSection(ResultsOrDefault(Some(stored)), pageKey, section, content).Failure?
  {
  }

  // ---------------------------------------------------------------------------
  // POST
  // ---------------------------------------------------------------------------

  /** The neighbourhood of a request whose page type the route accepts: `None` for `'main'`,
      the name for `'neighborhood'` with a non-empty name; `Failure` for the 400 reply. */
  function PageOf(req: SectionRequest): (r: Result<Option<string>, HttpError>)
    ensures r.Success? && r.value.None? <==> req.pageType == "main"
    ensures r.Success? && r.value.Some? <==>
      req.pageType == "neighborhood" && req.neighborhoodName.Some? && req.neighborhoodName.value != ""
    ensures r.Success? && r.value.Some? ==> r.value == req.neighborhoodName
    ensures r.Failure? ==> r.error == HttpError(400, "Invalid request")
  {
    if req.pageType == "main" then Success(None)
    else if req.pageType == "neighborhood" && req.neighborhoodName.Some? && req.neighborhoodName.value != ""
    then Success(req.neighborhoodName)
    else Failure(HttpError(400, "Invalid request"))
  }

  /** `content.wordCount || 0`. */
  function WordCountOf(content: map<string, Json>): (r: Json)
    ensures "wordCount" in content && Truthy(content["wordCount"]) ==> r == content["wordCount"]
    ensures !("wordCount" in content && Truthy(content["wordCount"])) ==> r == JNum(0)
  {
    OrElse(Get(JObj(content), "wordCount"), JNum(0))
  }

  /** The reply of the route and the jobs afterwards, given the tables before.  Only an unknown
      city is a 404 and only a bad page type a 400; every failure leaves the jobs alone; a
      success names the requested section and rewrites at most the request's job. */
  function SectionPost(cities: map<string, City>, jobs: seq<Job>, model: SectionModel, parse: Parser,
                       req: SectionRequest): (r: (Result<SectionOk, HttpError>, seq<Job>))
    ensures r.0 == Failure(HttpError(404, "City not found")) <==> req.cityId !in cities
    ensures r.0 == Failure(HttpError(400, "Invalid request")) <==> req.cityId in cities && PageOf(req).Failure?
    ensures r.0.Failure? ==> r.1 == jobs
    ensures r.0.Success? ==>
      && req.cityId in cities && PageOf(req).Success? && r.0.value.section == req.section
      && |r.1| == |jobs| && forall i | 0 <= i < |jobs| && i != req.jobId :: r.1[i] == jobs[i]
  {
    if req.cityId !in cities then (Failure(HttpError(404, "City not found")), jobs)
    else
      var city := cities[req.cityId];
      match PageOf(req)
      case Failure(e) => (Failure(e), jobs)
      case Success(neighborhood) =>
        match GenerateSection(model, parse, city, neighborhood, req.section)
        case Failure(e) => (Failure(HttpError(500, e)), jobs)
        case Success(content) =>
          var results := ResultsOrDefault(StoredResults(jobs, req.jobId));
          var key := PageKey(req.pageType, req.neighborhoodName.GetOr(""));
          match StoreSection(results, key, req.section, JObj(content))
          case Failure(e) => (Failure(HttpError(500, e)), jobs)
          case Success(r) => (Success(SectionOk(req.section, WordCountOf(content))), WithResults(jobs, req.jobId, r))
  }

  /** An unknown city is a 404 and a bad page type a 400; neither asks the model nor writes. */
  lemma RejectedBeforeGeneration(cities: map<string, City>, jobs: seq<Job>, model: SectionModel, parse: Parser,
                                 other: SectionModel, otherParse: Parser, req: SectionRequest)
    requires req.cityId !in cities || PageOf(req).Failure?
    ensures SectionPost(cities, jobs, model, parse, req) == SectionPost(cities, jobs, other, otherParse, req)
    ensures req.cityId !in cities ==> SectionPost(cities, jobs, model, parse, req).0 == Failure(HttpError(404, "City not found"))
    ensures req.cityId in cities ==> SectionPost(cities, jobs, model, parse, req).0 == Failure(HttpError(400, "Invalid request"))
    ensures SectionPost(cities, jobs, model, parse, req).1 == jobs
  {
  }

  /** A section key the page's switch does not know is a 500 with `'Invalid section'`. */
  lemma InvalidSectionIs500(cities: map<string, City>, jobs: seq<Job>, model: SectionModel, parse: Parser,
                            req: SectionRequest)
    requires req.cityId in cities && PageOf(req).Success?
    requires Tokens(PageOf(req).value, req.section).None?
    ensures SectionPost(cities, jobs, model, parse, req) == (Failure(HttpError(500, "Invalid section")), jobs)
  {
    UnknownSectionThrows(model, parse, cities[req.cityId], PageOf(req).value, req.section);
  }

  /** A successful reply means the job (if it exists) now holds the payload with the section
      stored, and no other job changed. */
  lemma SuccessStoresSection(cities: map<string, City>, jobs: seq<Job>, model: SectionModel, parse: Parser,
                             req: SectionRequest)
    requires SectionPost(cities, jobs, model, parse, req).0.Success?
    ensures var city := cities[req.cityId];
      var content := GenerateSection(model, parse, city, PageOf(req).value, req.section).value;
      var r := StoreSection(ResultsOrDefault(StoredResults(jobs, req.jobId)),
                            PageKey(req.pageType, req.neighborhoodName.GetOr("")), req.section, JObj(content));
      && r.Success?
      && SectionPost(cities, jobs, model, parse, req) ==
           (Success(SectionOk(req.section, WordCountOf(content))), WithResults(jobs, req.jobId, r.value))
  {
  }

  /** The route run against the tables: the same steps in the same order. */
  method PostSection(store: Store, model: SectionModel, parse: Parser, req: SectionRequest)
    returns (reply: Result<SectionOk, HttpError>)
    requires store.Valid()
    modifies store
    ensures store.Valid()
    ensures (reply, store.jobs) == SectionPost(old(store.cities), old(store.jobs), model, parse, req)
    ensures store.cities == old(store.cities)
  {
    var city := store.FindCity(req.cityId);
    if city.None? {
      return Failure(HttpError(404, "City not found"));
    }
    var neighborhood := PageOf(req);
    if neighborhood.Failure? {
      return Failure(neighborhood.error);
    }
    var content := GenerateSection(model, parse, city.value, neighborhood.value, req.section);
    if content.Failure? {
      return Failure(HttpError(500, content.error));
    }
    var stored := store.FindResults(req.jobId);
    var results := ResultsOrDefault(stored);
    var pageKey := PageKey(req.pageType, req.neighborhoodName.GetOr(""));
    var updated := SetSection(results, pageKey, req.section, JObj(content.value));
    if updated.Failure? {
      return Failure(HttpError(500, updated.error));
    }
    store.UpdateResults(req.jobId, updated.value);
    reply := Success(SectionOk(req.section, WordCountOf(content.value)));
  }
}
