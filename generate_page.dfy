/**
 * The page route: a whole main or neighbourhood page is written by the language model in one
 * request, its JSON object is cut out of the reply, and an entry for it is appended to the `pages`
 * list of the job's `results_json`.  The prompt prose is not modelled.
 */
module PageRoute {
  import opened Wrappers
  import opened Text
  import opened Json
  import opened Records
  import opened Tables
  import opened ContentGenerator

  datatype PageRequest = PageRequest(cityId: string, pageType: string, neighborhoodName: Option<string>, jobId: nat)

  /** What the prompt of a page is built from; `neighborhood` is `None` for the main page. */
  datatype PagePrompt = PagePrompt(cityName: string, state: string, neighborhood: Option<string>)

  /** The language model: the reply's content blocks for a prompt and a token budget, or the error. */
  type PageModel = (PagePrompt, nat) -> Result<seq<ContentBlock>, string>

  /** The reply of a stored page: its title and the page type of the request. */
  datatype PageOk = PageOk(pageTitle: string, pageType: string)

  const TitleOpen: string := "Dumpster Rental in "

  /** `max_tokens` of the main page's request and of a neighbourhood page's. */
  const MainPageTokens: nat := 8000
  const NeighborhoodPageTokens: nat := 4000

  /** The page title: `Dumpster Rental in <city>, <state>` for the main page and
      `Dumpster Rental in <neighbourhood>, <city>` for a neighbourhood page. */
  function PageTitle(city: City, neighborhood: Option<string>): (t: string)
    ensures var (place, region) := if neighborhood.None? then (city.name, city.stateCode)
                                   else (neighborhood.value, city.name);
      && |t| == |TitleOpen| + |place| + 2 + |region|
      && t[..|TitleOpen|] == TitleOpen
      && t[|TitleOpen|..|TitleOpen| + |place|] == place
      && t[|t| - |region| - 2..] == ", " + region
  {
    var (place, region) := if neighborhood.None? then (city.name, city.stateCode) else (neighborhood.value, city.name);
    TitleParts(TitleOpen, place, region);
    TitleOpen + place + ", " + region
  }

  /** Where the three parts of a title sit in it. */
  lemma TitleParts(open: string, place: string, region: string)
    ensures var t := open + place + ", " + region;
      && |t| == |open| + |place| + 2 + |region|
      && t[..|open|] == open
      && t[|open|..|open| + |place|] == place
      && t[|t| - |region| - 2..] == ", " + region
  {
    var t := open + place + ", " + region;
    assert t == open + (place + (", " + region));
  }

  /** Two neighbourhood pages of a city get the same title only when they have the same name. */
  lemma NeighborhoodTitlesDistinct(city: City, a: string, b: string)
    ensures PageTitle(city, Some(a)) == PageTitle(city, Some(b)) ==> a == b
  {
    var ta, tb := PageTitle(city, Some(a)), PageTitle(city, Some(b));
    var tail := ", " + city.name;
    if ta == tb {
      assert |a| == |b|;
      assert a == ta[|TitleOpen|..|ta| - |tail|] == tb[|TitleOpen|..|tb| - |tail|] == b;
    }
  }

  /** Asking for one page: the parsed object, or the message of the error thrown. */
  function GeneratePage(model: PageModel, parse: Parser, city: City, neighborhood: Option<string>)
    : Result<map<string, Json>, string>
  {
    var tokens := if neighborhood.None? then MainPageTokens else NeighborhoodPageTokens;
    var blocks :- model(PagePrompt(city.name, city.stateCode, neighborhood), tokens);
    var text :- ReplyText(blocks);
    if BraceSpan(text).Some? then parse(BraceSpan(text).value) else Failure("Failed to parse AI response")
  }

  /** The main page is asked for with 8000 tokens and a neighbourhood page with 4000; the object
      parsed is the greedy `{`...`}` span of the reply, and a reply without one throws. */
  lemma GeneratedFromSpan(model: PageModel, parse: Parser, city: City, neighborhood: Option<string>, text: string)
    requires model(PagePrompt(city.name, city.stateCode, neighborhood),
                   if neighborhood.None? then 8000 else 4000) == Success([TextBlock(text)])
    ensures !HasBraceSpan(text) ==> GeneratePage(model, parse, city, neighborhood) == Failure("Failed to parse AI response")
    ensures HasBraceSpan(text) ==> GeneratePage(model, parse, city, neighborhood) == parse(BraceSpan(text).value)
  {
  }

  // ---------------------------------------------------------------------------
  // Appending to `pages`
  // ---------------------------------------------------------------------------

  const EmptyPages: Json := JObj(map["pages" := JArr([])])

  /** `job?.results_json || { pages: [] }`. */
  function ResultsOrDefault(stored: Option<Json>): (r: Json)
    ensures stored.Some? && Truthy(stored.value) ==> r == stored.value
    ensures !(stored.Some? && Truthy(stored.value)) ==> r == EmptyPages
  {
    if stored.Some? && Truthy(stored.value) then stored.value else EmptyPages
  }

  /** The entry pushed for a page; an absent `neighborhoodName` is left out of the JSON. */
  function Entry(pageType: string, neighborhoodName: Option<string>, title: string, content: map<string, Json>,
                 generatedAt: string): (e: Json)
    ensures e.JObj? && e.fields.Keys == {"type", "title", "content", "generatedAt"} +
      (if neighborhoodName.Some? then {"neighborhoodName"} else {})
    ensures e.fields["type"] == JStr(pageType) && e.fields["title"] == JStr(title)
    ensures e.fields["content"] == JObj(content) && e.fields["generatedAt"] == JStr(generatedAt)
    ensures neighborhoodName.Some? ==> e.fields["neighborhoodName"] == JStr(neighborhoodName.value)
  {
    var base := map["type" := JStr(pageType), "title" := JStr(title), "content" := JObj(content),
                    "generatedAt" := JStr(generatedAt)];
    JObj(if neighborhoodName.Some? then base["neighborhoodName" := JStr(neighborhoodName.value)] else base)
  }

  /** The `TypeError`s of the push. */
  const NullResults: string := "Cannot read properties of null (reading 'pages')"
  const NoPages: string := "Cannot read properties of undefined (reading 'push')"
  const NullPages: string := "Cannot read properties of null (reading 'push')"
  const PagesNotList: string := "existingResults.pages.push is not a function"

  /** `results.pages.push(entry)` on a JSON value: the payload stored, or the `TypeError` thrown. */
  function AppendPage(results: Json, entry: Json): Result<Json, string> {
    match results
    case JNull => Failure(NullResults)
    case JObj(fields) =>
      if "pages" !in fields then Failure(NoPages)
      else
        (match fields["pages"]
         case JArr(items) => Success(JObj(fields["pages" := JArr(items + [entry])]))
         case JNull => Failure(NullPages)
         case _ => Failure(PagesNotList))
    case _ => Failure(NoPages)
  }

  /** The append succeeds exactly on an object whose `pages` is a list; it then adds the entry at
      the end, keeps the earlier entries in order and leaves every other field alone. */
  lemma AppendsOneEntry(results: Json, entry: Json)
    ensures AppendPage(results, entry).Success? <==>
      results.JObj? && "pages" in results.fields && results.fields["pages"].JArr?
    ensures AppendPage(results, entry).Success? ==>
      var r := AppendPage(results, entry).value;
      var before := results.fields["pages"].items;
      && r.JObj? && r.fields.Keys == results.fields.Keys
      && (forall k | k in r.fields && k != "pages" :: r.fields[k] == results.fields[k])
      && r.fields["pages"].JArr?
      && var after := r.fields["pages"].items;
      && |after| == |before| + 1 && after[..|before|] == before && after[|before|] == entry
  {
    if AppendPage(results, entry).Success? {
      var before := results.fields["pages"].items;
      assert (before + [entry])[..|before|] == before;
    }
  }

  /** A job without a payload gets the default one, which then lists just this page. */
  lemma DefaultListsOnlyThePage(entry: Json)
    ensures AppendPage(ResultsOrDefault(None), entry) == Success(JObj(map["pages" := JArr([entry])]))
  {
    var none: seq<Json> := [];
    assert none + [entry] == [entry];
    assert map["pages" := JArr(none)]["pages" := JArr([entry])] == map["pages" := JArr([entry])];
  }

  // ---------------------------------------------------------------------------
  // POST
  // ---------------------------------------------------------------------------

  /** The neighbourhood of a request whose page type the route accepts: `None` for `'main'`,
      the name for `'neighborhood'` with a non-empty name; `Failure` for the 400 reply. */
  function PageOf(req: PageRequest): (r: Result<Option<string>, HttpError>)
    ensures r.Success? && r.value.None? <==> req.pageType == "main"
    ensures r.Success? && r.value.Some? <==>
      req.pageType == "neighborhood" && req.neighborhoodName.Some? && req.neighborhoodName.value != ""
    ensures r.Success? && r.value.Some? ==> r.value == req.neighborhoodName
    ensures r.Failure? ==> r.error == HttpError(400, "Invalid page type")
  {
    if req.pageType == "main" then Success(None)
    else if req.pageType == "neighborhood" && req.neighborhoodName.Some? && req.neighborhoodName.value != ""
    then Success(req.neighborhoodName)
    else Failure(HttpError(400, "Invalid page type"))
  }

  const FailedToGenerate: string := "Failed to generate page"

  /** The 500 reply of the `catch`: the error's message, or the route's default for an empty one. */
  function ServerError(message: string): (e: HttpError)
    ensures e.status == 500 && e.error != []
    ensures message != [] ==> e.error == message
  {
    HttpError(500, if message == "" then FailedToGenerate else message)
  }

  /** The reply of the route and the jobs afterwards, given the tables before and the clock.
      Only an unknown city is a 404 and only a bad page type a 400; every failure leaves the
      jobs alone and carries a message; a success reports the page's title and type and rewrites
      at most the request's job. */
  function PagePost(cities: map<string, City>, jobs: seq<Job>, model: PageModel, parse: Parser, now: string,
                    req: PageRequest): (r: (Result<PageOk, HttpError>, seq<Job>))
    ensures r.0 == Failure(HttpError(404, "City not found")) <==> req.cityId !in cities
    ensures r.0 == Failure(HttpError(400, "Invalid page type")) <==> req.cityId in cities && PageOf(req).Failure?
    ensures r.0.Failure? ==> r.1 == jobs && r.0.error.error != []
    ensures r.0.Success? ==>
      && req.cityId in cities && PageOf(req).Success?
      && r.0.value == PageOk(PageTitle(cities[req.cityId], PageOf(req).value), req.pageType)
      && |r.1| == |jobs| && forall i | 0 <= i < |jobs| && i != req.jobId :: r.1[i] == jobs[i]
  {
    if req.cityId !in cities then (Failure(HttpError(404, "City not found")), jobs)
    else
      var city := cities[req.cityId];
      match PageOf(req)
      case Failure(e) => (Failure(e), jobs)
      case Success(neighborhood) =>
        var title := PageTitle(city, neighborhood);
        match GeneratePage(model, parse, city, neighborhood)
        case Failure(e) => (Failure(ServerError(e)), jobs)
        case Success(content) =>
          var entry := Entry(req.pageType, req.neighborhoodName, title, content, now);
          match AppendPage(ResultsOrDefault(StoredResults(jobs, req.jobId)), entry)
          case Failure(e) => (Failure(ServerError(e)), jobs)
          case Success(r) => (Success(PageOk(title, req.pageType)), WithResults(jobs, req.jobId, r))
  }

  /** An unknown city is a 404 and any page type but `'main'` or a named `'neighborhood'` a 400;
      neither asks the model nor writes. */
  lemma RejectedBeforeGeneration(cities: map<string, City>, jobs: seq<Job>, model: PageModel, parse: Parser,
                                 other: PageModel, otherParse: Parser, now: string, req: PageRequest)
    requires req.cityId !in cities || PageOf(req).Failure?
    ensures PagePost(cities, jobs, model, parse, now, req) == PagePost(cities, jobs, other, otherParse, now, req)
    ensures req.cityId !in cities ==> PagePost(cities, jobs, model, parse, now, req).0 == Failure(HttpError(404, "City not found"))
    ensures req.cityId in cities ==> PagePost(cities, jobs, model, parse, now, req).0 == Failure(HttpError(400, "Invalid page type"))
    ensures PagePost(cities, jobs, model, parse, now, req).1 == jobs
  {
  }

  /** A successful reply carries the page's title, and the job (if it exists) now lists the new
      entry after the ones it had. */
  lemma SuccessAppendsEntry(cities: map<string, City>, jobs: seq<Job>, model: PageModel, parse: Parser,
                            now: string, req: PageRequest)
    requires PagePost(cities, jobs, model, parse, now, req).0.Success?
    ensures var city := cities[req.cityId];
      var neighborhood := PageOf(req).value;
      var title := PageTitle(city, neighborhood);
      var content := GeneratePage(model, parse, city, neighborhood).value;
      var r := AppendPage(ResultsOrDefault(StoredResults(jobs, req.jobId)),
                          Entry(req.pageType, req.neighborhoodName, title, content, now));
      && r.Success?
      && PagePost(cities, jobs, model, parse, now, req) ==
           (Success(PageOk(title, req.pageType)), WithResults(jobs, req.jobId, r.value))
  {
  }

  /** `existingResults.pages.push(...)`, step by step. */
  method PushPage(results: Json, entry: Json) returns (r: Result<Json, string>)
    ensures r == AppendPage(results, entry)
  {
    if results.JNull? {
      return Failure(NullResults);
    }
    if !results.JObj? || "pages" !in results.fields {
      return Failure(NoPages);
    }
    var pages := results.fields["pages"];
    if pages.JNull? {
      return Failure(NullPages);
    }
    if !pages.JArr? {
      return Failure(PagesNotList);
    }
    var items := pages.items;
    items := items + [entry];
    r := Success(JObj(results.fields["pages" := JArr(items)]));
  }

  /** The route run against the tables: the same steps in the same order. */
  method PostPage(store: Store, model: PageModel, parse: Parser, now: string, req: PageRequest)
    returns (reply: Result<PageOk, HttpError>)
    requires store.Valid()
    modifies store
    ensures store.Valid()
    ensures (reply, store.jobs) == PagePost(old(store.cities), old(store.jobs), model, parse, now, req)
    ensures store.cities == old(store.cities)
  {
    var city := store.FindCity(req.cityId);
    if city.None? {
      return Failure(HttpError(404, "City not found"));
    }
    var neighborhood := PageOf(req);
    if neighborhood.Failure? {
      return Failure(neighborhood.error);
    }
    var title := PageTitle(city.value, neighborhood.value);
    var content := GeneratePage(model, parse, city.value, neighborhood.value);
    if content.Failure? {
      return Failure(ServerError(content.error));
    }
    var stored := store.FindResults(req.jobId);
    var results := ResultsOrDefault(stored);
    var updated := PushPage(results, Entry(req.pageType, req.neighborhoodName, title, content.value, now));
    if updated.Failure? {
      return Failure(ServerError(updated.error));
    }
    store.UpdateResults(req.jobId, updated.value);
    reply := Success(PageOk(title, req.pageType));
  }
}
