/**
 * The publish route: it publishes a city's cached content to WordPress and records the main
 * page's address on the city.  The content is the `generatedContent` of the city's newest
 * completed research job; without it the route asks for research to be run first.
 */
module PublishRoute {
  import opened Wrappers
  import opened Text
  import opened Json
  import opened Encoding
  import opened Records
  import opened Tables
  import opened Publisher

  /** The reply: the published pages and the main page's address, or an error status and text;
      `requiresResearch` is the flag of the reply that asks for research. */
  datatype PublishReply =
    | Published(message: string, pages: seq<WordPressPage>, mainUrl: string)
    | Refused(status: nat, error: string, requiresResearch: bool)

  const NoContent: string := "No content available. Please run Research first."
  const CityNotFound: string := "City not found"
  const FailedToPublish: string := "Failed to publish"

  predicate IsCompletedOf(job: Job, cityId: string) {
    job.cityId == cityId && job.status == Completed
  }

  /** `.eq('city_id', cityId).eq('status', 'completed').order('created_at', { ascending: false })
      .limit(1).single()`: the position of the city's newest completed job.  Jobs are kept in
      creation order, so the newest is the last. */
  function NewestCompleted(jobs: seq<Job>, cityId: string): (r: Option<nat>)
    ensures r.Some? ==> r.value < |jobs| && IsCompletedOf(jobs[r.value], cityId)
    ensures r.Some? ==> forall i | r.value < i < |jobs| :: !IsCompletedOf(jobs[i], cityId)
    ensures r.None? <==> forall i | 0 <= i < |jobs| :: !IsCompletedOf(jobs[i], cityId)
  {
    if jobs == [] then None
    else if IsCompletedOf(jobs[|jobs| - 1], cityId) then Some(|jobs| - 1)
    else NewestCompleted(jobs[..|jobs| - 1], cityId)
  }

  /** `existingJob && existingJob.results_json && existingJob.results_json.generatedContent`: the
      content, when each of the three is there and truthy. */
  function CachedContent(jobs: seq<Job>, cityId: string): (r: Option<Json>)
    ensures r.Some? <==>
      NewestCompleted(jobs, cityId).Some?
      && var results := jobs[NewestCompleted(jobs, cityId).value].results;
         results.Some? && Truthy(results.value)
         && Get(results.value, "generatedContent").Some? && Truthy(Get(results.value, "generatedContent").value)
    ensures r.Some? ==>
      Some(r.value) == Get(jobs[NewestCompleted(jobs, cityId).value].results.value, "generatedContent")
  {
    match NewestCompleted(jobs, cityId)
    case None => None
    case Some(i) =>
      match jobs[i].results
      case None => None
      case Some(results) =>
        if !Truthy(results) then None
        else
          match Get(results, "generatedContent")
          case Some(content) => if Truthy(content) then Some(content) else None
          case None => None
  }

  /** `result.pages[0]?.link || ''`. */
  function MainUrl(pages: seq<WordPressPage>): string {
    if pages == [] then "" else pages[0].link
  }

  function SuccessMessage(count: nat): string {
    "Published " + NatToString(count) + " pages successfully"
  }

  /** The reply and the cities after the publisher's run, which created the pages or threw. */
  function AfterRun(cities: map<string, City>, cityId: string, now: string,
                    result: Result<seq<WordPressPage>, string>): (PublishReply, map<string, City>)
  {
    match result
    case Failure(e) => (Refused(500, if e == "" then FailedToPublish else e, false), cities)
    case Success(pages) =>
      var mainUrl := MainUrl(pages);
      (Published(SuccessMessage(|pages|), pages, mainUrl), WithPublished(cities, cityId, mainUrl, now))
  }

  /** The reply, the cities afterwards and the requests sent to the site, given the tables, the
      site, the publisher's settings and the time of the update. */
  function PublishPost(cities: map<string, City>, jobs: seq<Job>, site: Site, config: WordPressConfig, now: string,
                       cityId: string): (PublishReply, map<string, City>, seq<Payload>)
  {
    if cityId !in cities then (Refused(500, CityNotFound, false), cities, [])
    else
      match CachedContent(jobs, cityId)
      case None => (Refused(400, NoContent, true), cities, [])
      case Some(content) =>
        var run := Publish(site, config.siteUrl + PagesPath,
                           BasicCredentials(config.username, config.applicationPassword), content);
        var (reply, after) := AfterRun(cities, cityId, now, run.0);
        (reply, after, run.1)
  }

  /** Without a city, or without cached content, nothing is sent to the site and the city is not
      touched; only the missing content is a 400 that asks for research. */
  lemma RefusedBeforePublishing(cities: map<string, City>, jobs: seq<Job>, site: Site, config: WordPressConfig,
                                now: string, cityId: string)
    requires cityId !in cities || CachedContent(jobs, cityId).None?
    ensures var (reply, after, sent) := PublishPost(cities, jobs, site, config, now, cityId);
      && sent == [] && after == cities
      && (cityId !in cities ==> reply == Refused(500, CityNotFound, false))
      && (cityId in cities ==> reply == Refused(400, NoContent, true))
  {
  }

  /** A refused request leaves every city as it was: the address and the time are written only
      after every page was created, and then on that city alone.  The requests already sent
      stay sent. */
  lemma CityUpdatedOnlyAfterPublishing(cities: map<string, City>, jobs: seq<Job>, site: Site,
                                       config: WordPressConfig, now: string, cityId: string)
    ensures var (reply, after, sent) := PublishPost(cities, jobs, site, config, now, cityId);
      && (reply.Refused? ==> after == cities)
      && (reply.Published? ==>
            && cityId in cities && after.Keys == cities.Keys
            && after[cityId].publishedAt == Some(now) && after[cityId].wordpressUrl == Some(reply.mainUrl)
            && forall k | k in cities && k != cityId :: after[k] == cities[k])
  {
  }

  /** Older completed jobs, and jobs in other states, play no part: two tables whose newest
      completed job for the city carries the same results give the same run. */
  lemma {:induction false} OnlyNewestJobConsulted(cities: map<string, City>, jobs: seq<Job>, other: seq<Job>,
                                                  site: Site, config: WordPressConfig, now: string, cityId: string)
    requires NewestCompleted(jobs, cityId).Some? <==> NewestCompleted(other, cityId).Some?
    requires NewestCompleted(jobs, cityId).Some? ==>
      jobs[NewestCompleted(jobs, cityId).value].results == other[NewestCompleted(other, cityId).value].results
    ensures PublishPost(cities, jobs, site, config, now, cityId) == PublishPost(cities, other, site, config, now, cityId)
  {
    assert CachedContent(jobs, cityId) == CachedContent(other, cityId);
  }

  /** A successful run: every page of the content was created, the reply counts them, its main
      address is the link of the page created for the main page, and exactly that city gets the
      address and the time. */
  lemma SuccessRecordsMainPage(cities: map<string, City>, jobs: seq<Job>, site: Site, config: WordPressConfig,
                               now: string, cityId: string)
    requires PublishPost(cities, jobs, site, config, now, cityId).0.Published?
    ensures cityId in cities && CachedContent(jobs, cityId).Some?
    ensures var content := CachedContent(jobs, cityId).value;
      var url := config.siteUrl + PagesPath;
      var auth := BasicCredentials(config.username, config.applicationPassword);
      var (reply, after, sent) := PublishPost(cities, jobs, site, config, now, cityId);
      && MainPageOf(content).Success?
      && |reply.pages| == 1 + |NeighborhoodItems(content)|
      && reply.message == SuccessMessage(1 + |NeighborhoodItems(content)|)
      && Success(reply.pages[0]) == PublishOne(site, url, auth, MainPageOf(content).value).0
      && reply.mainUrl == reply.pages[0].link
      && after == cities[cityId := cities[cityId].(wordpressUrl := Some(reply.mainUrl), publishedAt := Some(now))]
  {
    var content := CachedContent(jobs, cityId).value;
    var url := config.siteUrl + PagesPath;
    var auth := BasicCredentials(config.username, config.applicationPassword);
    PublishSucceedsOnAllPages(site, url, auth, content);
  }

  /** The route run against the tables. */
  method PostPublish(store: Store, site: Site, config: WordPressConfig, now: string, cityId: string)
    returns (reply: PublishReply, sent: seq<Payload>)
    modifies store
    ensures (reply, store.cities, sent) == PublishPost(old(store.cities), old(store.jobs), site, config, now, cityId)
    ensures store.jobs == old(store.jobs)
  {
    var city := store.FindCity(cityId);
    if city.None? {
      return Refused(500, CityNotFound, false), [];
    }
    var content := CachedContent(store.jobs, cityId);
    if content.None? {
      return Refused(400, NoContent, true), [];
    }
    var publisher := new WordPressPublisher(config);
    var result := publisher.PublishCityContent(site, content.value);
    sent := publisher.posted;
    ghost var run := Publish(site, config.siteUrl + PagesPath,
                             BasicCredentials(config.username, config.applicationPassword), content.value);
    assert result == run.0 && sent == run.1;
    if result.Failure? {
      return Refused(500, if result.error == "" then FailedToPublish else result.error, false), sent;
    }
    var mainUrl := MainUrl(result.value);
    store.UpdatePublished(cityId, mainUrl, now);
    reply := Published(SuccessMessage(|result.value|), result.value, mainUrl);
  }
}
