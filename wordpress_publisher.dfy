/**
 * The WordPress publisher: it creates the main page of a city and then each neighbourhood page,
 * in order, through the WordPress REST API, authenticating with an HTTP Basic credential.  The
 * first failure stops the run and nothing already created is undone.  The site is a function
 * from a request to its response; the requests sent are recorded in order.
 */
module Publisher {
  import opened Wrappers
  import opened Text
  import opened Json
  import opened Encoding

  datatype WordPressConfig = WordPressConfig(siteUrl: string, username: string, applicationPassword: string)

  /** The page WordPress returns for a page it created. */
  datatype WordPressPage = WordPressPage(id: int, link: string, slug: string)

  /** The JSON body of a page creation; an `undefined` property is left out of the JSON. */
  datatype Payload = Payload(title: Option<Json>, slug: Option<Json>, content: Option<Json>, status: string,
                             template: string)

  /** A response of the site: a created page, or a status that is not OK and the body's text. */
  datatype Response = Created(page: WordPressPage) | Rejected(status: nat, text: string)

  /** The site: the response to a request to an address with a credential and a body, or the
      message of the error `fetch` throws. */
  type Site = (string, string, Payload) -> Result<Response, string>

  const PagesPath: string := "/wp-json/wp/v2/pages"
  const RejectedOpen: string := "WordPress API returned "

  /** The body of the request creating a page: its title, slug and HTML, published with the city
      landing template. */
  function PayloadOf(page: Json): (p: Payload)
    ensures p.status == "publish" && p.template == "city-landing-template"
    ensures p.title == Get(page, "title") && p.slug == Get(page, "slug") && p.content == Get(page, "htmlContent")
  {
    Payload(Get(page, "title"), Get(page, "slug"), Get(page, "htmlContent"), "publish", "city-landing-template")
  }

  /** The error thrown for a response that is not OK. */
  function RejectedMessage(status: nat, text: string): (m: string)
    ensures |m| > |RejectedOpen| && m[..|RejectedOpen|] == RejectedOpen
  {
    RejectedOpen + NatToString(status) + ": " + text
  }

  const NullTitle: string := "Cannot read properties of null (reading 'title')"
  const UndefinedTitle: string := "Cannot read properties of undefined (reading 'title')"

  /** Publishing one page: the page created or the error, and the requests sent (none when the
      page is `null`, whose `title` cannot be read). */
  function PublishOne(site: Site, url: string, auth: string, page: Json): (r: (Result<WordPressPage, string>, seq<Payload>))
    ensures r.1 == if page.JNull? then [] else [PayloadOf(page)]
  {
    if page.JNull? then (Failure(NullTitle), [])
    else
      var payload := PayloadOf(page);
      match site(url, auth, payload)
      case Failure(e) => (Failure(e), [payload])
      case Success(Created(p)) => (Success(p), [payload])
      case Success(Rejected(status, text)) => (Failure(RejectedMessage(status, text)), [payload])
  }

  /** `content.mainCityPage`, which must not be `undefined` or `null`. */
  function MainPageOf(content: Json): (r: Result<Json, string>)
    ensures r.Success? <==> Get(content, "mainCityPage").Some? && !Get(content, "mainCityPage").value.JNull?
    ensures r.Success? ==> Get(content, "mainCityPage") == Some(r.value)
  {
    if content.JNull? then Failure("Cannot read properties of null (reading 'neighborhoodPages')")
    else
      match Get(content, "mainCityPage")
      case None => Failure(UndefinedTitle)
      case Some(JNull) => Failure(NullTitle)
      case Some(p) => Success(p)
  }

  /** `x.length > 0` for a value whose `length` property is read: a list's size, a string's
      length, and for an object its own `length` field when that is a positive number or `true`. */
  predicate PositiveLength(x: Json) {
    match x
    case JArr(xs) => |xs| > 0
    case JStr(s) => |s| > 0
    case JObj(_) =>
      (match Get(x, "length")
       case Some(JNum(n)) => n > 0
       case Some(JBool(b)) => b
       case _ => false)
    case _ => false
  }

  /** The guard `content.neighborhoodPages && content.neighborhoodPages.length > 0`. */
  predicate HasNeighborhoodPages(content: Json) {
    Get(content, "neighborhoodPages").Some? && PositiveLength(Get(content, "neighborhoodPages").value)
  }

  /** The guard holds for an object, which `for...of` cannot iterate: it throws. */
  predicate NotIterable(content: Json) {
    HasNeighborhoodPages(content) && Get(content, "neighborhoodPages").value.JObj?
  }

  const NotIterableMessage: string := "content.neighborhoodPages is not iterable"

  /** What `for (const p of content.neighborhoodPages)` visits once the guard holds: the items
      of a list and the characters of a string; nothing when the guard fails, and nothing
      before the throw for an object (see `NotIterable`). */
  function NeighborhoodItems(content: Json): (items: seq<Json>)
    ensures Get(content, "neighborhoodPages").Some? && Get(content, "neighborhoodPages").value.JArr? ==>
      items == Get(content, "neighborhoodPages").value.items
    ensures items != [] <==> HasNeighborhoodPages(content) && !NotIterable(content)
    ensures Get(content, "neighborhoodPages").Some? && Get(content, "neighborhoodPages").value.JStr? ==>
      |items| == |Get(content, "neighborhoodPages").value.s|
  {
    match Get(content, "neighborhoodPages")
    case Some(JArr(xs)) => xs
    case Some(JStr(s)) => seq(|s|, i requires 0 <= i < |s| => JStr([s[i]]))
    case _ => []
  }

  /** The pages `publishCityContent` publishes, in order: the main page, then the neighbourhood
      pages. */
  function PagesOf(content: Json, main: Json): seq<Json> {
    [main] + NeighborhoodItems(content)
  }

  predicate Publishes(site: Site, url: string, auth: string, page: Json) {
    PublishOne(site, url, auth, page).0.Success?
  }

  /** The position of the first page the site does not create, or the number of pages when it
      creates them all. */
  function FirstFailure(site: Site, url: string, auth: string, pages: seq<Json>): (j: nat)
    ensures j <= |pages|
    ensures forall i | 0 <= i < j :: Publishes(site, url, auth, pages[i])
    ensures j < |pages| ==> !Publishes(site, url, auth, pages[j])
  {
    if pages == [] || !Publishes(site, url, auth, pages[0]) then 0
    else 1 + FirstFailure(site, url, auth, pages[1..])
  }

  /** The requests of the pages, one per page, in page order. */
  function PayloadsOf(pages: seq<Json>): (r: seq<Payload>)
    ensures |r| == |pages|
    ensures forall i | 0 <= i < |pages| :: r[i] == PayloadOf(pages[i])
  {
    seq(|pages|, i requires 0 <= i < |pages| => PayloadOf(pages[i]))
  }

  lemma PayloadsOfSnoc(pages: seq<Json>, i: nat)
    requires i < |pages|
    ensures PayloadsOf(pages[..i + 1]) == PayloadsOf(pages[..i]) + [PayloadOf(pages[i])]
  {
    assert pages[..i + 1] == pages[..i] + [pages[i]];
  }

  lemma PayloadsOfCons(page: Json, pages: seq<Json>)
    ensures PayloadsOf([page] + pages) == [PayloadOf(page)] + PayloadsOf(pages)
  {
  }

  /** The pages the site created for pages it accepts, in page order. */
  function CreatedPages(site: Site, url: string, auth: string, pages: seq<Json>): (r: seq<WordPressPage>)
    requires forall i | 0 <= i < |pages| :: Publishes(site, url, auth, pages[i])
    ensures |r| == |pages|
    ensures forall i | 0 <= i < |pages| :: Success(r[i]) == PublishOne(site, url, auth, pages[i]).0
  {
    seq(|pages|, i requires 0 <= i < |pages| && Publishes(site, url, auth, pages[i]) =>
      PublishOne(site, url, auth, pages[i]).0.value)
  }

  /** Pages matched one by one with what the site created for them are the created pages. */
  lemma CreatedPagesOf(site: Site, url: string, auth: string, pages: seq<Json>, created: seq<WordPressPage>)
    requires |created| == |pages|
    requires forall k | 0 <= k < |pages| :: Success(created[k]) == PublishOne(site, url, auth, pages[k]).0
    ensures forall k | 0 <= k < |pages| :: Publishes(site, url, auth, pages[k])
    ensures created == CreatedPages(site, url, auth, pages)
  {
  }

  /** `publishCityContent`: the pages created or the error thrown, and every request sent.  The
      pages are tried in order up to the first one that fails, and none after it; when every
      page was created and the neighbourhood pages are an object, the loop then throws. */
  function Publish(site: Site, url: string, auth: string, content: Json): (Result<seq<WordPressPage>, string>, seq<Payload>) {
    match MainPageOf(content)
    case Failure(e) => (Failure(e), [])
    case Success(main) =>
      var pages := PagesOf(content, main);
      var j := FirstFailure(site, url, auth, pages);
      if j == |pages| then
        (if NotIterable(content) then Failure(NotIterableMessage) else Success(CreatedPages(site, url, auth, pages)),
         PayloadsOf(pages))
      else
        var (failed, sent) := PublishOne(site, url, auth, pages[j]);
        (Failure(failed.error), PayloadsOf(pages[..j]) + sent)
  }

  /** The run when every page is created: it succeeds with those pages, unless the
      neighbourhood pages are an object, whose iteration throws after the main page. */
  lemma PublishedAll(site: Site, url: string, auth: string, content: Json, main: Json)
    requires MainPageOf(content) == Success(main)
    requires FirstFailure(site, url, auth, PagesOf(content, main)) == |PagesOf(content, main)|
    ensures !NotIterable(content) ==>
      Publish(site, url, auth, content)
        == (Success(CreatedPages(site, url, auth, PagesOf(content, main))), PayloadsOf(PagesOf(content, main)))
    ensures NotIterable(content) ==>
      Publish(site, url, auth, content) == (Failure(NotIterableMessage), [PayloadOf(main)])
  {
    if NotIterable(content) {
      assert PagesOf(content, main) == [main];
      assert PayloadsOf([main]) == [PayloadOf(main)];
    }
  }

  /** A run with a main page succeeds exactly when the site creates every page and the
      neighbourhood pages can be iterated. */
  lemma PublishSucceedsIff(site: Site, url: string, auth: string, content: Json, main: Json)
    requires MainPageOf(content) == Success(main)
    ensures Publish(site, url, auth, content).0.Success?
        <==> FirstFailure(site, url, auth, PagesOf(content, main)) == |PagesOf(content, main)| && !NotIterable(content)
  {
  }

  /** The run when page `j` is the first the site does not create. */
  lemma PublishedUpToFailure(site: Site, url: string, auth: string, content: Json, main: Json, j: nat)
    requires MainPageOf(content) == Success(main)
    requires j == FirstFailure(site, url, auth, PagesOf(content, main)) < |PagesOf(content, main)|
    ensures var pages := PagesOf(content, main);
      Publish(site, url, auth, content) == (Failure(PublishOne(site, url, auth, pages[j]).0.error),
                                            PayloadsOf(pages[..j]) + PublishOne(site, url, auth, pages[j]).1)
  {
  }

  /** A run succeeds only after every page is created: one page per page of the content, the
      main page first, and one request per page in the same order. */
  lemma PublishSucceedsOnAllPages(site: Site, url: string, auth: string, content: Json)
    requires Publish(site, url, auth, content).0.Success?
    ensures var main := MainPageOf(content).value;
      var (r, sent) := Publish(site, url, auth, content);
      && |r.value| == 1 + |NeighborhoodItems(content)|
      && Success(r.value[0]) == PublishOne(site, url, auth, main).0
      && sent == [PayloadOf(main)] + PayloadsOf(NeighborhoodItems(content))
  {
    var main := MainPageOf(content).value;
    var pages := PagesOf(content, main);
    PublishSucceedsIff(site, url, auth, content, main);
    PublishedAll(site, url, auth, content, main);
    PayloadsOfCons(main, NeighborhoodItems(content));
  }

  /** A run that fails on a page sent the requests of every earlier page and of that page, and
      nothing after it: the pages it created before stay created.  A run that fails with every
      page created failed on iterating an object, after the main page. */
  lemma PublishStopsAtFirstFailure(site: Site, url: string, auth: string, content: Json)
    requires MainPageOf(content).Success?
    requires Publish(site, url, auth, content).0.Failure?
    ensures var pages := PagesOf(content, MainPageOf(content).value);
      var j := FirstFailure(site, url, auth, pages);
      var sent := Publish(site, url, auth, content).1;
      && (forall i | 0 <= i < j :: Publishes(site, url, auth, pages[i]))
      && (j < |pages| ==>
            && !Publishes(site, url, auth, pages[j])
            && |sent| <= j + 1 && sent[..j] == PayloadsOf(pages[..j])
            && Publish(site, url, auth, content).0.error == PublishOne(site, url, auth, pages[j]).0.error)
      && (j == |pages| ==>
            && NotIterable(content) && pages == [MainPageOf(content).value]
            && sent == PayloadsOf(pages) && Publish(site, url, auth, content).0.error == NotIterableMessage)
  {
    var pages := PagesOf(content, MainPageOf(content).value);
    var j := FirstFailure(site, url, auth, pages);
    if j < |pages| {
      var sent := PublishOne(site, url, auth, pages[j]).1;
      assert (PayloadsOf(pages[..j]) + sent)[..j] == PayloadsOf(pages[..j]);
    }
  }

  /** The topic pages of the content play no part: the run is the same whatever they are. */
  lemma TopicPagesNeverPublished(site: Site, url: string, auth: string, fields: map<string, Json>, topics: Json)
    ensures Publish(site, url, auth, JObj(fields["topicPages" := topics])) == Publish(site, url, auth, JObj(fields))
  {
    var c, d := JObj(fields["topicPages" := topics]), JObj(fields);
    assert Get(c, "mainCityPage") == Get(d, "mainCityPage");
    assert Get(c, "neighborhoodPages") == Get(d, "neighborhoodPages");
  }

  class WordPressPublisher {
    const config: WordPressConfig
    const authHeader: string
    /** The requests sent to the site, oldest first. */
    var posted: seq<Payload>

    /** The header is `'Basic '` and the Base64 of the UTF-8 of `username:applicationPassword`,
        as section 2 of RFC 7617 defines it. */
    constructor(config: WordPressConfig)
      ensures this.config == config && posted == []
      ensures authHeader == BasicCredentials(config.username, config.applicationPassword)
    {
      this.config := config;
      authHeader := "Basic " + Base64(Utf8(config.username + ":" + config.applicationPassword));
      posted := [];
    }

    function Endpoint(): string {
      config.siteUrl + PagesPath
    }

    /** `publishPage`: one request, and the page created or the error thrown. */
    method PublishPage(site: Site, page: Json) returns (r: Result<WordPressPage, string>)
      modifies this
      ensures r == PublishOne(site, Endpoint(), authHeader, page).0
      ensures posted == old(posted) + PublishOne(site, Endpoint(), authHeader, page).1
    {
      if page.JNull? {
        assert posted == posted + [];
        return Failure(NullTitle);
      }
      var payload := PayloadOf(page);
      posted := posted + [payload];
      var response := site(config.siteUrl + PagesPath, authHeader, payload);
      if response.Failure? {
        return Failure(response.error);
      }
      match response.value
      case Created(p) =>
        r := Success(p);
      case Rejected(status, text) =>
        r := Failure(RejectedMessage(status, text));
    }

    /** The loop of `publishCityContent`: each page in turn, until one fails. */
    method PublishPages(site: Site, pages: seq<Json>) returns (r: Result<seq<WordPressPage>, string>)
      modifies this
      ensures var j := FirstFailure(site, Endpoint(), authHeader, pages);
        && (j == |pages| ==>
              r == Success(CreatedPages(site, Endpoint(), authHeader, pages))
              && posted == old(posted) + PayloadsOf(pages))
        && (j < |pages| ==>
              r == Failure(PublishOne(site, Endpoint(), authHeader, pages[j]).0.error)
              && posted == old(posted) + PayloadsOf(pages[..j]) + PublishOne(site, Endpoint(), authHeader, pages[j]).1)
    {
      ghost var url, first := Endpoint(), FirstFailure(site, Endpoint(), authHeader, pages);
      var published: seq<WordPressPage> := [];
      var i := 0;
      while i < |pages|
        invariant 0 <= i <= first
        invariant |published| == i
        invariant forall k | 0 <= k < i :: Success(published[k]) == PublishOne(site, url, authHeader, pages[k]).0
        invariant posted == old(posted) + PayloadsOf(pages[..i])
      {
        var page := PublishPage(site, pages[i]);
        if page.Failure? {
          assert !Publishes(site, url, authHeader, pages[i]) && i == first;
          return Failure(page.error);
        }
        assert Publishes(site, url, authHeader, pages[i]) && i < first;
        PayloadsOfSnoc(pages, i);
        published := published + [page.value];
        assert published[i] == page.value;
        i := i + 1;
      }
      assert pages[..i] == pages;
      CreatedPagesOf(site, url, authHeader, pages, published);
      r := Success(published);
    }

    /** `publishCityContent`: the main page, then each neighbourhood page, until one fails. */
    method PublishCityContent(site: Site, content: Json) returns (r: Result<seq<WordPressPage>, string>)
      modifies this
      ensures r == Publish(site, Endpoint(), authHeader, content).0
      ensures posted == old(posted) + Publish(site, Endpoint(), authHeader, content).1
    {
      var main := MainPageOf(content);
      if main.Failure? {
        assert posted == posted + [];
        return Failure(main.error);
      }
      var pages := PagesOf(content, main.value);
      r := PublishPages(site, pages);
      var j := FirstFailure(site, Endpoint(), authHeader, pages);
      if j == |pages| {
        PublishedAll(site, Endpoint(), authHeader, content, main.value);
        if NotIterable(content) {
          r := Failure(NotIterableMessage);
        }
      } else {
        PublishedUpToFailure(site, Endpoint(), authHeader, content, main.value, j);
      }
    }
  }
}
