/**
 * The Reddit scraper: four searches about a city, the question-like post titles they return,
 * ordered by upvotes, without case-insensitive repeats, and cut to twenty.  The search is a
 * function from a query to the posts found, or the error the request throws.
 */
module RedditScraper {
  import opened Wrappers
  import opened Text
  import opened Sorting

  /** The `data` of a post; `None` in `title` or `selftext` is a value that is absent or empty,
      and `None` in `ups` one that is absent or `0`. */
  datatype PostData = PostData(title: Option<string>, subreddit: string, ups: Option<int>, permalink: string,
                               selftext: Option<string>)

  datatype RedditQuestion = RedditQuestion(question: string, source: string, upvotes: int, url: string,
                                           context: Option<string>)

  /** The posts a search returns (`response.data?.data?.children || []`); `None` is a post
      without `data`, on which reading `title` throws. */
  type Search = string -> Result<seq<Option<PostData>>, string>

  const RedditOrigin: string := "https://www.reddit.com"
  const MaxResults: nat := 20
  const ContextLength: nat := 200

  function SearchQueries(city: string, state: string): (r: seq<string>)
    ensures |r| == 4
  {
    ["dumpster rental " + city, city + " dumpster", "roll off " + city, "dumpster " + state]
  }

  /** The title test: a question mark, or one of the question words in the lower-cased title. */
  predicate IsQuestion(title: string) {
    var t := ToLower(title);
    || Contains(title, "?") || Contains(t, "how") || Contains(t, "what") || Contains(t, "where")
    || Contains(t, "when") || Contains(t, "why") || Contains(t, "should i")
  }

  /** The record pushed for a post. */
  function Shape(data: PostData, title: string): (q: RedditQuestion)
    ensures q.question == title && q.source == "r/" + data.subreddit
    ensures q.url == RedditOrigin + data.permalink && q.upvotes == data.ups.GetOr(0)
    ensures q.context.Some? ==>
      data.selftext.Some? && |q.context.value| <= ContextLength && q.context.value <= data.selftext.value
  {
    var context := match data.selftext
      case Some(text) => if text != "" then Some(Prefix(text, ContextLength)) else None
      case None => None;
    RedditQuestion(title, "r/" + data.subreddit, data.ups.GetOr(0), RedditOrigin + data.permalink, context)
  }

  /** What one readable post adds: its record, when its title is there and reads as a question. */
  function PostQuestions(data: PostData): (r: seq<RedditQuestion>)
    ensures |r| <= 1
    ensures r != [] <==> data.title.Some? && data.title.value != "" && IsQuestion(data.title.value)
  {
    if data.title.Some? && data.title.value != "" && IsQuestion(data.title.value) then [Shape(data, data.title.value)]
    else []
  }

  /** The position of the first post without `data`: the loop over the posts throws there. */
  function FirstUnreadable(posts: seq<Option<PostData>>): (j: nat)
    ensures j <= |posts|
    ensures forall i | 0 <= i < j :: posts[i].Some?
    ensures j < |posts| ==> posts[j].None?
  {
    if posts == [] || posts[0].None? then 0 else 1 + FirstUnreadable(posts[1..])
  }

  /** The records of readable posts, in post order. */
  function Kept(posts: seq<Option<PostData>>): seq<RedditQuestion>
    requires forall i | 0 <= i < |posts| :: posts[i].Some?
  {
    if posts == [] then []
    else Kept(posts[..|posts| - 1]) + PostQuestions(posts[|posts| - 1].value)
  }

  /** What one search adds: nothing when the request fails, and the records of the posts up to
      the first one without `data` otherwise. */
  function QueryQuestions(search: Search, query: string): seq<RedditQuestion> {
    match search(query)
    case Failure(_) => []
    case Success(posts) => Kept(posts[..FirstUnreadable(posts)])
  }

  /** The records of the first `k` searches, in search order. */
  function Collected(search: Search, queries: seq<string>, k: nat): seq<RedditQuestion>
    requires k <= |queries|
  {
    if k == 0 then [] else Collected(search, queries, k - 1) + QueryQuestions(search, queries[k - 1])
  }

  function Upvotes(q: RedditQuestion): int {
    q.upvotes
  }

  /** The key the repeats are found by. */
  function Key(q: RedditQuestion): string {
    ToLower(q.question)
  }

  /** `self.findIndex(t => t.question.toLowerCase() === key)`, with `|xs|` for "none". */
  function FindIndex(xs: seq<RedditQuestion>, key: string): (i: nat)
    ensures i <= |xs|
    ensures i < |xs| ==> Key(xs[i]) == key
    ensures forall j | 0 <= j < i :: Key(xs[j]) != key
  {
    if xs == [] || Key(xs[0]) == key then 0 else 1 + FindIndex(xs[1..], key)
  }

  /** `index === self.findIndex(...)`: no earlier element has the same key. */
  predicate FirstOfKey(xs: seq<RedditQuestion>, i: nat)
    requires i < |xs|
  {
    FindIndex(xs, Key(xs[i])) == i
  }

  /** The filter that keeps the first element of each key. */
  function Dedupe(xs: seq<RedditQuestion>): seq<RedditQuestion> {
    if xs == [] then []
    else Dedupe(xs[..|xs| - 1]) + (if FirstOfKey(xs, |xs| - 1) then [xs[|xs| - 1]] else [])
  }

  /** What `scrapeRedditQuestions` returns. */
  function RedditQuestions(search: Search, city: string, state: string): seq<RedditQuestion> {
    var queries := SearchQueries(city, state);
    Take(Dedupe(SortDesc(Collected(search, queries, |queries|), Upvotes)), MaxResults)
  }

  // ---------------------------------------------------------------------------
  // Properties
  // ---------------------------------------------------------------------------

  lemma FirstOfKeyPrefix(xs: seq<RedditQuestion>, n: nat, i: nat)
    requires i < n <= |xs|
    ensures FirstOfKey(xs[..n], i) <==> FirstOfKey(xs, i)
  {
    assert forall j | 0 <= j < n :: xs[..n][j] == xs[j];
  }

  /** The filter keeps exactly the elements no earlier element shares a key with. */
  lemma {:induction false} DedupeMembers(xs: seq<RedditQuestion>)
    ensures forall y | y in Dedupe(xs) :: exists i | 0 <= i < |xs| :: xs[i] == y && FirstOfKey(xs, i)
    ensures forall i | 0 <= i < |xs| && FirstOfKey(xs, i) :: xs[i] in Dedupe(xs)
  {
    if xs != [] {
      var n := |xs| - 1;
      var init := xs[..n];
      DedupeMembers(init);
      forall i | 0 <= i < n ensures FirstOfKey(init, i) <==> FirstOfKey(xs, i) {
        FirstOfKeyPrefix(xs, n, i);
      }
      forall y | y in Dedupe(xs) ensures exists i | 0 <= i < |xs| :: xs[i] == y && FirstOfKey(xs, i) {
        if y in Dedupe(init) {
          var i :| 0 <= i < |init| && init[i] == y && FirstOfKey(init, i);
          assert xs[i] == y && FirstOfKey(xs, i);
        } else {
          assert xs[n] == y && FirstOfKey(xs, n);
        }
      }
    }
  }

  /** The filter only drops elements. */
  lemma DedupeSubset(xs: seq<RedditQuestion>)
    ensures forall y | y in Dedupe(xs) :: y in xs
  {
    DedupeMembers(xs);
  }

  /** No two elements share a key. */
  predicate DistinctKeys(xs: seq<RedditQuestion>) {
    forall i, j | 0 <= i < j < |xs| :: Key(xs[i]) != Key(xs[j])
  }

  /** No two kept elements share a key. */
  lemma {:induction false} DedupeDistinct(xs: seq<RedditQuestion>)
    ensures DistinctKeys(Dedupe(xs))
  {
    if xs != [] {
      var n := |xs| - 1;
      var init := xs[..n];
      DedupeDistinct(init);
      DedupeMembers(init);
      var prev := Dedupe(init);
      if FirstOfKey(xs, n) {
        var d := prev + [xs[n]];
        assert Dedupe(xs) == d;
        forall i, j | 0 <= i < j < |d| ensures Key(d[i]) != Key(d[j]) {
          if j == |prev| {
            assert prev[i] in prev;
            var k :| 0 <= k < |init| && init[k] == prev[i] && FirstOfKey(init, k);
            assert d[i] == xs[k] && d[j] == xs[n];
          } else {
            assert d[i] == prev[i] && d[j] == prev[j];
          }
        }
      } else {
        assert Dedupe(xs) == prev;
      }
    }
  }

  lemma SortedPrefix(xs: seq<RedditQuestion>, n: nat)
    requires n <= |xs| && SortedDesc(xs, Upvotes)
    ensures SortedDesc(xs[..n], Upvotes)
  {
    assert forall i | 0 <= i < n :: xs[..n][i] == xs[i];
  }

  lemma SortedSnoc(xs: seq<RedditQuestion>, x: RedditQuestion)
    requires SortedDesc(xs, Upvotes)
    requires forall i | 0 <= i < |xs| :: xs[i].upvotes >= x.upvotes
    ensures SortedDesc(xs + [x], Upvotes)
  {
    var r := xs + [x];
    forall i, j | 0 <= i < j < |r| ensures Upvotes(r[i]) >= Upvotes(r[j]) {
      assert r[i] == xs[i];
      if j < |xs| {
        assert r[j] == xs[j];
      }
    }
  }

  lemma DedupeAtMost(xs: seq<RedditQuestion>, x: RedditQuestion)
    requires forall i | 0 <= i < |xs| :: xs[i].upvotes >= x.upvotes
    ensures forall i | 0 <= i < |Dedupe(xs)| :: Dedupe(xs)[i].upvotes >= x.upvotes
  {
    DedupeSubset(xs);
    assert forall i | 0 <= i < |Dedupe(xs)| :: Dedupe(xs)[i] in Dedupe(xs);
  }

  /** The filter keeps the order, so an ordered input gives an ordered output. */
  lemma {:induction false} DedupeSorted(xs: seq<RedditQuestion>)
    requires SortedDesc(xs, Upvotes)
    ensures SortedDesc(Dedupe(xs), Upvotes)
  {
    if xs != [] {
      var n := |xs| - 1;
      var init := xs[..n];
      SortedPrefix(xs, n);
      DedupeSorted(init);
      if FirstOfKey(xs, n) {
        DedupeSortedKept(xs);
      } else {
        assert Dedupe(xs) == Dedupe(init);
      }
    }
  }

  /** The last element, when kept, has no more upvotes than anything kept before it. */
  lemma DedupeSortedKept(xs: seq<RedditQuestion>)
    requires xs != [] && SortedDesc(xs, Upvotes) && FirstOfKey(xs, |xs| - 1)
    requires SortedDesc(Dedupe(xs[..|xs| - 1]), Upvotes)
    ensures SortedDesc(Dedupe(xs), Upvotes)
  {
    var n := |xs| - 1;
    var init := xs[..n];
    assert forall i | 0 <= i < n :: init[i] == xs[i] && Upvotes(xs[i]) >= Upvotes(xs[n]);
    DedupeAtMost(init, xs[n]);
    SortedSnoc(Dedupe(init), xs[n]);
    assert Dedupe(xs) == Dedupe(init) + [xs[n]];
  }

  /** Every element has a kept element with its key and at least its upvotes: with the input
      ordered by upvotes, the most upvoted of each spelling is the one that stays. */
  lemma MostUpvotedSurvives(xs: seq<RedditQuestion>, i: nat)
    requires SortedDesc(xs, Upvotes) && i < |xs|
    ensures exists y | y in Dedupe(xs) :: Key(y) == Key(xs[i]) && y.upvotes >= xs[i].upvotes
  {
    var f := FindIndex(xs, Key(xs[i]));
    assert f <= i;
    assert FirstOfKey(xs, f);
    DedupeMembers(xs);
    assert xs[f] in Dedupe(xs);
  }

  /** A record of a question-like title, addressed on Reddit. */
  predicate FromReddit(q: RedditQuestion) {
    IsQuestion(q.question) && RedditOrigin <= q.url
  }

  lemma {:induction false} KeptQuestions(posts: seq<Option<PostData>>)
    requires forall i | 0 <= i < |posts| :: posts[i].Some?
    ensures forall q | q in Kept(posts) :: FromReddit(q)
  {
    if posts != [] {
      KeptQuestions(posts[..|posts| - 1]);
    }
  }

  lemma {:induction false} CollectedQuestions(search: Search, queries: seq<string>, k: nat)
    requires k <= |queries|
    ensures forall q | q in Collected(search, queries, k) :: FromReddit(q)
  {
    if k > 0 {
      CollectedQuestions(search, queries, k - 1);
      match search(queries[k - 1])
      case Failure(_) =>
      case Success(posts) => KeptQuestions(posts[..FirstUnreadable(posts)]);
    }
  }

  lemma TakeDistinct(xs: seq<RedditQuestion>, n: nat)
    requires DistinctKeys(xs)
    ensures DistinctKeys(Take(xs, n))
  {
    var r := Take(xs, n);
    assert forall i | 0 <= i < |r| :: r[i] == xs[i];
  }

  /** The result holds at most twenty records, ordered by non-increasing upvotes, no two with the
      same lower-cased question. */
  lemma ResultOrdered(search: Search, city: string, state: string)
    ensures var r := RedditQuestions(search, city, state);
      |r| <= MaxResults && SortedDesc(r, Upvotes) && DistinctKeys(r)
  {
    var queries := SearchQueries(city, state);
    var sorted := SortDesc(Collected(search, queries, |queries|), Upvotes);
    SortDescSorted(Collected(search, queries, |queries|), Upvotes);
    DedupeSorted(sorted);
    TakeSorted(Dedupe(sorted), Upvotes, MaxResults);
    DedupeDistinct(sorted);
    TakeDistinct(Dedupe(sorted), MaxResults);
  }

  /** Every record of the result comes from a search: a question-like title with a Reddit address. */
  lemma ResultFromReddit(search: Search, city: string, state: string)
    ensures forall q | q in RedditQuestions(search, city, state) :: FromReddit(q)
  {
    var queries := SearchQueries(city, state);
    var all := Collected(search, queries, |queries|);
    var sorted := SortDesc(all, Upvotes);
    CollectedQuestions(search, queries, |queries|);
    DedupeSubset(sorted);
    forall q | q in RedditQuestions(search, city, state) ensures FromReddit(q) {
      assert q in Dedupe(sorted);
      assert q in multiset(sorted);
    }
  }

  lemma QuestionMarkIgnoresCase(s: string)
    ensures Contains(s, "?") <==> Contains(ToLower(s), "?")
  {
    if Contains(s, "?") {
      var i: nat :| i <= |s| && OccursAt(s, i, "?");
      assert ToLower(s)[i..i + 1] == [LowerChar(s[i])];
      assert OccursAt(ToLower(s), i, "?");
    }
    if Contains(ToLower(s), "?") {
      var i: nat :| i <= |s| && OccursAt(ToLower(s), i, "?");
      assert ToLower(s)[i..i + 1] == [LowerChar(s[i])];
      assert OccursAt(s, i, "?");
    }
  }

  /** The title test ignores case: two titles the filter counts as repeats are both questions or
      neither is. */
  lemma QuestionIgnoresCase(a: string, b: string)
    requires ToLower(a) == ToLower(b)
    ensures IsQuestion(a) <==> IsQuestion(b)
  {
    QuestionMarkIgnoresCase(a);
    QuestionMarkIgnoresCase(b);
  }

  /** A search whose request fails adds nothing, as one that finds no post. */
  lemma FailedQuerySkipped(search: Search, query: string)
    requires search(query).Failure?
    ensures QueryQuestions(search, query) == []
  {
  }

  /** The first post without `data` ends that search: nothing after it is read. */
  lemma UnreadablePostEndsSearch(search: Search, query: string, i: nat)
    requires search(query).Success? && i < |search(query).value| && search(query).value[i].None?
    ensures var posts := search(query).value;
      QueryQuestions(search, query) == Kept(posts[..FirstUnreadable(posts)]) && FirstUnreadable(posts) <= i
  {
  }

  // ---------------------------------------------------------------------------
  // The loops
  // ---------------------------------------------------------------------------

  lemma KeptSnoc(posts: seq<Option<PostData>>, i: nat)
    requires i < |posts| && forall k | 0 <= k <= i :: posts[k].Some?
    ensures Kept(posts[..i + 1]) == Kept(posts[..i]) + PostQuestions(posts[i].value)
  {
    assert posts[..i + 1][..i] == posts[..i];
  }

  /** The loop over the posts of one search, up to the first post without `data`. */
  method CollectPosts(posts: seq<Option<PostData>>) returns (found: seq<RedditQuestion>)
    ensures found == Kept(posts[..FirstUnreadable(posts)])
  {
    found := [];
    var i := 0;
    while i < |posts|
      invariant i <= FirstUnreadable(posts)
      invariant found == Kept(posts[..i])
    {
      if posts[i].None? {
        return;
      }
      var data := posts[i].value;
      KeptSnoc(posts, i);
      if data.title.Some? && data.title.value != "" {
        var title := data.title.value;
        if IsQuestion(title) {
          found := found + [Shape(data, title)];
        }
      }
      i := i + 1;
    }
  }

  /** `scrapeRedditQuestions`: the four searches in order, then the sort, the filter and the cut. */
  method ScrapeRedditQuestions(search: Search, city: string, state: string) returns (r: seq<RedditQuestion>)
    ensures r == RedditQuestions(search, city, state)
  {
    var queries := SearchQueries(city, state);
    var questions: seq<RedditQuestion> := [];
    for k := 0 to |queries|
      invariant questions == Collected(search, queries, k)
    {
      var response := search(queries[k]);
      if response.Success? {
        var found := CollectPosts(response.value);
        questions := questions + found;
      }
    }
    questions := SortDesc(questions, Upvotes);
    var unique := Dedupe(questions);
    r := Take(unique, MaxResults);
  }
}
