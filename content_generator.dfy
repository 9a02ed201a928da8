/**
 * `generateContent`: every page of a city's hub (the main page, four topic pages and the
 * neighbourhood pages) gets its FAQ answers from the language model, five questions per request,
 * and is assembled into HTML, schema objects, a meta description and a word count.
 *
 * The language model is a function from the request (the prompt's varying parts and the token
 * budget) to the reply's content blocks or the message of the error it throws.
 */
module ContentGenerator {
  import opened Wrappers
  import opened Text
  import opened Json
  import opened Records
  import opened Batching
  import opened AnswerParsing
  import opened FaqHtml
  import opened Schemas

  // ---------------------------------------------------------------------------
  // buildEnhancedPrompt and the model call
  // ---------------------------------------------------------------------------

  /** What the prompt says that varies from call to call: the city, the page type, the numbered
      questions and whether the REAL RESULT / TAKEAWAY block is asked for.  The city-context
      lines for the county, the population, the main streets and the landmarks are dropped, as
      are the fixed instructions around them: none of them changes how the reply is read. */
  datatype Prompt = Prompt(
    city: string,
    stateCode: string,
    pageType: string,
    questionList: string,
    questionCount: nat,
    firstBatch: bool)

  /** `${i + 1}. ${q.question}` */
  function NumberedLine(i: nat, q: Question): (r: string)
    ensures r == NatToString(i + 1) + ". " + q.question
  {
    NatToString(i + 1) + ". " + q.question
  }

  /** The question list of the prompt, one numbered question per line. */
  function NumberedList(qs: seq<Question>): string {
    Join(seq(|qs|, i requires 0 <= i < |qs| => NumberedLine(i, qs[i])), "\n")
  }

  predicate SingleLine(q: Question) {
    '\n' !in q.question
  }

  /** Cutting the question list at line breaks gives back one line per question, numbered from
      1 in batch order. */
  lemma NumberedListLines(qs: seq<Question>)
    requires qs != [] && forall i | 0 <= i < |qs| :: SingleLine(qs[i])
    ensures var lines := SplitOn(NumberedList(qs), "\n");
      && |lines| == |qs|
      && forall i | 0 <= i < |qs| :: lines[i] == NatToString(i + 1) + ". " + qs[i].question
  {
    var lines := seq(|qs|, i requires 0 <= i < |qs| => NumberedLine(i, qs[i]));
    forall i, k | 0 <= i < |lines| && 0 <= k < |lines[i]| ensures lines[i][k] != '\n' {
      var d := NatToString(i + 1);
      assert lines[i] == d + ". " + qs[i].question;
      if k < |d| {
        assert lines[i][k] == d[k] && IsDigit(d[k]);
      } else if k >= |d| + 2 {
        assert lines[i][k] == qs[i].question[k - |d| - 2];
        assert SingleLine(qs[i]);
      }
    }
    SplitJoinedLines(lines);
  }

  /** Splitting lines that hold no line break after joining them with line breaks. */
  lemma {:induction false} SplitJoinedLines(ps: seq<string>)
    requires ps != [] && forall i | 0 <= i < |ps| :: '\n' !in ps[i]
    ensures SplitOn(Join(ps, "\n"), "\n") == ps
  {
    var s := Join(ps, "\n");
    var r := IndexOf(s, "\n");
    if |ps| == 1 {
      assert s == ps[0] && ps == [s];
      assert r < 0 by {
        forall i: nat ensures !OccursAt(s, i, "\n") {
          if i + 1 <= |s| {
            assert s[i..i + 1][0] == s[i];
          }
        }
      }
      assert SplitOn(s, "\n") == [s];
    } else {
      var p := ps[0];
      var rest := Join(ps[1..], "\n");
      assert s == p + "\n" + rest;
      assert OccursAt(s, |p|, "\n") by {
        assert s[|p|..|p| + 1] == "\n";
      }
      assert r == |p| by {
        forall i: nat | i < |p| ensures !OccursAt(s, i, "\n") {
          assert s[i..i + 1][0] == s[i] == p[i];
        }
      }
      assert s[|p| + 1..] == rest;
      SplitJoinedLines(ps[1..]);
      assert s[..r] == p;
      assert SplitOn(s, "\n") == [p] + SplitOn(rest, "\n");
      assert [p] + ps[1..] == ps;
    }
  }

  /** `buildEnhancedPrompt(questions, cityData, localData, pageType, isFirstBatch)`. */
  function EnhancedPrompt(batch: seq<Question>, city: City, pageType: string, isFirstBatch: bool): (p: Prompt)
    ensures p.questionCount == |batch| && p.firstBatch == isFirstBatch
  {
    Prompt(city.name, city.stateCode, pageType, NumberedList(batch), |batch|, isFirstBatch)
  }

  /** A block of the model's reply. */
  datatype ContentBlock = TextBlock(text: string) | OtherBlock

  /** The language model: the reply's content blocks, or the message of the error thrown. */
  type Model = (Prompt, nat) -> Result<seq<ContentBlock>, string>

  /** The token budget of every answer request. */
  const MaxTokens: nat := 16000

  /** `message.content[0].type === 'text' ? message.content[0].text : ''`; an empty content list
      makes the property access throw. */
  function ReplyText(content: seq<ContentBlock>): (r: Result<string, string>)
    ensures r.Failure? <==> content == []
    ensures r.Success? && content[0].OtherBlock? ==> r.value == ""
  {
    if content == [] then Failure("Cannot read properties of undefined (reading 'type')")
    else
      match content[0]
      case TextBlock(text) => Success(text)
      case OtherBlock => Success("")
  }

  // ---------------------------------------------------------------------------
  // generateAnswersWithEnhancements
  // ---------------------------------------------------------------------------

  /** One request: the prompt for the slice, the reply, and its answers paired with the slice. */
  function BatchAnswers(model: Model, batch: seq<Question>, city: City, pageType: string, isFirstBatch: bool)
    : Result<seq<Answer>, string>
  {
    var content :- model(EnhancedPrompt(batch, city, pageType, isFirstBatch), MaxTokens);
    var text :- ReplyText(content);
    Success(ParsedAnswers(text, batch, isFirstBatch))
  }

  /** The body of the loop of `generateAnswersWithEnhancements` for one slice. */
  method RequestAnswers(model: Model, batch: seq<Question>, city: City, pageType: string, isFirstBatch: bool)
    returns (r: Result<seq<Answer>, string>)
    ensures r == BatchAnswers(model, batch, city, pageType, isFirstBatch)
  {
    var prompt := EnhancedPrompt(batch, city, pageType, isFirstBatch);
    var message := model(prompt, MaxTokens);
    if message.Failure? {
      return Failure(message.error);
    }
    var content := ReplyText(message.value);
    if content.Failure? {
      return Failure(content.error);
    }
    var answers := ParseEnhancedAnswers(content.value, batch, isFirstBatch);
    r := Success(answers);
  }

  /** A request for one slice, flagged or not as the first: its answers, or the error thrown. */
  type Request = (seq<Question>, bool) -> Result<seq<Answer>, string>

  /** The requests `generateAnswersWithEnhancements` makes for a city and a page type. */
  function Requests(model: Model, city: City, pageType: string): Request {
    (batch, isFirstBatch) => BatchAnswers(model, batch, city, pageType, isFirstBatch)
  }

  /** The answers of the first `k` slices, in slice order; the first failure ends the run. */
  function AnswersUpTo(request: Request, bs: seq<seq<Question>>, k: nat): Result<seq<Answer>, string>
    requires k <= |bs|
  {
    if k == 0 then Success([])
    else
      var before :- AnswersUpTo(request, bs, k - 1);
      var more :- request(bs[k - 1], k - 1 == 0);
      Success(before + more)
  }

  /** All slices of `questions`, answered in order. */
  function AnswersOf(request: Request, questions: seq<Question>): Result<seq<Answer>, string> {
    AnswersUpTo(request, Batches(questions), |Batches(questions)|)
  }

  /** What `generateAnswersWithEnhancements` resolves to. */
  function EnhancedAnswers(model: Model, questions: seq<Question>, city: City, pageType: string)
    : Result<seq<Answer>, string>
  {
    AnswersOf(Requests(model, city, pageType), questions)
  }

  /** The loop of `generateAnswersWithEnhancements`: one request per slice of five questions,
      only the slice starting at index 0 flagged as the first batch, the answers appended in
      slice order, the first failure rethrown. */
  method AnswerInSlices(request: Request, questions: seq<Question>) returns (r: Result<seq<Answer>, string>)
    ensures r == AnswersOf(request, questions)
  {
    ghost var bs := Batches(questions);
    var all: seq<Answer> := [];
    var i := 0;
    while i < |questions|
      invariant i % Size == 0 && (i == 0 || i < |questions| + Size)
      invariant i / Size <= |bs|
      invariant AnswersUpTo(request, bs, i / Size) == Success(all)
      decreases |questions| - i
    {
      var end := if i + Size < |questions| then i + Size else |questions|;
      var batch := questions[i..end];
      var isFirstBatch := i == 0;
      BatchesStep(questions, i);
      assert batch == bs[i / Size];
      var answers := request(batch, isFirstBatch);
      if answers.Failure? {
        FailedSlice(request, bs, i / Size);
        return Failure(answers.error);
      }
      all := all + answers.value;
      assert (i + Size) / Size == i / Size + 1;
      i := i + Size;
    }
    assert i / Size == |bs|;
    r := Success(all);
  }

  /** Once a slice fails, the run reports that slice's error. */
  lemma {:induction false} FailedSlice(request: Request, bs: seq<seq<Question>>, k: nat)
    requires k < |bs| && AnswersUpTo(request, bs, k).Success? && request(bs[k], k == 0).Failure?
    ensures AnswersUpTo(request, bs, |bs|) == Failure(request(bs[k], k == 0).error)
  {
    StillFailedFrom(request, bs, k, |bs|);
  }

  lemma {:induction false} StillFailedFrom(request: Request, bs: seq<seq<Question>>, k: nat, m: nat)
    requires k < m <= |bs| && AnswersUpTo(request, bs, k).Success? && request(bs[k], k == 0).Failure?
    ensures AnswersUpTo(request, bs, m) == Failure(request(bs[k], k == 0).error)
    decreases m
  {
    if m > k + 1 {
      StillFailedFrom(request, bs, k, m - 1);
    }
  }

  /** `generateAnswersWithEnhancements(questions, cityData, localData, pageType)`. */
  method GenerateAnswersWithEnhancements(model: Model, questions: seq<Question>, city: City, pageType: string)
    returns (r: Result<seq<Answer>, string>)
    ensures r == EnhancedAnswers(model, questions, city, pageType)
  {
    r := AnswerInSlices(Requests(model, city, pageType), questions);
  }

  /** A request answers at most the questions of its slice. */
  predicate SliceBounded(request: Request, batch: seq<Question>, isFirstBatch: bool) {
    var r := request(batch, isFirstBatch);
    r.Success? ==> |r.value| <= |batch|
  }

  lemma RequestsBounded(model: Model, city: City, pageType: string, batch: seq<Question>, isFirstBatch: bool)
    ensures SliceBounded(Requests(model, city, pageType), batch, isFirstBatch)
  {
  }

  lemma {:induction false} AnswersUpToBounded(request: Request, bs: seq<seq<Question>>, k: nat)
    requires k <= |bs| && forall b | 0 <= b < k :: SliceBounded(request, bs[b], b == 0)
    ensures var r := AnswersUpTo(request, bs, k); r.Success? ==> |r.value| <= |Flatten(bs[..k])|
  {
    if k > 0 {
      AnswersUpToBounded(request, bs, k - 1);
      assert SliceBounded(request, bs[k - 1], k - 1 == 0);
      assert bs[..k] == bs[..k - 1] + [bs[k - 1]];
      FlattenAppend(bs[..k - 1], bs[k - 1]);
    }
  }

  /** Nothing is padded: there are never more answers than questions. */
  lemma EnhancedAnswersBounded(model: Model, questions: seq<Question>, city: City, pageType: string)
    ensures var r := EnhancedAnswers(model, questions, city, pageType);
      r.Success? ==> |r.value| <= |questions|
  {
    var bs := Batches(questions);
    var request := Requests(model, city, pageType);
    forall b | 0 <= b < |bs| ensures SliceBounded(request, bs[b], b == 0) {
      RequestsBounded(model, city, pageType, bs[b], b == 0);
    }
    AnswersUpToBounded(request, bs, |bs|);
    assert bs[..|bs|] == bs;
    FlattenBatches(questions);
  }

  /** The answers carry the questions of `qs`, one for one and in order. */
  predicate AnswersFor(answers: seq<Answer>, qs: seq<Question>) {
    && |answers| == |qs|
    && forall j | 0 <= j < |qs| :: answers[j].question == qs[j].question && answers[j].category == qs[j].category
  }

  /** A request that answers its slice, answers it question by question. */
  predicate SliceAligned(request: Request, batch: seq<Question>, isFirstBatch: bool) {
    var r := request(batch, isFirstBatch);
    r.Success? && |r.value| == |batch| ==> AnswersFor(r.value, batch)
  }

  /** Does the request for every slice answer all of its questions? */
  predicate RepliesComplete(request: Request, bs: seq<seq<Question>>) {
    forall b | 0 <= b < |bs| :: var r := request(bs[b], b == 0); r.Success? ==> |r.value| == |bs[b]|
  }

  lemma RequestsAligned(model: Model, city: City, pageType: string, batch: seq<Question>, isFirstBatch: bool)
    ensures SliceAligned(Requests(model, city, pageType), batch, isFirstBatch)
  {
  }

  lemma {:induction false} AnswersUpToAligned(request: Request, bs: seq<seq<Question>>, k: nat)
    requires k <= |bs| && RepliesComplete(request, bs)
    requires forall b | 0 <= b < k :: SliceAligned(request, bs[b], b == 0)
    ensures var r := AnswersUpTo(request, bs, k); r.Success? ==> AnswersFor(r.value, Flatten(bs[..k]))
  {
    if k > 0 {
      AnswersUpToAligned(request, bs, k - 1);
      assert bs[..k] == bs[..k - 1] + [bs[k - 1]];
      FlattenAppend(bs[..k - 1], bs[k - 1]);
      var r := AnswersUpTo(request, bs, k);
      if r.Success? {
        var before := AnswersUpTo(request, bs, k - 1).value;
        var more := request(bs[k - 1], k - 1 == 0).value;
        assert SliceAligned(request, bs[k - 1], k - 1 == 0);
        var qs := Flatten(bs[..k - 1]);
        assert r.value == before + more;
        forall j | 0 <= j < |qs| + |bs[k - 1]|
          ensures r.value[j].question == (qs + bs[k - 1])[j].question
          ensures r.value[j].category == (qs + bs[k - 1])[j].category
        {
          if j >= |qs| {
            assert r.value[j] == more[j - |qs|];
          }
        }
      }
    }
  }

  /** When every reply answers its whole slice, answer `j` belongs to question `j`. */
  lemma EnhancedAnswersAligned(model: Model, questions: seq<Question>, city: City, pageType: string)
    requires RepliesComplete(Requests(model, city, pageType), Batches(questions))
    ensures var r := EnhancedAnswers(model, questions, city, pageType);
      r.Success? ==> AnswersFor(r.value, questions)
  {
    var bs := Batches(questions);
    var request := Requests(model, city, pageType);
    forall b | 0 <= b < |bs| ensures SliceAligned(request, bs[b], b == 0) {
      RequestsAligned(model, city, pageType, bs[b], b == 0);
    }
    AnswersUpToAligned(request, bs, |bs|);
    assert bs[..|bs|] == bs;
    FlattenBatches(questions);
  }

  /** No answer from position `from` on carries a REAL RESULT or a TAKEAWAY. */
  predicate NoExtrasFrom(answers: seq<Answer>, from: nat) {
    forall j | from <= j < |answers| :: answers[j].realResult.None? && answers[j].takeaway.None?
  }

  /** Only the first answer of the first slice can carry extras. */
  predicate SliceExtras(request: Request, batch: seq<Question>, isFirstBatch: bool) {
    var r := request(batch, isFirstBatch);
    r.Success? ==> NoExtrasFrom(r.value, if isFirstBatch then 1 else 0)
  }

  lemma RequestsExtras(model: Model, city: City, pageType: string, batch: seq<Question>, isFirstBatch: bool)
    ensures SliceExtras(Requests(model, city, pageType), batch, isFirstBatch)
  {
    var r := BatchAnswers(model, batch, city, pageType, isFirstBatch);
    if r.Success? {
      var prompt := EnhancedPrompt(batch, city, pageType, isFirstBatch);
      var text := ReplyText(model(prompt, MaxTokens).value).value;
      ExtrasOnlyOnFirstEntry(text, batch, isFirstBatch);
    }
  }

  lemma {:induction false} AnswersUpToExtras(request: Request, bs: seq<seq<Question>>, k: nat)
    requires k <= |bs| && forall b | 0 <= b < k :: SliceExtras(request, bs[b], b == 0)
    ensures var r := AnswersUpTo(request, bs, k); r.Success? ==> NoExtrasFrom(r.value, 1)
  {
    if k > 0 {
      AnswersUpToExtras(request, bs, k - 1);
      var r := AnswersUpTo(request, bs, k);
      if r.Success? {
        assert SliceExtras(request, bs[k - 1], k - 1 == 0);
        var before := AnswersUpTo(request, bs, k - 1).value;
        var more := request(bs[k - 1], k - 1 == 0).value;
        assert r.value == before + more;
        forall j | 1 <= j < |r.value|
          ensures r.value[j].realResult.None? && r.value[j].takeaway.None?
        {
          if j >= |before| {
            assert r.value[j] == more[j - |before|];
          }
        }
      }
    }
  }

  /** Across all slices, only the very first answer can carry a REAL RESULT or a TAKEAWAY. */
  lemma EnhancedAnswersExtras(model: Model, questions: seq<Question>, city: City, pageType: string)
    ensures var r := EnhancedAnswers(model, questions, city, pageType);
      r.Success? ==> NoExtrasFrom(r.value, 1)
  {
    var bs := Batches(questions);
    var request := Requests(model, city, pageType);
    forall b | 0 <= b < |bs| ensures SliceExtras(request, bs[b], b == 0) {
      RequestsExtras(model, city, pageType, bs[b], b == 0);
    }
    AnswersUpToExtras(request, bs, |bs|);
  }

  // ---------------------------------------------------------------------------
  // countWords and word counts
  // ---------------------------------------------------------------------------

  /** `countWords(text)`: `text.trim().split(/\s+/).length`. */
  function CountWords(text: string): (n: nat)
    ensures n >= 1
  {
    |SplitSpaces(Trim(text))|
  }

  /** The number of words of the text, except that a blank text still counts as one. */
  lemma CountWordsIsWords(text: string)
    ensures CountWords(text) == if IsBlank(text) then 1 else Words(text)
  {
    var t := Trim(text);
    SplitSpacesCount(t);
    assert CountWords(text) == SpaceRuns(t) + 1;
    if IsBlank(text) {
      assert t == [];
    } else {
      assert t != [] && !IsSpace(t[0]) && !IsSpace(t[|t| - 1]);
      WordsOfTrimmed(t);
      TrimmedWords(text);
      assert Words(t) == Words(text);
    }
  }

  /** Trimming removes no word. */
  lemma TrimmedWords(s: string)
    ensures Words(Trim(s)) == Words(s)
  {
    TrimStartWords(s);
    TrimEndWords(TrimStart(s));
  }

  lemma {:induction false} TrimStartWords(s: string)
    ensures Words(TrimStart(s)) == Words(s)
  {
    if s != [] && IsSpace(s[0]) {
      TrimStartWords(s[1..]);
    }
  }

  lemma {:induction false} TrimEndWords(s: string)
    ensures Words(TrimEnd(s)) == Words(s)
  {
    if s != [] && IsSpace(s[|s| - 1]) {
      TrimEndWords(s[..|s| - 1]);
      DropSpaceWords(s);
    }
  }

  /** A trailing white-space character ends no word. */
  lemma {:induction false} DropSpaceWords(s: string)
    requires s != [] && IsSpace(s[|s| - 1])
    ensures Words(s[..|s| - 1]) == Words(s)
  {
    if |s| > 1 {
      DropSpaceWords(s[1..]);
      assert s[1..][..|s| - 2] == s[..|s| - 1][1..];
      if |s| == 2 {
        assert WordEndsAtHead(s) == WordEndsAtHead(s[..1]);
      }
    }
  }

  /** `answers.reduce((sum, answer) => sum + countWords(answer.answer), 0)`. */
  function PageWordCount(answers: seq<Answer>): nat {
    if answers == [] then 0 else PageWordCount(answers[..|answers| - 1]) + CountWords(answers[|answers| - 1].answer)
  }

  /** Every answer counts for at least one word. */
  lemma {:induction false} PageWordCountAtLeast(answers: seq<Answer>)
    ensures PageWordCount(answers) >= |answers|
  {
    if answers != [] {
      PageWordCountAtLeast(answers[..|answers| - 1]);
    }
  }

  // ---------------------------------------------------------------------------
  // Pages
  // ---------------------------------------------------------------------------

  datatype Topic = Residential | Commercial | Construction | Roofing

  function TopicName(t: Topic): string {
    match t
    case Residential => "residential"
    case Commercial => "commercial"
    case Construction => "construction"
    case Roofing => "roofing"
  }

  datatype PageKind = MainPage | TopicPage(topic: Topic) | NeighborhoodPage(neighborhood: string)

  /** The `pageType` each generator passes on to the prompt. */
  function PageType(kind: PageKind): string {
    match kind
    case MainPage => "main"
    case TopicPage(t) => TopicName(t)
    case NeighborhoodPage(_) => "neighborhood"
  }

  /** A planned page of the hub: title, slug and questions. */
  datatype PagePlan = PagePlan(title: string, slug: string, questions: seq<Question>)

  /** A planned neighbourhood page also names its neighbourhood. */
  datatype NeighborhoodPlan = NeighborhoodPlan(page: PagePlan, neighborhood: string)

  datatype PageContent = PageContent(
    title: string,
    slug: string,
    questions: seq<Question>,
    metaDescription: string,
    wordCount: nat,
    htmlContent: string,
    faqSchema: Json,
    serviceSchema: Json,
    localBusinessSchema: Json,
    organizationSchema: Json)

  const MainMetaOpen: string := " dumpster rental $295+. Same-day delivery. 4.9★ (1200+ reviews). Call "
  const MainMetaClose: string := " for free quote."
  const ResidentialMetaOpen: string := " residential dumpster rental. 4.9★ rated. $295+. Call "
  const ResidentialMetaClose: string := " for same-day delivery."
  const CommercialMetaOpen: string := " commercial dumpster rental. Licensed & insured. 4.9★. Call "
  const CommercialMetaClose: string := " today."
  const ConstructionMetaOpen: string := " construction dumpster rental. Heavy-duty containers. 4.9★. Call "
  const RoofingMetaOpen: string := " roofing dumpster rental. Shingle disposal experts. 4.9★. Call "
  const NeighborhoodMetaOpen: string := "Dumpster rental in "
  const NeighborhoodMetaMiddle: string := ". Same-day delivery. 4.9★. Call "

  /** The text of a topic page's description between the city and the telephone number, and
      after the number. */
  function TopicMeta(t: Topic): (string, string) {
    match t
    case Residential => (ResidentialMetaOpen, ResidentialMetaClose)
    case Commercial => (CommercialMetaOpen, CommercialMetaClose)
    case Construction => (ConstructionMetaOpen, ".")
    case Roofing => (RoofingMetaOpen, ".")
  }

  /** The meta description of each kind of page: it opens with the city's name, or with the
      neighbourhood and then the city, and ends with a full stop. */
  function MetaDescription(kind: PageKind, city: City): (r: string)
    ensures !kind.NeighborhoodPage? ==> city.name <= r
    ensures kind.NeighborhoodPage? ==> NeighborhoodMetaOpen + kind.neighborhood + ", " + city.name <= r
    ensures r != [] && r[|r| - 1] == '.'
  {
    match kind
    case MainPage => city.name + MainMetaOpen + Telephone + MainMetaClose
    case TopicPage(t) => city.name + TopicMeta(t).0 + Telephone + TopicMeta(t).1
    case NeighborhoodPage(n) => NeighborhoodMetaOpen + n + ", " + city.name + NeighborhoodMetaMiddle + Telephone + "."
  }

  /** Every meta description names the city (and the neighbourhood) and gives the telephone
      number. */
  lemma MetaDescriptionNamesCity(kind: PageKind, city: City)
    ensures var m := MetaDescription(kind, city);
      && (exists i: nat :: OccursAt(m, i, city.name))
      && (exists j: nat :: OccursAt(m, j, Telephone))
      && (kind.NeighborhoodPage? ==> exists k: nat :: OccursAt(m, k, kind.neighborhood))
  {
    var m := MetaDescription(kind, city);
    match kind
    case MainPage =>
      OccursAtStart(city.name, MainMetaOpen);
      OccursExtend(city.name + MainMetaOpen, Telephone, 0, city.name);
      OccursExtend(city.name + MainMetaOpen + Telephone, MainMetaClose, 0, city.name);
      OccursBetween(city.name + MainMetaOpen, Telephone, MainMetaClose);
      assert OccursAt(m, 0, city.name);
      assert OccursAt(m, |city.name + MainMetaOpen|, Telephone);
    case TopicPage(t) =>
      var (open, close) := TopicMeta(t);
      OccursAtStart(city.name, open);
      OccursExtend(city.name + open, Telephone, 0, city.name);
      OccursExtend(city.name + open + Telephone, close, 0, city.name);
      OccursBetween(city.name + open, Telephone, close);
      assert OccursAt(m, 0, city.name);
      assert OccursAt(m, |city.name + open|, Telephone);
    case NeighborhoodPage(n) =>
      var head := NeighborhoodMetaOpen + n + ", ";
      OccursBetween(NeighborhoodMetaOpen, n, ", ");
      OccursExtend(head, city.name, |NeighborhoodMetaOpen|, n);
      OccursExtend(head + city.name, NeighborhoodMetaMiddle, |NeighborhoodMetaOpen|, n);
      OccursExtend(head + city.name + NeighborhoodMetaMiddle, Telephone, |NeighborhoodMetaOpen|, n);
      OccursExtend(head + city.name + NeighborhoodMetaMiddle + Telephone, ".", |NeighborhoodMetaOpen|, n);
      OccursBetween(head, city.name, NeighborhoodMetaMiddle);
      OccursExtend(head + city.name + NeighborhoodMetaMiddle, Telephone, |head|, city.name);
      OccursExtend(head + city.name + NeighborhoodMetaMiddle + Telephone, ".", |head|, city.name);
      OccursBetween(head + city.name + NeighborhoodMetaMiddle, Telephone, ".");
      assert OccursAt(m, |NeighborhoodMetaOpen|, n);
      assert OccursAt(m, |head|, city.name);
      assert OccursAt(m, |head + city.name + NeighborhoodMetaMiddle|, Telephone);
  }

  /** The blocks of a page's article, in template order. */
  datatype Part =
    | PageHeader | Intro | HeroCta | QuickAnswerBox | PricingCards | Contents | FaqContent
    | ServiceComparison | MiddleBanner | CostFactors | Checklist | QuickSummary | FinalCta

  function Parts(kind: PageKind): (ps: seq<Part>)
    ensures |ps| >= 6 && ps[0] == PageHeader && ps[1] == Intro && ps[2] == HeroCta && ps[|ps| - 1] == FinalCta
  {
    if kind.MainPage? then
      [PageHeader, Intro, HeroCta, QuickAnswerBox, PricingCards, Contents, FaqContent,
       ServiceComparison, MiddleBanner, CostFactors, Checklist, QuickSummary, FinalCta]
    else
      [PageHeader, Intro, HeroCta, Contents, FaqContent, FinalCta]
  }

  /** Where the table of contents sits, after the hero call to action; the FAQ content
      follows it directly. */
  function ContentsAt(kind: PageKind): (k: nat)
    ensures 2 < k && k + 2 < |Parts(kind)| && Parts(kind)[k] == Contents && Parts(kind)[k + 1] == FaqContent
  {
    if kind.MainPage? then 5 else 3
  }

  const HeaderOpen: string := "<header class=\"page-header\">\n    <h1>"
  const HeaderMeta: string := "</h1>\n    <div class=\"header-meta\">\n      <span class=\"rating\">"
  const MainRating: string := "⭐ 4.9 Rating (1,200+ Reviews)"
  const OtherRating: string := "⭐ 4.9 Rating"
  const HeaderClose: string :=
    "</span>\n      <span class=\"cta-phone\">\U{1F4DE} <a href=\"tel:8668583867\">(866) 858-3867</a></span>\n    </div>\n  </header>"
  const FaqContentOpen: string := "<section class=\"faq-content\">\n    "
  const FaqContentClose: string := "\n  </section>"
  const ArticleOpen: string := "<article class=\"dumpster-rental-content\">\n  "
  const ArticleClose: string := "\n</article>"
  /** Between two blocks the templates leave a line holding two spaces, except between the
      introduction and the hero call to action, where the line is empty. */
  const PartSeparator: string := "\n  \n  "
  const IntroSeparator: string := "\n\n  "

  /** The FAQ block: the sectionized FAQs.  The neighbourhood page passes the city where the
      others pass the state code, which the block does not use. */
  function FaqContentHtml(answers: seq<Answer>, city: City): string {
    FaqContentOpen + SectionizedFaqs(answers, city.name) + FaqContentClose
  }

  /** The HTML of one block.  The introduction and the marketing blocks (calls to action,
      pricing cards, tables, checklists) are fixed prose around the names of the city, the
      topic or the neighbourhood, and are given by `marketing`. */
  type Marketing = (Part, PageKind, City) -> string

  function RenderPart(p: Part, kind: PageKind, title: string, answers: seq<Answer>, city: City,
                      marketing: Marketing): string
  {
    match p
    case PageHeader => HeaderOpen + title + HeaderMeta + (if kind.MainPage? then MainRating else OtherRating) + HeaderClose
    case Contents => TableOfContents(answers)
    case FaqContent => FaqContentHtml(answers, city)
    case _ => marketing(p, kind, city)
  }

  /** How a page renders its blocks. */
  function PartRenderer(kind: PageKind, title: string, answers: seq<Answer>, city: City,
                        marketing: Marketing): Part -> string
  {
    p => RenderPart(p, kind, title, answers, city, marketing)
  }

  lemma RenderContents(kind: PageKind, title: string, answers: seq<Answer>, city: City,
                       marketing: Marketing)
    ensures PartRenderer(kind, title, answers, city, marketing)(Contents) == TableOfContents(answers)
    ensures PartRenderer(kind, title, answers, city, marketing)(FaqContent) == FaqContentHtml(answers, city)
  {
  }

  /** The blocks rendered in order. */
  function Rendered(ps: seq<Part>, render: Part -> string): (r: seq<string>)
    ensures |r| == |ps| && forall i | 0 <= i < |ps| :: r[i] == render(ps[i])
  {
    seq(|ps|, i requires 0 <= i < |ps| => render(ps[i]))
  }

  /** `buildMainPageHTML`, `buildTopicPageHTML` and `buildNeighborhoodPageHTML`: the page's
      blocks inside the article element.  The article opens with the header, the introduction,
      the empty line and the hero call to action, and closes with the final call to action. */
  function PageHtml(kind: PageKind, render: Part -> string): (r: string)
    ensures ArticleOpen + render(PageHeader) + PartSeparator + render(Intro) + IntroSeparator
            + render(HeroCta) + PartSeparator <= r
    ensures var tail := PartSeparator + render(FinalCta) + ArticleClose;
            |tail| <= |r| && r[|r| - |tail|..] == tail
  {
    var rs := Rendered(Parts(kind), render);
    assert rs[0] == render(PageHeader) && rs[1] == render(Intro);
    assert rs[2..][0] == render(HeroCta) && rs[2..][|rs[2..]| - 1] == render(FinalCta);
    Framed(ArticleOpen, rs[0], PartSeparator, rs[1], IntroSeparator, rs[2..], ArticleClose);
    ArticleOpen + rs[0] + PartSeparator + rs[1] + IntroSeparator + Join(rs[2..], PartSeparator) + ArticleClose
  }

  /** The frame of an article: what comes before the joined blocks, the first block, and the
      last block with what follows it. */
  lemma Framed(open: string, a: string, sep: string, b: string, isep: string, xs: seq<string>, close: string)
    requires |xs| >= 2
    ensures open + a + sep + b + isep + xs[0] + sep <= open + a + sep + b + isep + Join(xs, sep) + close
    ensures var whole := open + a + sep + b + isep + Join(xs, sep) + close;
            var tail := sep + xs[|xs| - 1] + close;
            |tail| <= |whole| && whole[|whole| - |tail|..] == tail
  {
    var head := open + a + sep + b + isep;
    JoinEnds(xs, sep);
    var mid :| Join(xs, sep) == mid + sep + xs[|xs| - 1];
    assert head + Join(xs, sep) + close == (head + mid) + (sep + xs[|xs| - 1] + close);
    assert head + Join(xs, sep) + close == (head + xs[0] + sep) + (Join(xs, sep)[|xs[0] + sep|..] + close);
  }

  /** A join of at least two pieces starts with the first and a separator and ends with a
      separator and the last. */
  lemma JoinEnds(xs: seq<string>, sep: string)
    requires |xs| >= 2
    ensures xs[0] + sep <= Join(xs, sep)
    ensures exists mid: string :: Join(xs, sep) == mid + sep + xs[|xs| - 1]
  {
    var k := |xs| - 1;
    JoinSplitAt(xs, k, sep);
    assert xs[k..] == [xs[k]];
    assert Join(xs, sep) == Join(xs[..k], sep) + sep + xs[k];
  }

  /** Cutting a join in two at an inner position. */
  lemma {:induction false} JoinSplitAt(xs: seq<string>, k: nat, sep: string)
    requires 0 < k < |xs|
    ensures Join(xs, sep) == Join(xs[..k], sep) + sep + Join(xs[k..], sep)
  {
    if k > 1 {
      JoinSplitAt(xs[1..], k - 1, sep);
      assert xs[1..][..k - 1] == xs[..k][1..];
      assert xs[1..][k - 1..] == xs[k..];
    }
  }

  /** Two neighbouring inner pieces of a join appear in it with the separator between them. */
  lemma JoinNeighbors(open: string, xs: seq<string>, close: string, k: nat, sep: string)
    requires 0 < k && k + 2 < |xs|
    ensures open + Join(xs, sep) + close
         == (open + Join(xs[..k], sep) + sep) + xs[k] + sep + xs[k + 1] + (sep + Join(xs[k + 2..], sep) + close)
  {
    JoinSplitAt(xs, k, sep);
    var tail := xs[k..];
    assert Join(tail, sep) == tail[0] + sep + Join(tail[1..], sep);
    assert Join(tail[1..], sep) == tail[1] + sep + Join(tail[2..], sep);
    assert tail[2..] == xs[k + 2..];
  }

  /** The table of contents comes directly before the FAQ block. */
  lemma ContentsThenFaqs(kind: PageKind, render: Part -> string)
    ensures exists pre: string, post: string ::
      PageHtml(kind, render) == pre + render(Contents) + PartSeparator + render(FaqContent) + post
  {
    var k := ContentsAt(kind);
    var rs := Rendered(Parts(kind), render);
    var head := ArticleOpen + rs[0] + PartSeparator + rs[1] + IntroSeparator;
    JoinNeighbors(head, rs[2..], ArticleClose, k - 2, PartSeparator);
    assert rs[2..][k - 2] == rs[k] && rs[2..][k - 1] == rs[k + 1];
    assert PageHtml(kind, render) == head + Join(rs[2..], PartSeparator) + ArticleClose;
  }

  /** The page `html` holds the table of contents of `answers` and, right after it, their FAQ
      section. */
  ghost predicate ContentsThenFaqsIn(html: string, answers: seq<Answer>, city: City) {
    exists pre: string, post: string ::
      html == pre + TableOfContents(answers) + PartSeparator + FaqContentHtml(answers, city) + post
  }

  /** The FAQ schema `schema` reads back as the questions, each with its schema answer. */
  ghost predicate FaqSchemaReadsBack(schema: Json, questions: seq<Question>, answers: seq<Answer>) {
    var read := ReadFaqSchema(schema);
    && read.Some? && |read.value| == |questions|
    && forall i | 0 <= i < |questions| :: read.value[i] == (questions[i].question, SchemaAnswerText(answers, i))
  }

  /** Every page shows its table of contents directly before its FAQ block, so the contents
      links and the FAQ items they point to sit side by side. */
  lemma PageShowsContentsThenFaqs(kind: PageKind, title: string, answers: seq<Answer>, city: City,
                                  marketing: Marketing)
    ensures ContentsThenFaqsIn(PageHtml(kind, PartRenderer(kind, title, answers, city, marketing)), answers, city)
  {
    ContentsThenFaqs(kind, PartRenderer(kind, title, answers, city, marketing));
    RenderContents(kind, title, answers, city, marketing);
  }

  /** The service type each page's service schema names. */
  function ServiceTopic(kind: PageKind): Option<string> {
    if kind.TopicPage? then Some(TopicName(kind.topic)) else None
  }

  /** A page assembled from its plan and its answers: it keeps its plan's title, slug and
      questions, counts at least one word per answer, shows its table of contents directly
      before its FAQ block, and its FAQ schema reads back one entity per planned question, in
      order. */
  function BuildPage(kind: PageKind, plan: PagePlan, answers: seq<Answer>, city: City,
                     marketing: Marketing): (page: PageContent)
    ensures page.title == plan.title && page.slug == plan.slug && page.questions == plan.questions
    ensures page.wordCount >= |answers|
    ensures page.metaDescription == MetaDescription(kind, city)
    ensures ContentsThenFaqsIn(page.htmlContent, answers, city)
    ensures FaqSchemaReadsBack(page.faqSchema, plan.questions, answers)
  {
    PageWordCountAtLeast(answers);
    PageShowsContentsThenFaqs(kind, plan.title, answers, city, marketing);
    var html := PageHtml(kind, PartRenderer(kind, plan.title, answers, city, marketing));
    var faqs := FaqSchema(plan.questions, answers);
    PageContent(plan.title, plan.slug, plan.questions, MetaDescription(kind, city), PageWordCount(answers),
      html, faqs, ServiceSchema(city, ServiceTopic(kind)), LocalBusinessSchema(city), OrganizationSchema())
  }

  /** `generateMainCityPage`, `generateTopicPage` and `generateNeighborhoodPage`: a page is
      built exactly when its answers are, and an error in the answers is the page's error. */
  function GeneratePage(model: Model, kind: PageKind, plan: PagePlan, city: City,
                        marketing: Marketing): (r: Result<PageContent, string>)
    ensures var answers := EnhancedAnswers(model, plan.questions, city, PageType(kind));
      && (r.Success? <==> answers.Success?)
      && (r.Failure? ==> r.error == answers.error)
      && (r.Success? ==> r.value.title == plan.title && r.value.questions == plan.questions
                         && r.value.wordCount >= |answers.value|)
  {
    var answers :- EnhancedAnswers(model, plan.questions, city, PageType(kind));
    Success(BuildPage(kind, plan, answers, city, marketing))
  }

  // ---------------------------------------------------------------------------
  // generateContent
  // ---------------------------------------------------------------------------

  /** The planned hub: a main page, four topic pages and the neighbourhood pages. */
  datatype HubAndSpoke = HubAndSpoke(
    main: PagePlan,
    residential: PagePlan,
    commercial: PagePlan,
    construction: PagePlan,
    roofing: PagePlan,
    neighborhoods: seq<NeighborhoodPlan>)

  datatype GeneratedContent = GeneratedContent(
    mainCityPage: PageContent,
    residential: PageContent,
    commercial: PageContent,
    construction: PageContent,
    roofing: PageContent,
    neighborhoodPages: seq<PageContent>,
    totalPages: nat,
    totalWordCount: nat)

  /** Generating one page of a kind from its plan: the page, or the message of the error thrown. */
  type PageGenerator = (PageKind, PagePlan) -> Result<PageContent, string>

  /** The page generators of `generateContent` for a city. */
  function Generators(model: Model, city: City, marketing: Marketing): PageGenerator {
    (kind, plan) => GeneratePage(model, kind, plan, city, marketing)
  }

  function NeighborhoodPageOf(generate: PageGenerator, n: NeighborhoodPlan): Result<PageContent, string> {
    generate(PageKind.NeighborhoodPage(n.neighborhood), n.page)
  }

  /** The pages of the first `k` neighbourhoods, generated one after the other. */
  function NeighborhoodPagesUpTo(generate: PageGenerator, plans: seq<NeighborhoodPlan>, k: nat)
    : Result<seq<PageContent>, string>
    requires k <= |plans|
  {
    if k == 0 then Success([])
    else
      var before :- NeighborhoodPagesUpTo(generate, plans, k - 1);
      var page :- NeighborhoodPageOf(generate, plans[k - 1]);
      Success(before + [page])
  }

  /** `pages.reduce((sum, page) => sum + page.wordCount, 0)`. */
  function SumWordCounts(pages: seq<PageContent>): nat {
    if pages == [] then 0 else SumWordCounts(pages[..|pages| - 1]) + pages[|pages| - 1].wordCount
  }

  /** What `generateContent` resolves to: the pages in the order they are generated, the first
      failure ending the run. */
  function ContentOf(generate: PageGenerator, hub: HubAndSpoke): Result<GeneratedContent, string> {
    var main :- generate(MainPage, hub.main);
    var residential :- generate(TopicPage(Residential), hub.residential);
    var commercial :- generate(TopicPage(Commercial), hub.commercial);
    var construction :- generate(TopicPage(Construction), hub.construction);
    var roofing :- generate(TopicPage(Roofing), hub.roofing);
    var neighborhoods :- NeighborhoodPagesUpTo(generate, hub.neighborhoods, |hub.neighborhoods|);
    var total := main.wordCount + residential.wordCount + commercial.wordCount + construction.wordCount
                 + roofing.wordCount + SumWordCounts(neighborhoods);
    Success(GeneratedContent(main, residential, commercial, construction, roofing, neighborhoods,
                             1 + 4 + |neighborhoods|, total))
  }

  /** `generateContent(hubAndSpoke, cityData, localData)`. */
  function Content(model: Model, hub: HubAndSpoke, city: City, marketing: Marketing)
    : Result<GeneratedContent, string>
  {
    ContentOf(Generators(model, city, marketing), hub)
  }

  /** `generateContent`: the five fixed pages, then the neighbourhood pages in a loop. */
  method GenerateContent(generate: PageGenerator, hub: HubAndSpoke) returns (r: Result<GeneratedContent, string>)
    ensures r == ContentOf(generate, hub)
  {
    var main := generate(MainPage, hub.main);
    if main.Failure? { return Failure(main.error); }
    var residential := generate(TopicPage(Residential), hub.residential);
    if residential.Failure? { return Failure(residential.error); }
    var commercial := generate(TopicPage(Commercial), hub.commercial);
    if commercial.Failure? { return Failure(commercial.error); }
    var construction := generate(TopicPage(Construction), hub.construction);
    if construction.Failure? { return Failure(construction.error); }
    var roofing := generate(TopicPage(Roofing), hub.roofing);
    if roofing.Failure? { return Failure(roofing.error); }
    var neighborhoods := GenerateNeighborhoodPages(generate, hub.neighborhoods);
    if neighborhoods.Failure? { return Failure(neighborhoods.error); }
    var neighborhoodPages := neighborhoods.value;
    var totalWordCount := main.value.wordCount + residential.value.wordCount + commercial.value.wordCount
                          + construction.value.wordCount + roofing.value.wordCount + SumWordCounts(neighborhoodPages);
    r := Success(GeneratedContent(main.value, residential.value, commercial.value, construction.value,
                                  roofing.value, neighborhoodPages, 1 + 4 + |neighborhoodPages|, totalWordCount));
  }

  /** The loop of `generateContent` over the neighbourhood plans, one page after the other. */
  method GenerateNeighborhoodPages(generate: PageGenerator, plans: seq<NeighborhoodPlan>)
    returns (r: Result<seq<PageContent>, string>)
    ensures r == NeighborhoodPagesUpTo(generate, plans, |plans|)
  {
    var pages: seq<PageContent> := [];
    var i := 0;
    while i < |plans|
      invariant i <= |plans|
      invariant NeighborhoodPagesUpTo(generate, plans, i) == Success(pages)
    {
      var page := generate(PageKind.NeighborhoodPage(plans[i].neighborhood), plans[i].page);
      if page.Failure? {
        StillFailed(generate, plans, i, |plans|);
        return Failure(page.error);
      }
      pages := pages + [page.value];
      i := i + 1;
    }
    r := Success(pages);
  }

  /** Once a neighbourhood page fails, the run reports that page's error. */
  lemma {:induction false} StillFailed(generate: PageGenerator, plans: seq<NeighborhoodPlan>, k: nat, m: nat)
    requires k < m <= |plans|
    requires NeighborhoodPagesUpTo(generate, plans, k).Success?
    requires NeighborhoodPageOf(generate, plans[k]).Failure?
    ensures NeighborhoodPagesUpTo(generate, plans, m) == Failure(NeighborhoodPageOf(generate, plans[k]).error)
    decreases m
  {
    if m > k + 1 {
      StillFailed(generate, plans, k, m - 1);
    }
  }

  lemma {:induction false} NeighborhoodPagesInOrder(generate: PageGenerator, plans: seq<NeighborhoodPlan>, k: nat)
    requires k <= |plans|
    ensures var r := NeighborhoodPagesUpTo(generate, plans, k);
      r.Success? ==>
        && |r.value| == k
        && forall i | 0 <= i < k :: NeighborhoodPageOf(generate, plans[i]) == Success(r.value[i])
  {
    if k > 0 {
      NeighborhoodPagesInOrder(generate, plans, k - 1);
    }
  }

  /** Every page of the result, main page first. */
  function AllPages(c: GeneratedContent): seq<PageContent> {
    [c.mainCityPage, c.residential, c.commercial, c.construction, c.roofing] + c.neighborhoodPages
  }

  lemma {:induction false} SumWordCountsAppend(a: seq<PageContent>, b: seq<PageContent>)
    ensures SumWordCounts(a + b) == SumWordCounts(a) + SumWordCounts(b)
    decreases |b|
  {
    if b != [] {
      assert (a + b)[..|a + b| - 1] == a + b[..|b| - 1];
      SumWordCountsAppend(a, b[..|b| - 1]);
    } else {
      assert a + b == a;
    }
  }

  /** A generated hub has one page per neighbourhood plan, in plan order; `totalPages` counts all
      its pages and `totalWordCount` adds up all their word counts. */
  lemma ContentTotals(generate: PageGenerator, hub: HubAndSpoke)
    ensures var r := ContentOf(generate, hub);
      r.Success? ==>
        && |r.value.neighborhoodPages| == |hub.neighborhoods|
        && (forall i | 0 <= i < |hub.neighborhoods| ::
              NeighborhoodPageOf(generate, hub.neighborhoods[i]) == Success(r.value.neighborhoodPages[i]))
        && r.value.totalPages == 5 + |hub.neighborhoods| == |AllPages(r.value)|
        && r.value.totalWordCount == SumWordCounts(AllPages(r.value))
  {
    var r := ContentOf(generate, hub);
    NeighborhoodPagesInOrder(generate, hub.neighborhoods, |hub.neighborhoods|);
    if r.Success? {
      var c := r.value;
      var fixed := [c.mainCityPage, c.residential, c.commercial, c.construction, c.roofing];
      SumWordCountsAppend(fixed, c.neighborhoodPages);
      var p1, p2, p3, p4 := fixed[..1], fixed[..2], fixed[..3], fixed[..4];
      assert p1[..0] == [];
      assert SumWordCounts(p1) == c.mainCityPage.wordCount;
      assert p2[..1] == p1;
      assert SumWordCounts(p2) == SumWordCounts(p1) + c.residential.wordCount;
      assert p3[..2] == p2;
      assert SumWordCounts(p3) == SumWordCounts(p2) + c.commercial.wordCount;
      assert p4[..3] == p3;
      assert SumWordCounts(p4) == SumWordCounts(p3) + c.construction.wordCount;
      assert fixed[..4] == p4;
      assert SumWordCounts(fixed) == SumWordCounts(p4) + c.roofing.wordCount;
    }
  }

}
