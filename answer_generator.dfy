/**
 * The single-answer generator: the local context handed to the model, the answer's word count
 * and paragraphs, the fallback answer used whenever the model call fails, and the batcher that
 * answers a list of requests five at a time.  The model is a function from a prompt to its
 * content blocks, or the message of the error the call throws.
 */
module AnswerGenerator {
  import opened Wrappers
  import opened Text
  import opened Batching
  import opened FaqHtml
  import opened ContentGenerator
  import opened Sorting

  // ---------------------------------------------------------------------------
  // Requests
  // ---------------------------------------------------------------------------

  datatype TargetLength = Short | Medium | Long

  /** The city of a request; `None` is a `county` that is `null` or absent. */
  datatype CityData = CityData(city: string, state: string, stateCode: string, county: Option<string>)

  /** The local data of a request; `None` is a property that is absent or `null`. */
  datatype LocalData = LocalData(
    mainStreets: Option<seq<string>>,
    landmarks: Option<seq<string>>,
    neighborhoods: Option<seq<string>>,
    permitCost: Option<int>,
    permitDepartment: Option<string>,
    challenges: Option<seq<string>>,
    townRules: Option<seq<string>>)

  datatype AnswerRequest = AnswerRequest(question: string, category: string, cityData: CityData,
                                         localData: Option<LocalData>, targetLength: TargetLength)

  datatype GeneratedAnswer = GeneratedAnswer(question: string, answer: string, wordCount: nat, htmlAnswer: string)

  /** The words asked for, as the bounds of a range. */
  function TargetRange(t: TargetLength): (r: (nat, nat))
    ensures 0 < r.0 < r.1
  {
    match t
    case Short => (75, 150)
    case Medium => (200, 350)
    case Long => (400, 600)
  }

  /** `'<lo>-<hi> words'`. */
  function RangeText(lo: nat, hi: nat): string {
    NatToString(lo) + "-" + NatToString(hi) + " words"
  }

  /** `'75-150 words'`, `'200-350 words'` or `'400-600 words'`. */
  function WordCountTarget(t: TargetLength): string {
    RangeText(TargetRange(t).0, TargetRange(t).1)
  }

  /** The position of the dash in `"<digits>-<rest>"` is the length of the digits. */
  lemma {:induction false} DashAfterDigits(d: string, rest: string)
    requires forall i | 0 <= i < |d| :: IsDigit(d[i])
    ensures FirstOf(d + "-" + rest, '-') == |d|
  {
    var s := d + "-" + rest;
    if d != [] {
      assert s[1..] == d[1..] + "-" + rest;
      DashAfterDigits(d[1..], rest);
    }
  }

  /** The text of a range gives back its lower bound. */
  lemma RangeTextLower(lo: nat, hi: nat, lo': nat, hi': nat)
    requires RangeText(lo, hi) == RangeText(lo', hi')
    ensures lo == lo'
  {
    var s := RangeText(lo, hi);
    var a, b := NatToString(lo), NatToString(lo');
    assert s == a + "-" + (NatToString(hi) + " words");
    assert s == b + "-" + (NatToString(hi') + " words");
    DashAfterDigits(a, NatToString(hi) + " words");
    DashAfterDigits(b, NatToString(hi') + " words");
    assert |a| == |b|;
    assert a == s[..|a|] == b;
    NatToStringInjective(lo, lo');
  }

  /** Different lengths ask for different ranges in the prompt. */
  lemma WordCountTargetsDistinct(t: TargetLength, u: TargetLength)
    requires WordCountTarget(t) == WordCountTarget(u)
    ensures t == u
  {
    RangeTextLower(TargetRange(t).0, TargetRange(t).1, TargetRange(u).0, TargetRange(u).1);
  }

  // ---------------------------------------------------------------------------
  // buildContext
  // ---------------------------------------------------------------------------

  function Header(c: CityData): string {
    "\nLOCAL CONTEXT FOR " + c.city + ", " + c.stateCode + ":\n"
  }

  /** A line of the context: `- <name>: <value>`. */
  function Line(name: string, value: string): string {
    "- " + name + ": " + value + "\n"
  }

  /** The text followed by the line of a list, when the list is there and not empty: its first
      `n` items. */
  function WithList(text: string, name: string, xs: Option<seq<string>>, n: nat): string {
    if xs.Some? && |xs.value| > 0 then text + Line(name, Join(Take(xs.value, n), ", ")) else text
  }

  function WithCounty(text: string, c: CityData): string {
    if c.county.Some? && c.county.value != "" then text + Line("County", c.county.value + " County") else text
  }

  function WithCost(text: string, l: LocalData): string {
    if l.permitCost.Some? && l.permitCost.value != 0 then text + Line("Permit cost", "$" + IntToString(l.permitCost.value))
    else text
  }

  function WithDepartment(text: string, l: LocalData): string {
    if l.permitDepartment.Some? && l.permitDepartment.value != "" then text + Line("Permit department", l.permitDepartment.value)
    else text
  }

  /** The text followed by the lines of the local data, in order, each only when its value is
      truthy. */
  function WithLocalLines(text: string, l: LocalData): string {
    var t := WithDepartment(WithCost(text, l), l);
    var t := WithList(WithList(t, "Main streets", l.mainStreets, 3), "Landmarks", l.landmarks, 3);
    WithList(WithList(t, "Local challenges", l.challenges, 3), "Key rules", l.townRules, 2)
  }

  /** `buildContext`: the header, then the county and the local data. */
  function Context(c: CityData, local: Option<LocalData>): string {
    var t := WithCounty(Header(c), c);
    if local.Some? then WithLocalLines(t, local.value) else t
  }

  /** Without local data and without a county the context is the header alone. */
  lemma BareContext(c: CityData)
    requires c.county.None? || c.county == Some("")
    ensures Context(c, None) == Header(c)
  {
  }

  /** A permit cost of 0 is left out, as if there were none. */
  lemma ZeroCostOmitted(c: CityData, l: LocalData)
    ensures Context(c, Some(l.(permitCost := Some(0)))) == Context(c, Some(l.(permitCost := None)))
  {
  }

  /** Only the first three streets, landmarks and challenges and the first two rules are shown:
      anything after them changes nothing. */
  lemma OnlyLeadingItemsShown(c: CityData, l: LocalData)
    requires l.mainStreets.Some? && l.landmarks.Some? && l.challenges.Some? && l.townRules.Some?
    ensures var cut := l.(mainStreets := Some(Take(l.mainStreets.value, 3)), landmarks := Some(Take(l.landmarks.value, 3)),
                          challenges := Some(Take(l.challenges.value, 3)), townRules := Some(Take(l.townRules.value, 2)));
      Context(c, Some(cut)) == Context(c, Some(l))
  {
  }

  /** `buildContext`, appending line after line. */
  method BuildContext(c: CityData, local: Option<LocalData>) returns (context: string)
    ensures context == Context(c, local)
  {
    context := Header(c);
    if c.county.Some? && c.county.value != "" {
      context := context + Line("County", c.county.value + " County");
    }
    if local.Some? {
      context := AppendLocalLines(context, local.value);
    }
  }

  /** The steps of `buildContext` that read the local data. */
  method AppendLocalLines(text: string, l: LocalData) returns (context: string)
    ensures context == WithLocalLines(text, l)
  {
    context := text;
    if l.permitCost.Some? && l.permitCost.value != 0 {
      context := context + Line("Permit cost", "$" + IntToString(l.permitCost.value));
    }
    if l.permitDepartment.Some? && l.permitDepartment.value != "" {
      context := context + Line("Permit department", l.permitDepartment.value);
    }
    context := AppendList(context, "Main streets", l.mainStreets, 3);
    context := AppendList(context, "Landmarks", l.landmarks, 3);
    context := AppendList(context, "Local challenges", l.challenges, 3);
    context := AppendList(context, "Key rules", l.townRules, 2);
  }

  /** One list step of `buildContext`: `if (xs && xs.length > 0) context += ...xs.slice(0, n).join(', ')`. */
  method AppendList(text: string, name: string, xs: Option<seq<string>>, n: nat) returns (context: string)
    ensures context == WithList(text, name, xs, n)
  {
    context := text;
    if xs.Some? && |xs.value| > 0 {
      context := context + Line(name, Join(Take(xs.value, n), ", "));
    }
  }

  // ---------------------------------------------------------------------------
  // The answer
  // ---------------------------------------------------------------------------

  /** `answerText.split(/\s+/).length`: white space at either end adds an empty piece. */
  function WordCount(text: string): nat {
    |SplitSpaces(text)|
  }

  lemma {:induction false} RunsAndWords(s: string)
    requires s != []
    ensures SpaceRuns(s) + 1 == Words(s) + (if IsSpace(s[0]) then 1 else 0) + (if IsSpace(s[|s| - 1]) then 1 else 0)
  {
    if |s| > 1 {
      RunsAndWords(s[1..]);
    }
  }

  /** The count is the number of words, plus one for white space at the start and one for white
      space at the end; an empty text counts 1. */
  lemma WordCountCountsEdges(text: string)
    ensures text == [] ==> WordCount(text) == 1
    ensures text != [] ==>
      WordCount(text) == Words(text) + (if IsSpace(text[0]) then 1 else 0) + (if IsSpace(text[|text| - 1]) then 1 else 0)
  {
    SplitSpacesCount(text);
    if text != [] {
      RunsAndWords(text);
    }
  }

  /** `answerText.split('\n\n').map(para => '<p>' + para.trim() + '</p>')`: every piece, blank
      ones included. */
  function AnswerParagraphs(pieces: seq<string>): (r: seq<string>)
    ensures |r| == |pieces|
    ensures forall i | 0 <= i < |r| :: r[i] == Paragraph(pieces[i])
  {
    seq(|pieces|, i requires 0 <= i < |pieces| => Paragraph(pieces[i]))
  }

  function HtmlAnswer(text: string): string {
    Join(AnswerParagraphs(SplitOn(text, "\n\n")), "\n")
  }

  /** Text written as pieces separated by blank lines comes out as one paragraph per piece, in
      order, blank pieces included. */
  lemma HtmlParagraphs(ps: seq<string>)
    requires ps != [] && SeparablePieces(ps)
    ensures HtmlAnswer(Join(ps, "\n\n")) == Join(AnswerParagraphs(ps), "\n")
  {
    SplitJoinedParagraphs(ps);
  }

  /** A blank piece gives an empty paragraph. */
  lemma BlankParagraph(p: string)
    requires IsBlank(p)
    ensures Paragraph(p) == "<p></p>"
  {
  }

  const FallbackOpen: string := "When it comes to dumpster rentals in "
  const FallbackMiddle: string := ", this is a common question. The answer depends on your specific project needs and local regulations. We recommend contacting Ultimate Dumpsters directly for the most accurate information tailored to your situation in "
  const FallbackClose: string := ". Our team is familiar with local requirements and can provide detailed guidance."

  /** `generateFallbackAnswer`: the same text for every question, naming the city and state. */
  function Fallback(c: CityData): string {
    FallbackOpen + Place(c) + FallbackTail(c)
  }

  function Place(c: CityData): string {
    c.city + ", " + c.stateCode
  }

  function FallbackTail(c: CityData): string {
    FallbackMiddle + c.city + FallbackClose
  }

  /** The fallback names the city and its state where it opens. */
  lemma FallbackNamesCity(c: CityData)
    ensures OccursAt(Fallback(c), |FallbackOpen|, c.city + ", " + c.stateCode)
  {
    OccursBetween(FallbackOpen, Place(c), FallbackTail(c));
  }

  /** What the prompt is built from; its prose is not part of this model. */
  datatype AnswerPrompt = AnswerPrompt(question: string, category: string, city: string, stateCode: string,
                                       wordCountTarget: string, context: string)

  type AnswerModel = (AnswerPrompt, nat) -> Result<seq<ContentBlock>, string>

  const AnswerTokens: nat := 1024

  function PromptOf(req: AnswerRequest): AnswerPrompt {
    AnswerPrompt(req.question, req.category, req.cityData.city, req.cityData.stateCode,
                 WordCountTarget(req.targetLength), Context(req.cityData, req.localData))
  }

  /** The requested length reaches the prompt only through its word-count range: asking for
      another length changes that range and nothing else, and always changes the prompt. */
  lemma PromptFollowsLength(req: AnswerRequest, u: TargetLength)
    ensures PromptOf(req.(targetLength := u)) == PromptOf(req).(wordCountTarget := WordCountTarget(u))
    ensures PromptOf(req.(targetLength := u)) == PromptOf(req) <==> u == req.targetLength
  {
    if PromptOf(req.(targetLength := u)) == PromptOf(req) {
      WordCountTargetsDistinct(u, req.targetLength);
    }
  }

  /** `message.content[0].type === 'text' ? message.content[0].text : ''`; `None` when there is
      no first block to read, which throws inside the `try`. */
  function AnswerText(blocks: seq<ContentBlock>): (r: Option<string>)
    ensures r.None? <==> blocks == []
  {
    if blocks == [] then None
    else match blocks[0]
      case TextBlock(t) => Some(t)
      case OtherBlock => Some("")
  }

  /** `generateAnswer`: never throws; whatever goes wrong in the call gives the fallback. */
  function GenerateAnswer(model: AnswerModel, req: AnswerRequest): (r: GeneratedAnswer)
    ensures r.question == req.question
    ensures r.wordCount == WordCount(r.answer)
    ensures var reply := model(PromptOf(req), AnswerTokens);
      reply.Failure? || reply.value == [] ==>
        r.answer == Fallback(req.cityData) && r.htmlAnswer == "<p>" + r.answer + "</p>"
    ensures var reply := model(PromptOf(req), AnswerTokens);
      reply.Success? && reply.value != [] ==>
        AnswerText(reply.value) == Some(r.answer) && r.htmlAnswer == HtmlAnswer(r.answer)
  {
    var reply := model(PromptOf(req), AnswerTokens);
    var text := if reply.Success? then AnswerText(reply.value) else None;
    match text
    case Some(t) => GeneratedAnswer(req.question, t, WordCount(t), HtmlAnswer(t))
    case None =>
      var f := Fallback(req.cityData);
      GeneratedAnswer(req.question, f, WordCount(f), "<p>" + f + "</p>")
  }

  // ---------------------------------------------------------------------------
  // generateAnswersBatch
  // ---------------------------------------------------------------------------

  /** `batch.map(req => generateAnswer(req))`, awaited together: one answer per request, in order. */
  function AnswersFor(model: AnswerModel, requests: seq<AnswerRequest>): (r: seq<GeneratedAnswer>)
    ensures |r| == |requests|
    ensures forall k | 0 <= k < |requests| :: r[k] == GenerateAnswer(model, requests[k])
  {
    seq(|requests|, k requires 0 <= k < |requests| => GenerateAnswer(model, requests[k]))
  }

  lemma AnswersForSplit(model: AnswerModel, requests: seq<AnswerRequest>, i: nat, end: nat)
    requires i <= end <= |requests|
    ensures AnswersFor(model, requests[..i]) + AnswersFor(model, requests[i..end]) == AnswersFor(model, requests[..end])
  {
    var a, b, c := AnswersFor(model, requests[..i]), AnswersFor(model, requests[i..end]), AnswersFor(model, requests[..end]);
    forall k | 0 <= k < |c| ensures (a + b)[k] == c[k] {
      if k < i {
        assert requests[..i][k] == requests[..end][k];
      } else {
        assert requests[i..end][k - i] == requests[..end][k];
      }
    }
    assert a + b == c;
  }

  /** `generateAnswersBatch`: the slices of five one after the other, each slice's answers in
      request order, and a pause after every slice but the last.  `pauses` counts the pauses. */
  method GenerateAnswersBatch(model: AnswerModel, requests: seq<AnswerRequest>)
    returns (answers: seq<GeneratedAnswer>, pauses: nat)
    ensures answers == AnswersFor(model, requests)
    ensures pauses == if requests == [] then 0 else |Batches(requests)| - 1
  {
    var n := |requests|;
    answers, pauses := [], 0;
    var i := 0;
    while i < n
      invariant i % Size == 0 && (i == 0 || i < n + Size)
      invariant i <= n ==> answers == AnswersFor(model, requests[..i])
      invariant i > n ==> answers == AnswersFor(model, requests)
      invariant pauses == if i < n || i == 0 then i / Size else i / Size - 1
      decreases n - i
    {
      var end := if i + Size < n then i + Size else n;
      var results := AnswersFor(model, requests[i..end]);
      AnswersForSplit(model, requests, i, end);
      answers := answers + results;
      if i + Size < n {
        pauses := pauses + 1;
      }
      i := i + Size;
    }
    if i == n {
      assert requests[..i] == requests;
    }
    assert i / Size == (n + Size - 1) / Size;
  }
}
