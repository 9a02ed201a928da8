/**
 * Reading a batch reply of the language model back into per-question answers
 * (`parseEnhancedAnswers`): the reply is cut at case-insensitive `ANSWER <digits>:` markers,
 * blank pieces are dropped, and piece i is paired with question i.  A piece may carry a
 * `REAL RESULT <digits>:` story and a `TAKEAWAY <digits>:` line, kept only for the first
 * question of the first batch.
 */
module AnswerParsing {
  import opened Wrappers
  import opened Text

  /** A question as the content generator receives it. */
  datatype Question = Question(question: string, category: Option<string>)

  /** One parsed answer; `realResult` and `takeaway` are absent unless set. */
  datatype Answer = Answer(
    question: string,
    answer: string,
    category: Option<string>,
    realResult: Option<string>,
    takeaway: Option<string>)

  // ---------------------------------------------------------------------------
  // Markers: /WORD \d+:/i
  // ---------------------------------------------------------------------------

  /** Length of the run of ASCII digits (`\d`) starting at `p`. */
  function DigitRun(s: string, p: nat): (n: nat)
    requires p <= |s|
    decreases |s| - p
    ensures p + n <= |s|
    ensures forall k | p <= k < p + n :: IsDigit(s[k])
    ensures p + n < |s| ==> !IsDigit(s[p + n])
  {
    if p < |s| && IsDigit(s[p]) then 1 + DigitRun(s, p + 1) else 0
  }

  /** `word` (upper case, matched ignoring case), a space, one or more digits and a colon start
      at `i`.  The digits are the maximal run, since `\d+` followed by `:` cannot stop early. */
  predicate MarkerAt(s: string, i: nat, word: string) {
    OccursAtIgnoringCase(s, i, word + " ")
    && var p := i + |word| + 1;
    DigitRun(s, p) > 0 && p + DigitRun(s, p) < |s| && s[p + DigitRun(s, p)] == ':'
  }

  /** The position just after the colon of a marker. */
  function MarkerEnd(s: string, i: nat, word: string): (e: nat)
    requires MarkerAt(s, i, word)
    ensures i < e <= |s|
  {
    i + |word| + 1 + DigitRun(s, i + |word| + 1) + 1
  }

  /** The leftmost marker at or after `from`, or -1. */
  function FindMarker(s: string, word: string, from: nat): (r: int)
    decreases |s| - from
    ensures r == -1 || (from <= r < |s| && MarkerAt(s, r, word))
    ensures r == -1 ==> forall i | from <= i < |s| :: !MarkerAt(s, i, word)
    ensures r != -1 ==> forall i | from <= i < r :: !MarkerAt(s, i, word)
  {
    if from >= |s| then -1
    else if MarkerAt(s, from, word) then from
    else FindMarker(s, word, from + 1)
  }

  /** The leftmost case-insensitive occurrence of `lit` at or after `from`, or `|s|`:
      where a lazy `(.*?)` followed by `(?=lit|$)` stops. */
  function FindIgnoringCase(s: string, lit: string, from: nat): (t: nat)
    requires from <= |s|
    decreases |s| - from
    ensures from <= t <= |s|
    ensures forall k | from <= k < t :: !OccursAtIgnoringCase(s, k, lit)
    ensures t < |s| ==> OccursAtIgnoringCase(s, t, lit)
  {
    if from == |s| || OccursAtIgnoringCase(s, from, lit) then from
    else FindIgnoringCase(s, lit, from + 1)
  }

  predicate NoMarker(s: string, word: string) {
    forall i | 0 <= i < |s| :: !MarkerAt(s, i, word)
  }

  /** A marker at `i` with none before it: the leftmost one. */
  predicate FirstMarkerAt(s: string, i: nat, word: string) {
    i < |s| && MarkerAt(s, i, word) && forall j | 0 <= j < i :: !MarkerAt(s, j, word)
  }

  /** A text has at most one leftmost marker. */
  lemma FirstMarkerUnique(s: string, i: nat, word: string)
    requires FirstMarkerAt(s, i, word)
    ensures forall k: nat | FirstMarkerAt(s, k, word) :: k == i
  {
  }

  // ---------------------------------------------------------------------------
  // content.split(/ANSWER \d+:/i).filter(s => s.trim())
  // ---------------------------------------------------------------------------

  /** `s.split(/ANSWER \d+:/i)`: the text between consecutive markers. */
  function SplitAnswers(s: string): (parts: seq<string>)
    decreases |s|
    ensures |parts| >= 1
  {
    var i := FindMarker(s, "ANSWER", 0);
    if i < 0 then [s] else [s[..i]] + SplitAnswers(s[MarkerEnd(s, i, "ANSWER")..])
  }

  /** `parts.filter(p => p.trim())`: exactly the pieces that are not blank.  Their order is
      kept: see `NonBlankAppend`. */
  function NonBlank(parts: seq<string>): (r: seq<string>)
    ensures |r| <= |parts|
    ensures forall k | 0 <= k < |r| :: !IsBlank(r[k])
    ensures forall p :: p in r <==> p in parts && !IsBlank(p)
  {
    if parts == [] then []
    else (if IsBlank(parts[0]) then [] else [parts[0]]) + NonBlank(parts[1..])
  }

  /** Filtering a concatenation filters each side and keeps them in order; with
      `NonBlank([p])` being `[p]` or `[]`, this fixes the whole result piece by piece. */
  lemma {:induction false} NonBlankAppend(a: seq<string>, b: seq<string>)
    ensures NonBlank(a + b) == NonBlank(a) + NonBlank(b)
  {
    if a == [] {
      assert a + b == b;
    } else {
      assert (a + b)[1..] == a[1..] + b;
      NonBlankAppend(a[1..], b);
    }
  }

  /** A single piece survives exactly when it is not blank. */
  lemma NonBlankSingle(p: string)
    ensures NonBlank([p]) == if IsBlank(p) then [] else [p]
  {
    assert [p][1..] == [];
  }

  function Sections(content: string): seq<string> {
    NonBlank(SplitAnswers(content))
  }

  // ---------------------------------------------------------------------------
  // /REAL RESULT \d+:(.*?)(?=TAKEAWAY|$)/is and /TAKEAWAY \d+:(.*?)(?=ANSWER|$)/is
  // ---------------------------------------------------------------------------

  /** A regex match: where it starts and what its group captured. */
  datatype Match = Match(start: nat, group: string)

  /** The leftmost `word <digits>:` marker and the text after it up to the first
      case-insensitive `stop` or the end (the `s` flag lets the group span lines). */
  function MarkedText(s: string, word: string, stop: string): (r: Option<Match>)
    ensures r.None? <==> NoMarker(s, word)
    ensures r.Some? ==> r.value.start < |s| && MarkerAt(s, r.value.start, word)
    ensures r.Some? ==> forall j | 0 <= j < r.value.start :: !MarkerAt(s, j, word)
    ensures r.Some? ==>
      var e := MarkerEnd(s, r.value.start, word);
      var g := r.value.group;
      && e + |g| <= |s| && g == s[e..e + |g|]
      && (forall k | e <= k < e + |g| :: !OccursAtIgnoringCase(s, k, stop))
      && (e + |g| == |s| || OccursAtIgnoringCase(s, e + |g|, stop))
  {
    var i := FindMarker(s, word, 0);
    if i < 0 then None
    else
      var e := MarkerEnd(s, i, word);
      Some(Match(i, s[e..FindIgnoringCase(s, stop, e)]))
  }

  function RealResultMatch(section: string): Option<Match> {
    MarkedText(section, "REAL RESULT", "TAKEAWAY")
  }

  function TakeawayMatch(section: string): Option<Match> {
    MarkedText(section, "TAKEAWAY", "ANSWER")
  }

  /** The answer text of a section: everything before its leftmost REAL RESULT marker,
      trimmed, or the whole section trimmed when it has none. */
  function AnswerBody(section: string): (r: string)
    ensures NoMarker(section, "REAL RESULT") ==> r == Trim(section)
    ensures forall i: nat | FirstMarkerAt(section, i, "REAL RESULT") :: r == Trim(section[..i])
  {
    match RealResultMatch(section)
    case None => Trim(section)
    case Some(m) =>
      FirstMarkerUnique(section, m.start, "REAL RESULT");
      Trim(section[..m.start])
  }

  /** The cut as the code writes it: at the first case-sensitive `'REAL RESULT'`, and
      `substring(0, -1)`, i.e. nothing, when there is none. */
  function AnswerBodyAsWritten(section: string): string {
    match RealResultMatch(section)
    case None => Trim(section)
    case Some(_) =>
      var k := IndexOf(section, "REAL RESULT");
      Trim(if k < 0 then [] else section[..k])
  }

  /** A marker written in another case than `REAL RESULT` makes the written cut discard the
      whole answer, while the regex has matched. */
  lemma AsWrittenLosesAnswer(section: string)
    requires RealResultMatch(section).Some? && IndexOf(section, "REAL RESULT") == -1
    ensures AnswerBodyAsWritten(section) == []
  {
  }

  /** Without an upper-case `E` in the text, the case-sensitive search finds nothing. */
  lemma NotFoundWithoutCapitalE(s: string)
    requires 'E' !in s
    ensures IndexOf(s, "REAL RESULT") == -1
  {
    forall i | 0 <= i ensures !OccursAt(s, i, "REAL RESULT") {
      if i + 11 <= |s| {
        assert s[i..i + 11][1] == s[i + 1] != 'E';
      }
    }
  }

  lemma TitleCaseMarker(s: string)
    requires s == "xReal Result 1:"
    ensures !MarkerAt(s, 0, "REAL RESULT")
    ensures MarkerAt(s, 1, "REAL RESULT")
  {
    assert UpperChar(s[0]) != 'R';
    assert DigitRun(s, 14) == 0;
    assert DigitRun(s, 13) == 1;
    assert forall k | 0 <= k < 12 :: UpperChar(s[1 + k]) == "REAL RESULT "[k];
  }

  /** A section with its marker in title case: the written cut keeps nothing of the answer
      `x` that precedes the marker. */
  lemma AsWrittenCounterexample(s: string)
    requires s == "xReal Result 1:"
    ensures AnswerBodyAsWritten(s) == []
    ensures AnswerBody(s) == "x"
  {
    TitleCaseMarker(s);
    NotFoundWithoutCapitalE(s);
    assert FindMarker(s, "REAL RESULT", 1) == 1;
    assert FindMarker(s, "REAL RESULT", 0) == 1;
    assert s[..1] == "x";
  }

  // ---------------------------------------------------------------------------
  // parseEnhancedAnswers
  // ---------------------------------------------------------------------------

  /** The answer built from section `section` for `q`; `extras` holds for the first question of
      the first batch, the only one that keeps its REAL RESULT and TAKEAWAY texts. */
  function Entry(section: string, q: Question, extras: bool): (a: Answer)
  {
    var rr := RealResultMatch(section);
    var tk := TakeawayMatch(section);
    Answer(q.question, AnswerBody(section), q.category,
      if extras && rr.Some? then Some(Trim(rr.value.group)) else None,
      if extras && tk.Some? then Some(Trim(tk.value.group)) else None)
  }

  /** Pairs section i with question i, as far as both lists go, building each entry with
      `entry`; the flag is set for the first entry of the first batch only. */
  function PairWith(sections: seq<string>, questions: seq<Question>, isFirstBatch: bool,
                    entry: (string, Question, bool) -> Answer): (r: seq<Answer>)
    ensures |r| == if |questions| < |sections| then |questions| else |sections|
    ensures forall i | 0 <= i < |r| :: r[i] == entry(sections[i], questions[i], isFirstBatch && i == 0)
  {
    var n := if |questions| < |sections| then |questions| else |sections|;
    seq(n, i requires 0 <= i < n => entry(sections[i], questions[i], isFirstBatch && i == 0))
  }

  /** Section i becomes the answer to question i. */
  function Pair(sections: seq<string>, questions: seq<Question>, isFirstBatch: bool): (r: seq<Answer>)
    ensures |r| == if |questions| < |sections| then |questions| else |sections|
    ensures forall i | 0 <= i < |r| :: r[i] == Entry(sections[i], questions[i], isFirstBatch && i == 0)
  {
    PairWith(sections, questions, isFirstBatch, Entry)
  }

  /** What `parseEnhancedAnswers` returns: one entry per question that has a non-blank section,
      paired by position; nothing is padded. */
  function ParsedAnswers(content: string, questions: seq<Question>, isFirstBatch: bool): seq<Answer> {
    Pair(Sections(content), questions, isFirstBatch)
  }

  /** The loop of `parseEnhancedAnswers`: one entry per section while questions remain.  The
      entry is built by `entry`, which `ParseEnhancedAnswers` sets to `Entry`. */
  method PairSections(sections: seq<string>, questions: seq<Question>, isFirstBatch: bool,
                      entry: (string, Question, bool) -> Answer)
    returns (answers: seq<Answer>)
    ensures answers == PairWith(sections, questions, isFirstBatch, entry)
  {
    ghost var spec := PairWith(sections, questions, isFirstBatch, entry);
    answers := [];
    var i := 0;
    while i < |questions| && i < |sections|
      invariant i <= |spec| && answers == spec[..i]
    {
      answers := answers + [entry(sections[i], questions[i], isFirstBatch && i == 0)];
      i := i + 1;
    }
    assert answers == spec;
  }

  /** `parseEnhancedAnswers`: split the reply, drop blank pieces, pair them with the questions. */
  method ParseEnhancedAnswers(content: string, questions: seq<Question>, isFirstBatch: bool)
    returns (answers: seq<Answer>)
    ensures answers == ParsedAnswers(content, questions, isFirstBatch)
  {
    var sections := Sections(content);
    answers := PairSections(sections, questions, isFirstBatch, Entry);
  }

  /** Only the first entry of the first batch can carry a REAL RESULT or a TAKEAWAY. */
  lemma ExtrasOnlyOnFirstEntry(content: string, questions: seq<Question>, isFirstBatch: bool)
    ensures forall i | 0 <= i < |ParsedAnswers(content, questions, isFirstBatch)| ::
      (i > 0 || !isFirstBatch) ==>
        ParsedAnswers(content, questions, isFirstBatch)[i].realResult.None?
        && ParsedAnswers(content, questions, isFirstBatch)[i].takeaway.None?
  {
  }

  // ---------------------------------------------------------------------------
  // The reply format the prompt asks for: ANSWER 1: ... ANSWER 2: ...
  // ---------------------------------------------------------------------------

  /** The header `ANSWER <k>:` the prompt asks the model to put before answer k. */
  function Header(k: nat): string {
    "ANSWER " + NatToString(k) + ":"
  }

  /** A reply in the requested format: the bodies numbered from `k`. */
  function Render(bodies: seq<string>, k: nat): string {
    if bodies == [] then [] else Header(k) + bodies[0] + Render(bodies[1..], k + 1)
  }

  /** The digit run of a marker stops at the first non-digit, whatever follows. */
  lemma {:induction false} DigitRunPrefix(b: string, t: string, p: nat)
    requires p <= |b| && t != [] && !IsDigit(t[0])
    decreases |b| - p
    ensures DigitRun(b + t, p) == DigitRun(b, p)
  {
    if p < |b| {
      DigitRunPrefix(b, t, p + 1);
      assert (b + t)[p] == b[p];
    }
  }

  /** The digits of a header are read up to its colon. */
  lemma {:induction false} DigitRunOfNumeral(x: string, ds: string, u: string)
    requires forall i | 0 <= i < |ds| :: IsDigit(ds[i])
    requires u != [] && u[0] == ':'
    decreases |ds|
    ensures DigitRun(x + ds + u, |x|) == |ds|
  {
    if ds != [] {
      DigitRunOfNumeral(x + [ds[0]], ds[1..], u);
      assert x + ds + u == x + [ds[0]] + ds[1..] + u;
    }
  }

  /** A header is a marker. */
  lemma HeaderIsMarker(b: string, k: nat, t: string)
    ensures MarkerAt(b + Header(k) + t, |b|, "ANSWER")
    ensures MarkerEnd(b + Header(k) + t, |b|, "ANSWER") == |b| + |Header(k)|
  {
    var s := b + Header(k) + t;
    var ds := NatToString(k);
    assert s == b + "ANSWER " + ds + (":" + t);
    DigitRunOfNumeral(b + "ANSWER ", ds, ":" + t);
    forall i | 0 <= i < 7 ensures UpperChar(s[|b| + i]) == "ANSWER "[i] {
      assert s[|b| + i] == "ANSWER "[i];
    }
    assert s[|b| + 7 + |ds|] == ':';
  }

  /** An `A` after the start of `ANSWER ` cannot lie inside it. */
  lemma MarkerBeforeA(s: string, j: nat, m: nat)
    requires j < m < |s| && s[m] == 'A' && OccursAtIgnoringCase(s, j, "ANSWER ")
    ensures j + 7 <= m
  {
    forall p | j < p < j + 7 ensures s[p] != 'A' {
      assert UpperChar(s[j + (p - j)]) == "ANSWER "[p - j];
    }
  }

  /** No suffix of `ANSWER ` begins with `A`, so a marker cannot start inside `b` and run
      into a header that follows it. */
  lemma MarkerInPrefix(b: string, k: nat, t: string, j: nat)
    requires j < |b| && MarkerAt(b + Header(k) + t, j, "ANSWER")
    ensures MarkerAt(b, j, "ANSWER")
  {
    var s := b + Header(k) + t;
    assert "ANSWER" + " " == "ANSWER ";
    assert s[|b|] == 'A';
    assert forall d | 1 <= d < 7 :: "ANSWER "[d] != 'A';
    MarkerBeforeA(s, j, |b|);
    var p := j + 7;
    var t' := Header(k) + t;
    assert s == b + t';
    DigitRunPrefix(b, t', p);
    var n := DigitRun(b, p);
    assert s[p + n] == ':';
    assert p + n < |b| by {
      assert p + n != |b|;
    }
    assert b[p + n] == ':';
    forall i | 0 <= i < 7 ensures UpperChar(b[j + i]) == "ANSWER "[i] {
      assert b[j + i] == s[j + i];
    }
  }

  /** The split of a reply in the requested format gives back its parts. */
  lemma {:induction false} SplitRendered(b: string, bodies: seq<string>, k: nat)
    requires NoMarker(b, "ANSWER")
    requires forall i | 0 <= i < |bodies| :: NoMarker(bodies[i], "ANSWER")
    decreases |bodies|
    ensures SplitAnswers(b + Render(bodies, k)) == [b] + bodies
  {
    if bodies == [] {
      assert b + Render(bodies, k) == b;
    } else {
      var rest := bodies[0] + Render(bodies[1..], k + 1);
      RenderFirst(b, bodies, k);
      SplitAtHeader(b, k, rest);
      SplitRendered(bodies[0], bodies[1..], k + 1);
      FirstThenRest(b, bodies);
    }
  }

  lemma RenderFirst(b: string, bodies: seq<string>, k: nat)
    requires bodies != []
    ensures b + Render(bodies, k) == b + Header(k) + (bodies[0] + Render(bodies[1..], k + 1))
  {
  }

  lemma FirstThenRest<T>(x: T, xs: seq<T>)
    requires xs != []
    ensures [x] + ([xs[0]] + xs[1..]) == [x] + xs
  {
    assert [xs[0]] + xs[1..] == xs;
  }

  /** Text without a marker, then a header: the split cuts at the header. */
  lemma SplitAtHeader(b: string, k: nat, rest: string)
    requires NoMarker(b, "ANSWER")
    ensures SplitAnswers(b + Header(k) + rest) == [b] + SplitAnswers(rest)
  {
    var s := b + Header(k) + rest;
    HeaderIsMarker(b, k, rest);
    forall j | 0 <= j < |b| ensures !MarkerAt(s, j, "ANSWER") {
      if MarkerAt(s, j, "ANSWER") {
        MarkerInPrefix(b, k, rest, j);
      }
    }
    assert FindMarker(s, "ANSWER", 0) == |b|;
    assert s[..|b|] == b;
    assert s[|b| + |Header(k)|..] == rest;
  }

  lemma {:induction false} NonBlankKeeps(parts: seq<string>)
    requires forall i | 0 <= i < |parts| :: !IsBlank(parts[i])
    ensures NonBlank(parts) == parts
  {
    if parts != [] {
      NonBlankKeeps(parts[1..]);
    }
  }

  /** Round trip: a reply written in the requested format, with non-blank answers that hold
      no marker of their own, is read back as those answers, in order. */
  lemma SectionsOfRendered(bodies: seq<string>)
    requires forall i | 0 <= i < |bodies| :: !IsBlank(bodies[i]) && NoMarker(bodies[i], "ANSWER")
    ensures Sections(Render(bodies, 1)) == bodies
  {
    SplitRendered([], bodies, 1);
    assert [] + Render(bodies, 1) == Render(bodies, 1);
    var parts := SplitAnswers(Render(bodies, 1));
    assert parts[0] == [] && IsBlank(parts[0]) && parts[1..] == bodies;
    NonBlankKeeps(bodies);
  }

  /** Each question gets the answer written under its own number; without a REAL RESULT
      marker the answer is the whole text, trimmed. */
  lemma ParsedRendered(bodies: seq<string>, questions: seq<Question>, isFirstBatch: bool)
    requires forall i | 0 <= i < |bodies| :: !IsBlank(bodies[i]) && NoMarker(bodies[i], "ANSWER")
    ensures var r := ParsedAnswers(Render(bodies, 1), questions, isFirstBatch);
      && |r| == (if |questions| < |bodies| then |questions| else |bodies|)
      && forall i | 0 <= i < |r| ::
           r[i].question == questions[i].question && r[i].category == questions[i].category
           && r[i].answer == AnswerBody(bodies[i])
           && (NoMarker(bodies[i], "REAL RESULT") ==> r[i].answer == Trim(bodies[i]))
  {
    SectionsOfRendered(bodies);
  }
}
