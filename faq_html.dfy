/**
 * The FAQ part of a generated page: the table of contents, the FAQ items with their anchors,
 * the inline calls to action placed after every fourth item, and the rewriting of
 * `[Link: url]` references into links and of blank-line separated text into paragraphs.
 */
module FaqHtml {
  import opened Wrappers
  import opened Text
  import opened AnswerParsing

  // ---------------------------------------------------------------------------
  // Inline calls to action
  // ---------------------------------------------------------------------------

  datatype Cta = Cta(title: string, text: string, button: string)

  /** The three calls to action, used in turn. */
  const OrderTitle: string := "Ready to Order Your Dumpster?"
  const OrderText: string := "Call us at (866) 858-3867 for same-day delivery in "
  const SizingTitle: string := "Have Questions About Sizing?"
  const SizingText: string := "Our experts can help you choose the perfect dumpster for your project."
  const FastTitle: string := "Need Fast Delivery?"
  const FastText: string := "Same-day dumpster delivery available in "
  const FastTextEnd: string := " - call before noon."
  const OrderButton: string := "Get Free Quote"
  const SizingButton: string := "Call (866) 858-3867"
  const FastButton: string := "Check Availability"

  function Ctas(city: string): (r: seq<Cta>)
    ensures |r| == 3
  {
    [ Cta(OrderTitle, OrderText + city + ".", OrderButton),
      Cta(SizingTitle, SizingText, SizingButton),
      Cta(FastTitle, FastText + city + FastTextEnd, FastButton) ]
  }

  const InlineCtaOpen: string :=
    "<aside class=\"inline-cta\">\n  <div class=\"inline-cta-content\">\n    <h4>"
  const InlineCtaText: string := "</h4>\n    <p>"
  const InlineCtaButton: string := "</p>\n    <a href=\"tel:8668583867\" class=\"cta-button cta-secondary\">"
  const InlineCtaClose: string := "</a>\n  </div>\n</aside>"

  /** `buildInlineCTA(index, city)`: call to action number `index % 3`, whose heading opens
      with `R`eady, `H`ave or `N`eed. */
  function InlineCta(index: nat, city: string): (r: string)
    ensures OccursAt(r, |InlineCtaOpen|, Ctas(city)[index % 3].title)
    ensures |r| > |InlineCtaOpen| && r[|InlineCtaOpen|] == (if index % 3 == 0 then 'R' else if index % 3 == 1 then 'H' else 'N')
  {
    var cta := Ctas(city)[index % 3];
    var rest := InlineCtaText + cta.text + InlineCtaButton + cta.button + InlineCtaClose;
    assert cta.title[0] == (if index % 3 == 0 then 'R' else if index % 3 == 1 then 'H' else 'N');
    OccursBetweenHead(InlineCtaOpen, cta.title, rest);
    InlineCtaOpen + cta.title + rest
  }

  /** Two calls to action read the same exactly when their indices agree modulo 3. */
  lemma InlineCtaVariants(i: nat, j: nat, city: string)
    ensures InlineCta(i, city) == InlineCta(j, city) <==> i % 3 == j % 3
  {
    var n := |InlineCtaOpen|;
    assert InlineCta(i, city) == InlineCta(j, city) ==> InlineCta(i, city)[n] == InlineCta(j, city)[n];
  }

  // ---------------------------------------------------------------------------
  // Anchors and the table of contents
  // ---------------------------------------------------------------------------

  /** The anchor of the FAQ item at index `k`, numbered from 1. */
  function Anchor(k: nat): (r: string)
    ensures '"' !in r
  {
    var d := NatToString(k + 1);
    assert forall i | 0 <= i < |d| :: d[i] != '"';
    "question-" + d
  }

  /** Different items have different anchors. */
  lemma AnchorInjective(i: nat, j: nat)
    requires Anchor(i) == Anchor(j)
    ensures i == j
  {
    assert Anchor(i)[9..] == NatToString(i + 1);
    assert Anchor(j)[9..] == NatToString(j + 1);
    NatToStringInjective(i + 1, j + 1);
  }

  const TocLinkOpen: string := "<li><a href=\"#"

  function TocEntry(k: nat, question: string): string {
    TocLinkOpen + Anchor(k) + TocEntryBody(question)
  }

  function TocEntryBody(question: string): (r: string)
    ensures r != [] && r[0] == '"'
  {
    "\">" + question + "</a></li>"
  }

  function TocEntries(answers: seq<Answer>): (r: seq<string>)
    ensures |r| == |answers|
    ensures forall k | 0 <= k < |r| :: r[k] == TocEntry(k, answers[k].question)
  {
    seq(|answers|, k requires 0 <= k < |answers| => TocEntry(k, answers[k].question))
  }

  /** `buildTableOfContents`. */
  const TocOpen: string := "<nav class=\"table-of-contents\">\n  <h2>Quick Navigation</h2>\n  <ul>\n    "
  const TocClose: string := "\n  </ul>\n</nav>"

  /** The navigation block holds the entry of every answer. */
  function TableOfContents(answers: seq<Answer>): (r: string)
    ensures TocOpen <= r
    ensures forall k | 0 <= k < |answers| :: Contains(r, TocEntry(k, answers[k].question))
  {
    JoinHoldsEach(TocEntries(answers), "\n    ");
    OccursWithin(TocOpen, Join(TocEntries(answers), "\n    "), TocClose);
    TocOpen + Join(TocEntries(answers), "\n    ") + TocClose
  }

  /** The link target of a table-of-contents entry: from after `href="#` to the next quote. */
  function LinkTarget(entry: string): string
    requires |entry| >= |TocLinkOpen|
  {
    var rest := entry[|TocLinkOpen|..];
    rest[..FirstOf(rest, '"')]
  }

  const FaqItemOpen: string := "  <div class=\"faq-item\" id=\""

  /** The id of a FAQ item: from after `id="` to the next quote. */
  function ItemId(item: string): string
    requires |item| >= |FaqItemOpen|
  {
    var rest := item[|FaqItemOpen|..];
    rest[..FirstOf(rest, '"')]
  }

  lemma FirstQuoteAfter(a: string, b: string)
    requires '"' !in a && b != [] && b[0] == '"'
    ensures FirstOf(a + b, '"') == |a|
    ensures (a + b)[..|a|] == a
  {
    FirstQuoteFree(a, b, '"');
  }

  // ---------------------------------------------------------------------------
  // [Link: url] references
  // ---------------------------------------------------------------------------

  /** Where the host of `https?://` starting at `i` begins, if a scheme starts there. */
  function SchemeEnd(s: string, i: nat): Option<nat> {
    if OccursAt(s, i, "https://") then Some(i + 8)
    else if OccursAt(s, i, "http://") then Some(i + 7)
    else None
  }

  /** `url.match(/https?:\/\/([^\/]+)/)?.[1] || 'source'`: the first scheme followed by at least
      one character other than `/`, and the run of such characters after it. */
  function DomainFrom(url: string, i: nat): Option<string>
    decreases |url| - i
  {
    if i >= |url| then None
    else
      match SchemeEnd(url, i)
      case Some(q) =>
        var host := url[q..][..FirstOf(url[q..], '/')];
        if host != [] then Some(host) else DomainFrom(url, i + 1)
      case None => DomainFrom(url, i + 1)
  }

  function Domain(url: string): string {
    DomainFrom(url, 0).GetOr("source")
  }

  /** The link the pipeline writes for a reference. */
  const LinkAttributes: string := "\" target=\"_blank\" rel=\"noopener noreferrer\" class=\"authority-link\">"

  const LinkTagOpen: string := "<a href=\""

  function LinkTag(url: string): string {
    LinkTagOpen + url + LinkAttributes + Domain(url) + "</a>"
  }

  const LinkOpen: string := "[Link: "

  /** `/\[Link: (https?:\/\/[^\]]+)\]/` tried at the head of `s`: the URL and the length matched. */
  function LinkAtHead(s: string): (r: Option<(string, nat)>)
    ensures r.Some? ==> 0 < r.value.1 <= |s|
  {
    if !OccursAt(s, 0, LinkOpen) then None
    else
      match SchemeEnd(s, 7)
      case None => None
      case Some(q) =>
        var c := FirstOf(s[q..], ']');
        if 0 < c && q + c < |s| then Some((s[7..q + c], q + c + 1)) else None
  }

  /** `answer.replace(/\[Link: (https?:\/\/[^\]]+)\]/g, ...)`: scanning left to right, each
      reference becomes its link and the scan resumes after it. */
  function ReplaceLinks(s: string): string
    decreases |s|
  {
    if s == [] then []
    else
      match LinkAtHead(s)
      case Some((url, len)) => LinkTag(url) + ReplaceLinks(s[len..])
      case None => [s[0]] + ReplaceLinks(s[1..])
  }

  /** Text without `[` is left alone. */
  lemma {:induction false} ReplaceLinksPlain(s: string)
    requires '[' !in s
    ensures ReplaceLinks(s) == s
  {
    if s != [] {
      assert s[0] != '[';
      assert !OccursAt(s, 0, LinkOpen);
      assert '[' !in s[1..];
      ReplaceLinksPlain(s[1..]);
    }
  }

  /** A URL made of a scheme, a non-empty host and a path. */
  predicate WellFormedUrl(scheme: string, host: string, path: string) {
    && (scheme == "https://" || scheme == "http://")
    && host != [] && '/' !in host && ']' !in host
    && ']' !in path && (path == [] || path[0] == '/')
  }

  lemma SchemeAtHead(scheme: string, t: string)
    requires scheme == "https://" || scheme == "http://"
    ensures SchemeEnd(scheme + t, 0) == Some(|scheme|)
  {
    assert (scheme + t)[..|scheme|] == scheme;
    if scheme == "http://" {
      assert (scheme + t)[4] == ':';
    }
  }

  /** The host of a well-formed URL is its domain. */
  lemma DomainOfUrl(scheme: string, host: string, path: string)
    requires WellFormedUrl(scheme, host, path)
    ensures Domain(scheme + host + path) == host
  {
    var url := scheme + host + path;
    assert url == scheme + (host + path);
    SchemeAtHead(scheme, host + path);
    assert url[|scheme|..] == host + path;
    FirstQuoteFree(host, path, '/');
  }

  /** A scheme found after any prefix. */
  lemma SchemeAfter(p: string, scheme: string, t: string)
    requires scheme == "https://" || scheme == "http://"
    ensures SchemeEnd(p + scheme + t, |p|) == Some(|p| + |scheme|)
  {
    var s := p + scheme + t;
    assert s[|p|..|p| + |scheme|] == scheme;
    if scheme == "http://" {
      assert s[|p| + 4] == ':';
    }
  }

  /** The slices of a reference written out piece by piece. */
  lemma ReferenceParts(a: string, b: string, h: string, p: string, e: string, r: string)
    ensures var s := a + b + h + p + e + r;
      && s == a + b + (h + p + e + r)
      && s[|a| + |b|..] == (h + p) + (e + r)
      && s[..|a|] == a
      && s[|a|..|a| + |b| + |h| + |p|] == b + h + p
      && s[|a| + |b| + |h| + |p| + |e|..] == r
  {
  }

  /** One step of `LinkAtHead`, named so that callers need not unfold it. */
  lemma LinkAtHeadFound(s: string, q: nat, c: nat)
    requires OccursAt(s, 0, LinkOpen) && SchemeEnd(s, 7) == Some(q) && q <= |s|
    requires c == FirstOf(s[q..], ']') && 0 < c && q + c < |s|
    ensures LinkAtHead(s) == Some((s[7..q + c], q + c + 1))
  {
  }

  /** A well-formed reference matches at the head, up to and including its `]`. */
  lemma ReferenceAtHead(scheme: string, host: string, path: string, rest: string)
    requires WellFormedUrl(scheme, host, path)
    ensures var s := LinkOpen + scheme + host + path + "]" + rest;
      LinkAtHead(s) == Some((scheme + host + path, 7 + |scheme| + |host| + |path| + 1))
      && s[7 + |scheme| + |host| + |path| + 1..] == rest
  {
    var s := LinkOpen + scheme + host + path + "]" + rest;
    ReferenceParts(LinkOpen, scheme, host, path, "]", rest);
    SchemeAfter(LinkOpen, scheme, host + path + "]" + rest);
    var q := 7 + |scheme|;
    FirstQuoteFree(host + path, "]" + rest, ']');
    var c := FirstOf(s[q..], ']');
    LinkAtHeadFound(s, q, c);
  }

  /** A well-formed reference is replaced by a link whose text is the URL's host. */
  lemma LinkReplaced(scheme: string, host: string, path: string, rest: string)
    requires WellFormedUrl(scheme, host, path)
    ensures ReplaceLinks(LinkOpen + scheme + host + path + "]" + rest)
         == LinkTagOpen + (scheme + host + path) + LinkAttributes + host + "</a>" + ReplaceLinks(rest)
  {
    var s := LinkOpen + scheme + host + path + "]" + rest;
    ReferenceAtHead(scheme, host, path, rest);
    DomainOfUrl(scheme, host, path);
    assert ReplaceLinks(s) == LinkTag(scheme + host + path) + ReplaceLinks(rest);
  }

  /** The first `c` in `a + b`, when `a` has none and `b` is empty or starts with `c`. */
  lemma FirstQuoteFree(a: string, b: string, c: char)
    requires c !in a && (b == [] || b[0] == c)
    ensures FirstOf(a + b, c) == |a|
    ensures (a + b)[..|a|] == a
  {
    var s := a + b;
    assert forall k | 0 <= k < |a| :: s[k] == a[k];
    assert b != [] ==> s[|a|] == c;
    assert s[..|a|] == a;
  }

  // ---------------------------------------------------------------------------
  // Paragraphs
  // ---------------------------------------------------------------------------

  function Paragraph(p: string): string {
    "<p>" + Trim(p) + "</p>"
  }

  function Paragraphs(pieces: seq<string>): (r: seq<string>)
    ensures |r| == |NonBlank(pieces)|
    ensures forall i | 0 <= i < |r| :: r[i] == Paragraph(NonBlank(pieces)[i])
  {
    var ps := NonBlank(pieces);
    seq(|ps|, i requires 0 <= i < |ps| => Paragraph(ps[i]))
  }

  /** `formatAnswerWithLinks`: references become links, then every non-blank piece between
      blank lines (`\n\n`) becomes a trimmed paragraph.  The result is empty exactly when every
      piece is blank, and otherwise opens with a paragraph. */
  function FormatAnswerWithLinks(answer: string): (r: string)
    ensures r == [] <==> forall p | p in SplitOn(ReplaceLinks(answer), "\n\n") :: IsBlank(p)
    ensures r != [] ==> "<p>" <= r
  {
    var pieces := SplitOn(ReplaceLinks(answer), "\n\n");
    var paras := Paragraphs(pieces);
    if paras != [] then
      assert NonBlank(pieces)[0] in NonBlank(pieces);
      JoinStartsWithFirst(paras, "\n    ");
      Join(paras, "\n    ")
    else
      Join(Paragraphs(SplitOn(ReplaceLinks(answer), "\n\n")), "\n    ")
  }

  /** No piece holds `\n\n`, and none but the last ends in `\n`. */
  predicate SeparablePieces(ps: seq<string>) {
    forall i | 0 <= i < |ps| ::
      IndexOf(ps[i], "\n\n") == -1 && (i < |ps| - 1 ==> ps[i] == [] || ps[i][|ps[i]| - 1] != '\n')
  }

  /** The first blank line of `p + "\n\n" + rest` is the one after `p`. */
  lemma FirstBlankLine(p: string, rest: string)
    requires IndexOf(p, "\n\n") == -1 && (p == [] || p[|p| - 1] != '\n')
    ensures IndexOf(p + "\n\n" + rest, "\n\n") == |p|
  {
    var s := p + "\n\n" + rest;
    assert OccursAt(s, |p|, "\n\n");
    forall j | 0 <= j < |p| ensures !OccursAt(s, j, "\n\n") {
      if j + 2 <= |p| {
        assert s[j..j + 2] == p[j..j + 2];
        assert !OccursAt(p, j, "\n\n");
      } else {
        assert s[j] == p[|p| - 1];
      }
    }
  }

  /** Splitting text joined with `\n\n` gives back the pieces. */
  lemma {:induction false} SplitJoinedParagraphs(ps: seq<string>)
    requires ps != [] && SeparablePieces(ps)
    decreases |ps|
    ensures SplitOn(Join(ps, "\n\n"), "\n\n") == ps
  {
    if |ps| == 1 {
      assert Join(ps, "\n\n") == ps[0];
    } else {
      var p := ps[0];
      var rest := Join(ps[1..], "\n\n");
      var s := Join(ps, "\n\n");
      assert s == p + "\n\n" + rest;
      FirstBlankLine(p, rest);
      assert s[..|p|] == p;
      assert s[|p| + 2..] == rest;
      assert SeparablePieces(ps[1..]) by {
        forall i | 0 <= i < |ps| - 1 ensures ps[1..][i] == ps[i + 1] {
        }
      }
      SplitJoinedParagraphs(ps[1..]);
      assert [p] + ps[1..] == ps;
    }
  }

  /** Paragraph round trip: text written as non-blank, reference-free pieces separated by blank
      lines comes out as one paragraph per piece, in order. */
  lemma FormatParagraphs(ps: seq<string>)
    requires ps != [] && SeparablePieces(ps)
    requires forall i | 0 <= i < |ps| :: !IsBlank(ps[i]) && '[' !in ps[i]
    ensures var paras := Paragraphs(ps);
      && FormatAnswerWithLinks(Join(ps, "\n\n")) == Join(paras, "\n    ")
      && |paras| == |ps|
      && forall i | 0 <= i < |ps| :: paras[i] == Paragraph(ps[i])
  {
    var s := Join(ps, "\n\n");
    JoinWithoutBracket(ps);
    ReplaceLinksPlain(s);
    SplitJoinedParagraphs(ps);
    NonBlankKeeps(ps);
  }

  lemma {:induction false} JoinWithoutBracket(ps: seq<string>)
    requires forall i | 0 <= i < |ps| :: '[' !in ps[i]
    ensures '[' !in Join(ps, "\n\n")
  {
    if |ps| > 1 {
      JoinWithoutBracket(ps[1..]);
      assert '[' !in ps[0];
    }
  }

  // ---------------------------------------------------------------------------
  // FAQ items and the inline calls to action between them
  // ---------------------------------------------------------------------------

  const RealResultsOpen: string := "<aside class=\"real-results-box\">\n  <h4>\U{1F4BC} Real Results</h4>\n  <p>"
  const TakeawayOpen: string := "<aside class=\"takeaway-box\">\n  <h4>\U{1F4A1} Key Takeaway</h4>\n  <p>"
  const BoxClose: string := "</p>\n</aside>"

  function RealResultsBox(story: string): string {
    RealResultsOpen + story + BoxClose
  }

  function TakeawayBox(advice: string): string {
    TakeawayOpen + advice + BoxClose
  }

  /** `x ? box(x) : ''` for an optional text: an absent or empty text adds nothing. */
  function OptionalBox(x: Option<string>, takeaway: bool): string {
    if x.Some? && x.value != [] then (if takeaway then TakeawayBox(x.value) else RealResultsBox(x.value))
    else ""
  }

  const QuestionOpen: string := "\">\n    <h3>"
  const QuestionClose: string := "</h3>\n    "
  const ItemIndent: string := "\n    "
  const FaqItemClose: string := "\n  </div>\n\n"

  /** One FAQ item; its id is the anchor of its index. */
  function FaqItem(k: nat, a: Answer): (r: string)
    ensures |r| >= |FaqItemOpen| && ItemId(r) == Anchor(k)
    ensures exists i: nat :: OccursAt(r, i, a.question)
  {
    FieldAfterOpening(FaqItemOpen, Anchor(k), FaqItemBody(a));
    ItemShowsQuestion(FaqItemOpen + Anchor(k), a);
    FaqItemOpen + Anchor(k) + FaqItemBody(a)
  }

  /** Item text after the id: the question, the formatted answer and the optional boxes. */
  function FaqItemBody(a: Answer): (r: string)
    ensures r != [] && r[0] == '"'
  {
    QuestionOpen + a.question + ItemRest(a)
  }

  /** Item text after the question. */
  function ItemRest(a: Answer): string {
    QuestionClose + FormatAnswerWithLinks(a.answer) + ItemIndent + OptionalBox(a.realResult, false) + ItemIndent
    + OptionalBox(a.takeaway, true) + FaqItemClose
  }

  /** The text between an opening and the next quote, when the opening is followed by a
      quote-free field and then a quote. */
  lemma FieldAfterOpening(open: string, field: string, rest: string)
    requires '"' !in field && rest != [] && rest[0] == '"'
    ensures var s := open + field + rest;
      |s| >= |open| && s[|open|..][..FirstOf(s[|open|..], '"')] == field
  {
    var s := open + field + rest;
    assert s[|open|..] == field + rest;
    FirstQuoteAfter(field, rest);
  }

  /** The entry for index `k` links to `Anchor(k)`. */
  lemma TocEntryTarget(k: nat, question: string)
    ensures |TocEntry(k, question)| >= |TocLinkOpen|
    ensures LinkTarget(TocEntry(k, question)) == Anchor(k)
  {
    FieldAfterOpening(TocLinkOpen, Anchor(k), TocEntryBody(question));
  }

  /** Item `k` carries `Anchor(k)` as its id. */
  /** The question stands in an item's text. */
  lemma ItemShowsQuestion(head: string, a: Answer)
    ensures exists i: nat :: OccursAt(head + FaqItemBody(a), i, a.question)
  {
    OccursInFrame(head, QuestionOpen, a.question, ItemRest(a));
    assert OccursAt(head + FaqItemBody(a), |head| + |QuestionOpen|, a.question);
  }

  /** Each table-of-contents entry links to the FAQ item of the same index, and no other. */
  lemma TocMatchesItems(answers: seq<Answer>)
    ensures forall k | 0 <= k < |answers| ::
      |TocEntries(answers)[k]| >= |TocLinkOpen| && |FaqItem(k, answers[k])| >= |FaqItemOpen|
      && LinkTarget(TocEntries(answers)[k]) == ItemId(FaqItem(k, answers[k])) == Anchor(k)
    ensures forall i, j | 0 <= i < j < |answers| :: Anchor(i) != Anchor(j)
  {
    forall k | 0 <= k < |answers|
      ensures |TocEntries(answers)[k]| >= |TocLinkOpen| && |FaqItem(k, answers[k])| >= |FaqItemOpen|
      ensures LinkTarget(TocEntries(answers)[k]) == ItemId(FaqItem(k, answers[k])) == Anchor(k)
    {
      TocEntryTarget(k, answers[k].question);
    }
    forall i, j | 0 <= i < j < |answers| ensures Anchor(i) != Anchor(j) {
      if Anchor(i) == Anchor(j) {
        AnchorInjective(i, j);
      }
    }
  }

  /** An inline call to action follows item `k` of `n` when `k + 1` is a multiple of 4 and the
      item is not the last. */
  predicate CtaAfter(k: nat, n: nat) {
    (k + 1) % 4 == 0 && k + 1 < n
  }

  /** The blocks of the FAQ section, in order. */
  datatype Block = Item(k: nat) | InlineCall(index: nat)

  /** The blocks emitted for the first `m` of `n` items. */
  function LayoutUpTo(m: nat, n: nat): (bs: seq<Block>)
    ensures forall p | 0 <= p < |bs| :: bs[p].Item? ==> bs[p].k < m
  {
    if m == 0 then []
    else LayoutUpTo(m - 1, n) + [Item(m - 1)] + (if CtaAfter(m - 1, n) then [InlineCall((m - 1) / 4)] else [])
  }

  function Layout(n: nat): seq<Block> {
    LayoutUpTo(n, n)
  }

  function CountCalls(bs: seq<Block>): nat {
    if bs == [] then 0 else CountCalls(bs[..|bs| - 1]) + (if bs[|bs| - 1].InlineCall? then 1 else 0)
  }

  lemma {:induction false} CountCallsAppend(a: seq<Block>, b: seq<Block>)
    decreases |b|
    ensures CountCalls(a + b) == CountCalls(a) + CountCalls(b)
  {
    if b != [] {
      assert (a + b)[..|a + b| - 1] == a + b[..|b| - 1];
      CountCallsAppend(a, b[..|b| - 1]);
    } else {
      assert a + b == a;
    }
  }

  lemma {:induction false} CallsUpTo(m: nat, n: nat)
    requires m <= n
    ensures CountCalls(LayoutUpTo(m, n)) == if m < n then m / 4 else (if m == 0 then 0 else (m - 1) / 4)
  {
    if m > 0 {
      CallsUpTo(m - 1, n);
      var prev := LayoutUpTo(m - 1, n);
      var tail := [Item(m - 1)] + (if CtaAfter(m - 1, n) then [InlineCall((m - 1) / 4)] else []);
      assert LayoutUpTo(m, n) == prev + tail;
      CountCallsAppend(prev, tail);
      assert CountCalls([Item(m - 1)]) == 0 by {
        assert [Item(m - 1)][..0] == [];
      }
      if CtaAfter(m - 1, n) {
        CountCallsAppend([Item(m - 1)], [InlineCall((m - 1) / 4)]);
        assert [InlineCall((m - 1) / 4)][..0] == [];
        assert m % 4 == 0 && m < n;
        assert m / 4 == (m - 1) / 4 + 1;
      } else {
        assert tail == [Item(m - 1)];
        if m < n {
          assert m % 4 != 0;
          assert m / 4 == (m - 1) / 4;
        }
      }
    }
  }

  /** A section of `n >= 1` items holds `floor((n - 1) / 4)` inline calls to action. */
  lemma CtaCount(n: nat)
    ensures CountCalls(Layout(n)) == if n == 0 then 0 else (n - 1) / 4
  {
    CallsUpTo(n, n);
  }

  /** Every call to action directly follows item `4 * index + 3`, which is not the last one. */
  predicate CallsFollowItems(bs: seq<Block>, n: nat) {
    forall p | 0 <= p < |bs| && bs[p].InlineCall? ::
      p > 0 && bs[p - 1] == Item(4 * bs[p].index + 3) && 4 * bs[p].index + 4 < n
  }

  /** The items appear in increasing index order. */
  predicate ItemsIncrease(bs: seq<Block>) {
    forall p, q | 0 <= p < q < |bs| && bs[p].Item? && bs[q].Item? :: bs[p].k < bs[q].k
  }

  lemma {:induction false} LayoutCallsFollowItems(m: nat, n: nat)
    requires m <= n
    ensures CallsFollowItems(LayoutUpTo(m, n), n)
  {
    if m > 0 {
      LayoutCallsFollowItems(m - 1, n);
      var prev := LayoutUpTo(m - 1, n);
      var bs := LayoutUpTo(m, n);
      assert bs == prev + [Item(m - 1)] + (if CtaAfter(m - 1, n) then [InlineCall((m - 1) / 4)] else []);
      assert bs[|prev|] == Item(m - 1);
      forall p | 0 <= p < |bs| && bs[p].InlineCall?
        ensures p > 0 && bs[p - 1] == Item(4 * bs[p].index + 3) && 4 * bs[p].index + 4 < n
      {
        if p < |prev| {
          assert bs[p] == prev[p];
          assert p > 0 && prev[p - 1] == Item(4 * prev[p].index + 3);
          assert bs[p - 1] == prev[p - 1];
        } else {
          assert p == |prev| + 1 && CtaAfter(m - 1, n);
          assert bs[p] == InlineCall((m - 1) / 4);
          assert 4 * ((m - 1) / 4) + 3 == m - 1;
        }
      }
    }
  }

  lemma {:induction false} LayoutItemsIncrease(m: nat, n: nat)
    requires m <= n
    ensures ItemsIncrease(LayoutUpTo(m, n))
    ensures m > 0 ==> LayoutUpTo(m, n)[|LayoutUpTo(m - 1, n)|] == Item(m - 1)
  {
    if m > 0 {
      LayoutItemsIncrease(m - 1, n);
      var prev := LayoutUpTo(m - 1, n);
      var bs := LayoutUpTo(m, n);
      assert bs == prev + [Item(m - 1)] + (if CtaAfter(m - 1, n) then [InlineCall((m - 1) / 4)] else []);
      assert bs[|prev|] == Item(m - 1);
      forall p, q | 0 <= p < q < |bs| && bs[p].Item? && bs[q].Item? ensures bs[p].k < bs[q].k {
        if q < |prev| {
          assert bs[p] == prev[p] && bs[q] == prev[q];
        } else if q == |prev| {
          assert bs[p] == prev[p];
          assert prev[p].k < m - 1;
        }
      }
    }
  }

  /** The last of `n > 0` items closes the section: no call to action comes after it. */
  lemma LayoutEndsWithItem(n: nat)
    requires n > 0
    ensures Layout(n)[|Layout(n)| - 1] == Item(n - 1)
  {
    assert !CtaAfter(n - 1, n);
    LayoutItemsIncrease(n, n);
  }

  /** An item outside the answers renders as nothing; `Layout` never holds one. */
  function RenderBlock(b: Block, answers: seq<Answer>, city: string): string {
    match b
    case Item(k) => if k < |answers| then FaqItem(k, answers[k]) else ""
    case InlineCall(i) => InlineCta(i, city) + "\n\n"
  }

  /** The texts of the blocks, in order. */
  function Concat(bs: seq<Block>, render: Block -> string): string {
    if bs == [] then [] else Concat(bs[..|bs| - 1], render) + render(bs[|bs| - 1])
  }

  lemma {:induction false} ConcatAppend(a: seq<Block>, b: seq<Block>, render: Block -> string)
    decreases |b|
    ensures Concat(a + b, render) == Concat(a, render) + Concat(b, render)
  {
    if b != [] {
      assert (a + b)[..|a + b| - 1] == a + b[..|b| - 1];
      ConcatAppend(a, b[..|b| - 1], render);
    } else {
      assert a + b == a;
    }
  }

  /** One more item, and the call to action that may follow it. */
  lemma LayoutStep(index: nat, n: nat, render: Block -> string)
    requires index < n
    ensures Concat(LayoutUpTo(index + 1, n), render)
         == Concat(LayoutUpTo(index, n), render) + render(Item(index))
            + (if CtaAfter(index, n) then render(InlineCall(index / 4)) else "")
  {
    var prev := LayoutUpTo(index, n);
    var tail := [Item(index)] + (if CtaAfter(index, n) then [InlineCall(index / 4)] else []);
    assert LayoutUpTo(index + 1, n) == prev + tail;
    ConcatAppend(prev, tail, render);
    assert [Item(index)][..0] == [];
    if CtaAfter(index, n) {
      assert tail[..1] == [Item(index)];
    }
  }

  const FaqSectionOpen: string :=
    "<div class=\"faq-section\">\n  <h2 class=\"section-header\">Understanding Dumpster Rental in "

  function FaqSectionHeader(city: string): string {
    FaqSectionOpen + city + "</h2>\n\n"
  }

  /** How `buildSectionizedFAQsWithCTAs` renders each block of the layout. */
  function Render(answers: seq<Answer>, city: string): Block -> string {
    b => RenderBlock(b, answers, city)
  }

  lemma RenderItem(answers: seq<Answer>, city: string, index: nat)
    requires index < |answers|
    ensures Render(answers, city)(Item(index)) == FaqItem(index, answers[index])
  {
  }

  lemma RenderCall(answers: seq<Answer>, city: string, index: nat)
    ensures Render(answers, city)(InlineCall(index)) == InlineCta(index, city) + "\n\n"
  {
  }

  /** A section grown block by block as `buildSectionizedFAQsWithCTAs` grows it: after `header`,
      each of the first `m` of `n` items followed, when `CtaAfter`, by its call to action. */
  function Grown(render: Block -> string, header: string, m: nat, n: nat): string {
    if m == 0 then header
    else
      var html := Grown(render, header, m - 1, n) + render(Item(m - 1));
      if CtaAfter(m - 1, n) then html + render(InlineCall((m - 1) / 4)) else html
  }

  /** Growing the section item by item lays out exactly the blocks of `LayoutUpTo`. */
  lemma {:induction false} GrownIsLayout(render: Block -> string, header: string, m: nat, n: nat)
    requires m <= n
    ensures Grown(render, header, m, n) == header + Concat(LayoutUpTo(m, n), render)
  {
    if m > 0 {
      var index := m - 1;
      GrownIsLayout(render, header, index, n);
      LayoutStep(index, n, render);
      AppendStep(header, Concat(LayoutUpTo(index, n), render), render(Item(index)),
                 render(InlineCall(index / 4)), CtaAfter(index, n));
    }
  }

  /** The string algebra of one step of `GrownIsLayout`. */
  lemma AppendStep(h: string, c: string, item: string, extra: string, cta: bool)
    ensures h + (c + item + (if cta then extra else ""))
         == (if cta then h + c + item + extra else h + c + item)
  {
    if !cta {
      assert c + item + "" == c + item;
    }
  }

  const SectionClose: string := "</div>\n"

  /** What `buildSectionizedFAQsWithCTAs` returns. */
  function SectionizedFaqs(answers: seq<Answer>, city: string): string {
    Grown(Render(answers, city), FaqSectionHeader(city), |answers|, |answers|) + SectionClose
  }

  /** The section is the header, the blocks of `Layout` rendered in order, and the closing tag. */
  lemma SectionizedFaqsLayout(answers: seq<Answer>, city: string)
    ensures SectionizedFaqs(answers, city)
         == FaqSectionHeader(city) + Concat(Layout(|answers|), Render(answers, city)) + SectionClose
  {
    GrownIsLayout(Render(answers, city), FaqSectionHeader(city), |answers|, |answers|);
  }

  /** `buildSectionizedFAQsWithCTAs`: grows the section item by item, with a call to action after
      every fourth item but the last.  The state argument is not used. */
  method BuildSectionizedFaqs(answers: seq<Answer>, city: string, state: string) returns (html: string)
    ensures html == SectionizedFaqs(answers, city)
  {
    ghost var render := Render(answers, city);
    var header := FaqSectionHeader(city);
    html := header;
    var index := 0;
    while index < |answers|
      invariant index <= |answers|
      invariant html == Grown(render, header, index, |answers|)
    {
      RenderItem(answers, city, index);
      html := html + FaqItem(index, answers[index]);
      if (index + 1) % 4 == 0 && index < |answers| - 1 {
        RenderCall(answers, city, index / 4);
        html := html + (InlineCta(index / 4, city) + "\n\n");
      }
      index := index + 1;
    }
    html := html + SectionClose;
  }
}
