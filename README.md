# Dumpsters-CRM content pipeline, modelled in Dafny

This project models the core of the Dumpsters-CRM content pipeline. The pipeline researches a US
city, asks a language model for the FAQ answers and sections of the city's landing pages,
assembles them into HTML and schema.org objects, stores the results with the city's research job
and publishes the pages to WordPress. Around it sit small deterministic helpers: local-data
defaults, question templates, Reddit post-processing, the bulk-operations screen and the CSV
city import.

One Dafny module stands for each source file:

| module | source file |
|---|---|
| `ContentGenerator`, `AnswerParsing`, `FaqHtml`, `Schemas` | `lib/content/content-generator.ts` |
| `QuestionGenerator` | `lib/research/question-generator.ts` |
| `SectionRoute` | `app/api/generate-section/route.ts` |
| `PageRoute` | `app/api/generate-page/route.ts` |
| `ResearchRoute` | `app/api/research/route.ts` |
| `Orchestrator` | `lib/research/research-orchestrator.ts` |
| `Publisher` | `lib/wordpress/wordpress-publisher.ts` |
| `PublishRoute` | `app/api/wordpress/publish/route.ts` |
| `AnswerGenerator` | `lib/content/answer-generator.ts` |
| `RedditScraper` | `lib/research/reddit-scraper.ts` |
| `LocalDataScraper` | `lib/research/local-data-scraper.ts` |
| `GooglePaaScraper` | `lib/research/google-paa-scraper.ts` |
| `BulkPage` | `app/bulk/page.tsx` |
| `ImportPage` | `app/import/page.tsx` |

Shared modules hold what several files rely on:

- `Wrappers`: `Option` and `Result`; a `Failure` carries the message of the thrown error.
- `Text`: the JavaScript string operations the code uses (`trim`, `split`, `indexOf`, `includes`, `toLowerCase`, `replace(/\s+/g, …)`, `substring`) with their exact edge cases.
- `Json`: JSON values, JavaScript truthiness, property lookup and the greedy `{ … }` span cut out of a model reply.
- `Records` and `Tables`: the `cities` and `research_jobs` rows, and the two tables as an in-memory store whose lookups and updates are separate steps.
- `Sorting`: the stable descending sort of `Array.prototype.sort`.
- `Batching`: cutting a list into slices of five.
- `Encoding`: UTF-8 and Base64 (section 4 of RFC 4648), for the HTTP Basic credential of section 2 of RFC 7617.

The language model, `JSON.parse`, the WordPress site, the Reddit search, the database's refusal of
an insert and the polls of the bulk screen are function parameters. Each is a function from what
the code sends to what it gets back, or to the error thrown. Code that updates state step by step
is written as methods with loops and invariants. The classes are `Tables.Store`,
`Publisher.WordPressPublisher`, `Orchestrator.ResearchOrchestrator`, `BulkPage.BulkOperations`
and `ImportPage.CitiesTable`. Each method is proved equal to a specification function, and the
source's promises are proved about those functions as lemmas.

## Model

| member | source | states |
|---|---|---|
| AnswerParsing.DigitRun | lib/content/content-generator.ts:432 | the `\d+` of a marker: the maximal run of ASCII digits from a position, followed by a non-digit or the end |
| AnswerParsing.FindMarker | lib/content/content-generator.ts:432 | the leftmost case-insensitive `ANSWER <digits>:` at or after a position, or -1 exactly when there is none |
| AnswerParsing.FindIgnoringCase | lib/content/content-generator.ts:437-438 | where the lazy group before `(?=TAKEAWAY\|$)` stops: the first case-insensitive occurrence, or the end when there is none |
| AnswerParsing.SplitAnswers | lib/content/content-generator.ts:432 | `split(/ANSWER \d+:/i)` always yields at least one piece |
| AnswerParsing.NonBlank | lib/content/content-generator.ts:432 | `filter(s => s.trim())` keeps exactly the pieces that are not blank, never adds one |
| AnswerParsing.NonBlankAppend | lib/content/content-generator.ts:432 | filtering a concatenation filters each side and keeps them in order, so the kept pieces stay in input order |
| AnswerParsing.NonBlankSingle | lib/content/content-generator.ts:432 | one piece is kept exactly when it is not blank |
| AnswerParsing.MarkedText | lib/content/content-generator.ts:437-438 | a `REAL RESULT`/`TAKEAWAY` match exists exactly when the section holds such a marker; it starts at the leftmost one, and its group is the text after the marker up to the first case-insensitive stop word or the end |
| AnswerParsing.AnswerBody | lib/content/content-generator.ts:440-445 | the answer is the text before the leftmost case-insensitive REAL RESULT marker, trimmed, or the whole section trimmed when it has none (corrected cut, see Findings) |
| AnswerParsing.AsWrittenLosesAnswer | lib/content/content-generator.ts:441-442 | as written, a marker the regex matches but in another case than `REAL RESULT` makes `substring(0, -1)` discard the whole answer |
| AnswerParsing.NotFoundWithoutCapitalE | lib/content/content-generator.ts:442 | the case-sensitive `indexOf('REAL RESULT')` finds nothing in a text without an upper-case `E` |
| AnswerParsing.AsWrittenCounterexample | lib/content/content-generator.ts:437-445 | for the section `xReal Result 1:` the written cut gives `''` while the matched marker's cut gives `x` |
| AnswerParsing.PairWith | lib/content/content-generator.ts:434-464 | pairing by position: min(#questions, #sections) entries, entry i built from section i and question i, flagged only when it is entry 0 of the first batch |
| AnswerParsing.Pair | lib/content/content-generator.ts:434-464 | the same pairing with the entry of `parseEnhancedAnswers`: question, trimmed answer, category, and the extras only for entry 0 of the first batch; the answer is cut with the corrected `AnswerBody` |
| AnswerParsing.PairSections | lib/content/content-generator.ts:434-464 | the `for` loop with `i < questions.length && i < sections.length` pushes exactly the pairing by position |
| AnswerParsing.ParseEnhancedAnswers | lib/content/content-generator.ts:418-467 | `parseEnhancedAnswers` returns the pairing of the non-blank pieces of the split with the questions; nothing is padded; the answer is cut with the corrected `AnswerBody` |
| AnswerParsing.ExtrasOnlyOnFirstEntry | lib/content/content-generator.ts:452-460 | no entry other than entry 0 of the first batch carries a `realResult` or a `takeaway` |
| AnswerParsing.DigitRunPrefix | lib/content/content-generator.ts:432 | a digit run stops at the first non-digit, whatever text follows |
| AnswerParsing.DigitRunOfNumeral | lib/content/content-generator.ts:390-394 | the digits of a requested header `ANSWER <k>:` are read up to its colon |
| AnswerParsing.HeaderIsMarker | lib/content/content-generator.ts:394 | the header the prompt asks for is matched by the split's regex, and the match ends after its colon |
| AnswerParsing.MarkerBeforeA | lib/content/content-generator.ts:432 | an `A` after the start of a marker's `ANSWER ` lies past it |
| AnswerParsing.MarkerInPrefix | lib/content/content-generator.ts:432 | a marker cannot start in the text before a header and run into it |
| AnswerParsing.SplitAtHeader | lib/content/content-generator.ts:432 | text without a marker followed by a header is cut exactly at that header |
| AnswerParsing.SplitRendered | lib/content/content-generator.ts:394-432 | splitting a reply laid out in the requested format gives back the leading text and every answer body, in order |
| AnswerParsing.NonBlankKeeps | lib/content/content-generator.ts:432 | the blank filter leaves a list of non-blank pieces unchanged |
| AnswerParsing.SectionsOfRendered | lib/content/content-generator.ts:394-432 | round trip: a reply in the requested format with non-blank, marker-free answers is read back as exactly those answers, in order |
| AnswerParsing.ParsedRendered | lib/content/content-generator.ts:394-464 | each question gets the answer written under its own number, with the question's text and category; without a REAL RESULT marker the answer is the whole body, trimmed |
| ContentGenerator.NumberedListLines | lib/content/content-generator.ts:390 | the prompt's question list splits back into one line per question, line i reading `<i + 1>. <question i>`, in slice order |
| ContentGenerator.SplitJoinedLines | lib/content/content-generator.ts:390 | lines without a line break joined with `'\n'` split back into the same lines |
| ContentGenerator.EnhancedPrompt | lib/content/content-generator.ts:299-411 | the prompt of a slice numbers exactly the slice's questions and carries the first-batch flag that switches the REAL RESULT/TAKEAWAY block on |
| ContentGenerator.ReplyText | lib/content/content-generator.ts:287 | the reply text is the first block's text, `''` when the first block is not text, and an error exactly when the reply has no block |
| ContentGenerator.RequestAnswers | lib/content/content-generator.ts:273-290 | one pass of the loop: the prompt for the slice, the reply and the answers parsed from it, or the error the request throws |
| ContentGenerator.AnswerInSlices | lib/content/content-generator.ts:271-296 | the loop with `i += 5` requests the slices in order, flags only the one at index 0, concatenates their answers in slice order and rethrows the first failure |
| ContentGenerator.FailedSlice | lib/content/content-generator.ts:279-290 | once a slice's request fails, the run fails with that slice's error |
| ContentGenerator.GenerateAnswersWithEnhancements | lib/content/content-generator.ts:251-297 | `generateAnswersWithEnhancements` resolves to the answers of all slices of 5, in order, each slice sent with the first-batch flag exactly when it starts at index 0 |
| ContentGenerator.RequestsBounded | lib/content/content-generator.ts:287-288 | a slice's request never yields more answers than the slice has questions |
| ContentGenerator.AnswersUpToBounded | lib/content/content-generator.ts:271-293 | the answers of the first k slices are at most as many as their questions |
| ContentGenerator.EnhancedAnswersBounded | lib/content/content-generator.ts:251-297 | nothing is padded: the run never returns more answers than questions |
| ContentGenerator.RequestsAligned | lib/content/content-generator.ts:287-288 | a reply that answers its whole slice answers it question by question, in order |
| ContentGenerator.AnswersUpToAligned | lib/content/content-generator.ts:271-293 | when every reply is complete, the answers of the first k slices belong to their questions one for one |
| ContentGenerator.EnhancedAnswersAligned | lib/content/content-generator.ts:251-297 | when every reply answers its whole slice, answer j carries question j |
| ContentGenerator.RequestsExtras | lib/content/content-generator.ts:274-288 | a slice's answers carry extras only on the first answer of the first slice |
| ContentGenerator.AnswersUpToExtras | lib/content/content-generator.ts:271-293 | over the first k slices, no answer after the first carries a REAL RESULT or a TAKEAWAY |
| ContentGenerator.EnhancedAnswersExtras | lib/content/content-generator.ts:251-297 | across the whole run only the very first answer can carry a REAL RESULT or a TAKEAWAY |
| ContentGenerator.CountWords | lib/content/content-generator.ts:1045-1047 | `text.trim().split(/\s+/).length` is at least 1 |
| ContentGenerator.CountWordsIsWords | lib/content/content-generator.ts:1045-1047 | the count is the number of whitespace-separated words, and 1 for an empty or blank text |
| ContentGenerator.TrimmedWords | lib/content/content-generator.ts:1046 | trimming removes no word |
| ContentGenerator.PageWordCountAtLeast | lib/content/content-generator.ts:141 | a page's `wordCount`, the sum of its answers' counts, is at least the number of answers |
| ContentGenerator.MetaDescriptionNamesCity | lib/content/content-generator.ts:186-192 | every page's meta description names the city and gives the telephone number, and a neighbourhood page's also names the neighbourhood |
| ContentGenerator.MetaDescription | lib/content/content-generator.ts:186-192 | the description opens with the city, or with the neighbourhood and then the city, and ends with a full stop |
| ContentGenerator.Parts | lib/content/content-generator.ts:468-514 | every page's article starts with the header, the intro and the hero CTA, and ends with the final CTA |
| ContentGenerator.ContentsAt | lib/content/content-generator.ts:488-492 | every page has a table of contents directly followed by the FAQ block |
| ContentGenerator.RenderContents | lib/content/content-generator.ts:488-492 | a page renders its contents block with `buildTableOfContents` and its FAQ block with the sectionized FAQs |
| ContentGenerator.Rendered | lib/content/content-generator.ts:468-514 | the rendered blocks are the page's blocks, one for one and in template order |
| ContentGenerator.ContentsThenFaqs | lib/content/content-generator.ts:488-492 | in the page's HTML the contents block is followed, after the blank separator line, by the FAQ block |
| ContentGenerator.PageShowsContentsThenFaqs | lib/content/content-generator.ts:488-492 | every page's HTML holds its table of contents and then its FAQ section side by side |
| ContentGenerator.PageHtml | lib/content/content-generator.ts:468-513 | the article opens with the header, the introduction, an empty line and the hero call to action, separates the other blocks with a line of two spaces, and closes with the final call to action |
| ContentGenerator.BuildPage | lib/content/content-generator.ts:115-155 | a built page keeps its plan's title, slug and questions, counts at least one word per answer, shows its table of contents directly before its FAQ block, and its FAQ schema reads back one entity per planned question, in order, with that question's cleaned answer |
| ContentGenerator.GeneratePage | lib/content/content-generator.ts:115-155 | a page is built exactly when its answers are; an error in the answers is the page's error; a built page keeps the plan's title and questions |
| ContentGenerator.GenerateContent | lib/content/content-generator.ts:38-113 | `generateContent` generates the main page, the four topic pages and then the neighbourhood pages in order, and stops at the first failure; the answer is cut with the corrected `AnswerBody` |
| ContentGenerator.GenerateNeighborhoodPages | lib/content/content-generator.ts:79-86 | the loop generates one page per neighbourhood plan, in order, and rethrows the first failure |
| ContentGenerator.StillFailed | lib/content/content-generator.ts:79-86 | once a neighbourhood page fails, the run reports that page's error |
| ContentGenerator.NeighborhoodPagesInOrder | lib/content/content-generator.ts:79-86 | the first k neighbourhood pages are k pages, page i generated from plan i |
| ContentGenerator.SumWordCountsAppend | lib/content/content-generator.ts:94 | the sum of word counts splits over a concatenation |
| ContentGenerator.ContentTotals | lib/content/content-generator.ts:88-112 | a generated hub has one page per neighbourhood plan in plan order, `totalPages` = 5 + #neighbourhoods = the number of pages, and `totalWordCount` is the sum of all pages' word counts |
| FaqHtml.Ctas | lib/content/content-generator.ts:619-635 | there are exactly three calls to action |
| FaqHtml.InlineCtaVariants | lib/content/content-generator.ts:637-645 | `buildInlineCTA(i, city)` and `buildInlineCTA(j, city)` read the same exactly when i mod 3 = j mod 3 |
| FaqHtml.InlineCta | lib/content/content-generator.ts:618-646 | call to action number index mod 3, whose heading (`Ready`, `Have`, `Need`) opens the box |
| FaqHtml.Anchor | lib/content/content-generator.ts:737 | the anchor `question-<k + 1>` holds no quote, so it ends at the attribute's closing quote |
| FaqHtml.AnchorInjective | lib/content/content-generator.ts:751 | different item indices get different anchors |
| FaqHtml.TocEntries | lib/content/content-generator.ts:737 | one contents entry per answer, entry k built from index k and answer k's question, in answer order |
| FaqHtml.TableOfContents | lib/content/content-generator.ts:733-740 | the navigation block opens with its heading and holds the entry of every answer |
| FaqHtml.TocEntryTarget | lib/content/content-generator.ts:737 | the contents entry for index k links to `#question-<k + 1>` |
| FaqHtml.FaqItem | lib/content/content-generator.ts:750-756 | FAQ item k carries the id `question-<k + 1>` and shows its question |
| FaqHtml.TocMatchesItems | lib/content/content-generator.ts:733-766 | each contents link targets the FAQ item of the same index and, anchors being distinct, no other |
| FaqHtml.LinkAtHead | lib/content/content-generator.ts:769 | a reference matched at the head of the text is non-empty and lies within it |
| FaqHtml.ReplaceLinksPlain | lib/content/content-generator.ts:769-772 | text without `[` is left alone by the link rewriting |
| FaqHtml.SchemeAtHead | lib/content/content-generator.ts:770 | `https://` and `http://` are recognised as a scheme at the head of a URL |
| FaqHtml.DomainOfUrl | lib/content/content-generator.ts:770 | the link text of a well-formed URL is its host |
| FaqHtml.LinkAtHeadFound | lib/content/content-generator.ts:769 | a `[Link: ` with a scheme and a `]` later matches up to and including that `]` |
| FaqHtml.ReferenceAtHead | lib/content/content-generator.ts:769 | a well-formed reference matches in full at the head, and the scan resumes right after it |
| FaqHtml.LinkReplaced | lib/content/content-generator.ts:769-772 | a well-formed reference becomes an `authority-link` anchor to the URL whose text is the host, and the rest is rewritten in turn |
| FaqHtml.Paragraphs | lib/content/content-generator.ts:774-775 | one paragraph per non-blank piece, in order, each wrapping the trimmed piece |
| FaqHtml.FirstBlankLine | lib/content/content-generator.ts:774 | the first blank line of joined pieces is the one after the first piece |
| FaqHtml.SplitJoinedParagraphs | lib/content/content-generator.ts:774 | splitting text joined with blank lines gives back its pieces |
| FaqHtml.FormatParagraphs | lib/content/content-generator.ts:768-776 | paragraph round trip: non-blank, reference-free pieces separated by blank lines come out as one trimmed paragraph per piece, in order |
| FaqHtml.FormatAnswerWithLinks | lib/content/content-generator.ts:768-776 | the formatted answer is empty exactly when every blank-line piece is blank, and otherwise opens with a paragraph |
| FaqHtml.LayoutUpTo | lib/content/content-generator.ts:750-762 | the first m items emit only items with index below m |
| FaqHtml.CallsUpTo | lib/content/content-generator.ts:759-761 | after m of n items the section holds m / 4 calls to action, or (m - 1) / 4 once all are emitted |
| FaqHtml.CtaCount | lib/content/content-generator.ts:759-761 | a section of n >= 1 items holds floor((n - 1) / 4) calls to action, and an empty one none |
| FaqHtml.LayoutCallsFollowItems | lib/content/content-generator.ts:759-761 | every call to action number c directly follows item 4c + 3, which is not the last item |
| FaqHtml.LayoutItemsIncrease | lib/content/content-generator.ts:750-762 | the items appear once each in increasing index order |
| FaqHtml.LayoutEndsWithItem | lib/content/content-generator.ts:759-761 | no call to action follows the last item |
| FaqHtml.LayoutStep | lib/content/content-generator.ts:750-762 | one step of the `forEach`: the item, then its call to action exactly when (k + 1) mod 4 = 0 and k < n - 1, with variant floor(k / 4) |
| FaqHtml.RenderItem | lib/content/content-generator.ts:751-756 | a layout item renders as the FAQ item of that answer |
| FaqHtml.RenderCall | lib/content/content-generator.ts:760 | a layout call renders as `buildInlineCTA(index, city)` followed by a blank line |
| FaqHtml.GrownIsLayout | lib/content/content-generator.ts:750-762 | growing the section item by item emits exactly the blocks of the layout, in order |
| FaqHtml.SectionizedFaqsLayout | lib/content/content-generator.ts:742-766 | the section is its header, the layout's blocks rendered in order, and the closing tag |
| FaqHtml.BuildSectionizedFaqs | lib/content/content-generator.ts:742-766 | `buildSectionizedFAQsWithCTAs` returns the header, the items and their calls to action laid out as above, and the closing tag |
| Schemas.LinkRefAtHead | lib/content/content-generator.ts:913 | a `[Link:...]` match at the head of the text is longer than `[Link:` and lies within the text |
| Schemas.StripLinks | lib/content/content-generator.ts:913 | removing the references never lengthens the text |
| Schemas.StripPlainPrefix | lib/content/content-generator.ts:913 | text before the first `[` is kept as it is |
| Schemas.StripLinksPlain | lib/content/content-generator.ts:913 | a text without `[` is left alone |
| Schemas.StripReference | lib/content/content-generator.ts:913 | a reference on one line is removed whole, up to and including its first `]` |
| Schemas.BrokenReferenceKept | lib/content/content-generator.ts:913 | a reference that spans a line break is not matched, so its `[` stays |
| Schemas.FaqSchema | lib/content/content-generator.ts:901-917 | an FAQ page schema holding exactly one entity per question, in question order, with the question's text and its answer with the references removed and trimmed, or `''` when the answer is missing |
| Schemas.SchemaTextOfPlainAnswer | lib/content/content-generator.ts:913 | an answer without references appears in the schema trimmed |
| Schemas.SchemaTextDropsReference | lib/content/content-generator.ts:913 | an answer `text [Link:url] more` appears without its reference |
| Schemas.OfferBands | lib/content/content-generator.ts:935-987 | four offers of 10, 20, 30 and 40 yards whose price bands are 100 dollars wide and run without gap from 295 to 695, the advertised price range |
| Schemas.ServiceSchema | lib/content/content-generator.ts:919-990 | the service type is the topic followed by ` service` (`dumpster rental service` by default); the provider is the business with its telephone number; it serves the city; its catalogue lists the four offers in order of size |
| Schemas.LocalBusinessSchema | lib/content/content-generator.ts:992-1026 | the business with its telephone number, serving the city, with the city's coordinates as stored and its name and state code as address |
| Schemas.OrganizationSchema | lib/content/content-generator.ts:1028-1043 | the organization schema names the business with its telephone number |
| Schemas.SchemasNameOneBusiness | lib/content/content-generator.ts:919-1043 | the service, local business and organization schemas name the same business with the same telephone number, and the first two serve the same area |
| AnswerGenerator.TargetRange | lib/content/answer-generator.ts:40-44 | each target length asks for a non-empty range of words above zero |
| AnswerGenerator.PromptFollowsLength | lib/content/answer-generator.ts:40-64 | the requested length reaches the prompt only as its word-count range: another length changes that range and nothing else, and always changes the prompt |
| AnswerGenerator.BareContext | lib/content/answer-generator.ts:113-117 | without local data and without a (truthy) county the context is the header line alone |
| AnswerGenerator.ZeroCostOmitted | lib/content/answer-generator.ts:119-121 | a permit cost of 0 is falsy and left out, exactly as if there were none |
| AnswerGenerator.OnlyLeadingItemsShown | lib/content/answer-generator.ts:127-141 | only the first three streets, landmarks and challenges and the first two rules are shown: whatever follows them changes nothing |
| AnswerGenerator.BuildContext | lib/content/answer-generator.ts:108-144 | `buildContext` appends, after the header, the county, the cost, the department and the four lists in that order, each only when truthy |
| AnswerGenerator.AppendLocalLines | lib/content/answer-generator.ts:119-141 | the steps that read the local data append their lines in source order, each only when its value is truthy |
| AnswerGenerator.AppendList | lib/content/answer-generator.ts:127-141 | a list step appends its line, the first n items joined with `, `, only when the list is there and not empty |
| AnswerGenerator.WordCountCountsEdges | lib/content/answer-generator.ts:80 | splitting the untrimmed text on `/\s+/` counts its words, plus one for white space at the start and one at the end, and 1 for an empty text |
| AnswerGenerator.AnswerParagraphs | lib/content/answer-generator.ts:83-86 | one paragraph per `'\n\n'` piece, blank pieces included, each wrapping the trimmed piece |
| AnswerGenerator.HtmlParagraphs | lib/content/answer-generator.ts:83-86 | text written as pieces separated by blank lines comes out as one paragraph per piece, in order, joined with line breaks |
| AnswerGenerator.BlankParagraph | lib/content/answer-generator.ts:85 | a blank piece becomes the empty paragraph `<p></p>` |
| AnswerGenerator.FallbackNamesCity | lib/content/answer-generator.ts:146-150 | the fallback answer names the city and the state code where it opens |
| AnswerGenerator.AnswerText | lib/content/answer-generator.ts:79 | reading the reply fails (and throws inside the `try`) exactly when it has no first block |
| AnswerGenerator.GenerateAnswer | lib/content/answer-generator.ts:35-106 | `generateAnswer` never throws: it keeps the question; a failed call or an empty reply gives the fallback wrapped in a single `<p>`; otherwise the answer is the reply text with its paragraphs; the word count is always the `/\s+/` count of the answer |
| AnswerGenerator.AnswersFor | lib/content/answer-generator.ts:165-166 | one answer per request, in request order |
| AnswerGenerator.AnswersForSplit | lib/content/answer-generator.ts:162-168 | the answers of two consecutive runs of requests put together are the answers of both runs |
| AnswerGenerator.GenerateAnswersBatch | lib/content/answer-generator.ts:153-179 | `generateAnswersBatch` returns exactly one answer per request, in request order, and pauses between slices only: ceil(n / 5) - 1 times, none for no request |
| QuestionGenerator.OrDefault | lib/research/question-generator.ts:67-68 | `v \|\| fallback` gives the value when it is a non-empty string and the fallback otherwise |
| QuestionGenerator.FromScraped | lib/research/question-generator.ts:64-71 | a scraped question keeps its text, gets priority 100, category `general` when it has none and source `scraped` when it has none, and never an empty category or source |
| QuestionGenerator.FromScrapedAll | lib/research/question-generator.ts:63-72 | every scraped question is pushed, in order |
| QuestionGenerator.Templates | lib/research/question-generator.ts:75-127 | a template list gives one question per entry, in order, with its text, category and priority and source `template` |
| QuestionGenerator.TemplatesOrdered | lib/research/question-generator.ts:146-171 | a template list written in non-increasing priority is in non-increasing priority |
| QuestionGenerator.Slug | lib/research/question-generator.ts:136 | a slug derived with `replace(/\s+/g, '-')` holds no white space |
| QuestionGenerator.SlugPieces | lib/research/question-generator.ts:136 | the slug is the lower-cased name's pieces between runs of white space, joined by `-` |
| QuestionGenerator.CoreQuestionsAreTemplates | lib/research/question-generator.ts:74-127 | every one of the 45 core questions is a template whose priority (at most 97) is below the scraped priority 100 |
| QuestionGenerator.GenerateMainCityPage | lib/research/question-generator.ts:59-140 | `generateMainCityPage` pushes the scraped questions, pushes the core ones, sorts by descending priority and keeps the first 50 |
| QuestionGenerator.MainQuestionsOrdered | lib/research/question-generator.ts:129-135 | the main page holds min(50, #scraped + 45) questions, in non-increasing priority |
| QuestionGenerator.MainQuestionsScrapedFirst | lib/research/question-generator.ts:63-135 | under the stable sort all scraped questions (up to 50) come first in their own order, and every later one is a core template below priority 100 |
| QuestionGenerator.MainCityPageShape | lib/research/question-generator.ts:59-140 | the main page: its size and order as above, and the slug `<lower-cased city, white-space runs as '-'>-<lower-cased state code>` |
| QuestionGenerator.ResidentialPrioritiesOrdered | lib/research/question-generator.ts:146-171 | the residential priorities never increase |
| QuestionGenerator.ResidentialPageShape | lib/research/question-generator.ts:143-182 | the residential page has exactly 25 questions, all `residential` templates, in non-increasing priority, and the slug `residential` |
| QuestionGenerator.CommercialPrioritiesOrdered | lib/research/question-generator.ts:188-213 | the commercial priorities never increase |
| QuestionGenerator.CommercialPageShape | lib/research/question-generator.ts:185-224 | the commercial page has exactly 25 questions, all `commercial` templates, in non-increasing priority, and the slug `commercial` |
| QuestionGenerator.ConstructionPrioritiesOrdered | lib/research/question-generator.ts:230-255 | the construction priorities never increase |
| QuestionGenerator.ConstructionPageShape | lib/research/question-generator.ts:227-266 | the construction page has exactly 25 questions, all `construction` templates, in non-increasing priority, and the slug `construction` |
| QuestionGenerator.RoofingPrioritiesOrdered | lib/research/question-generator.ts:272-292 | the roofing priorities never increase |
| QuestionGenerator.RoofingPageShape | lib/research/question-generator.ts:269-303 | the roofing page has exactly 20 questions, all `roofing` templates, in non-increasing priority, and the slug `roofing` |
| QuestionGenerator.NeighborhoodPrioritiesOrdered | lib/research/question-generator.ts:315-330 | the neighbourhood priorities never increase |
| QuestionGenerator.NeighborhoodPagesShape | lib/research/question-generator.ts:306-345 | no neighbourhoods give no page; otherwise one page per neighbourhood among the first five, in order, naming it, with its slug and 15 local questions in non-increasing priority |
| Json.Get | app/api/generate-section/route.ts:68 | a property lookup finds a value exactly when the value is an object holding that key |
| Json.OrElse | app/api/generate-section/route.ts:65 | `a \|\| b` is `a` when it is present and truthy, and `b` otherwise |
| Json.ObjHasKey | lib/content/content-generator.ts:919-990 | an object written from key/value pairs holds each key whose pair is not overridden later, with that pair's value |
| Json.BraceSpan | app/api/generate-section/route.ts:274-281 | `/\{[\s\S]*\}/` matches exactly when some `{` precedes a `}`, and the match runs from the first `{` to the last `}` of the text |
| Json.SpanCoversBothObjects | app/api/generate-page/route.ts:128-133 | the match is greedy, not bracket matching: a reply with two objects yields one span covering both and the text between them |
| SectionRoute.MainTokens | app/api/generate-section/route.ts:96-259 | the main-page switch knows exactly the six main sections (budgets 3000, 2500, 2000, 2500, 2500, 1500) and throws for any other key; every budget lies in 1500..3000 |
| SectionRoute.NeighborhoodTokens | app/api/generate-section/route.ts:289-375 | the neighbourhood switch knows exactly its three sections (budgets 2000, 1500, 2000) and throws for any other key; every budget lies in 1500..2000 |
| SectionRoute.SectionKindsDisjoint | app/api/generate-section/route.ts:98-374 | no section key belongs to both switches |
| SectionRoute.UnknownSectionThrows | app/api/generate-section/route.ts:257-258 | an unknown section key throws `'Invalid section'` before the model is asked |
| SectionRoute.GeneratedFromSpan | app/api/generate-section/route.ts:262-281 | the section's budget is the switch's, the object parsed is the greedy brace span of the reply, and a reply without one throws `'No JSON in response'` |
| SectionRoute.PageKey | app/api/generate-section/route.ts:66 | the page key is `main` for the main page and `neighborhood_` followed by the name otherwise |
| SectionRoute.PageKeysDistinct | app/api/generate-section/route.ts:66 | the main key is no neighbourhood key, and two neighbourhood keys agree exactly when the names do |
| SectionRoute.ResultsOrDefault | app/api/generate-section/route.ts:65 | the stored payload is used when it is present and truthy, and `{sections: {}}` otherwise |
| SectionRoute.PageEntry | app/api/generate-section/route.ts:68-70 | the page's map is kept when it is present and truthy, and replaced by `{}` otherwise |
| SectionRoute.SetSection | app/api/generate-section/route.ts:65-72 | the in-place steps create the page map when missing and assign the section, or throw the `TypeError` JavaScript raises on the payload |
| SectionRoute.StoresOnlyThatSection | app/api/generate-section/route.ts:65-72 | on a payload with a `sections` object, storing succeeds and sets only `sections[pageKey][section]`: every other field, page and section is unchanged |
| SectionRoute.RegenerateOverwrites | app/api/generate-section/route.ts:72 | storing the same section twice keeps only the second content |
| SectionRoute.DefaultHoldsOnlyTheSection | app/api/generate-section/route.ts:65-72 | a job without a payload ends up with `{sections: {pageKey: {section: content}}}` |
| SectionRoute.NoSectionsThrows | app/api/generate-section/route.ts:65-68 | a payload object without `sections` (such as the research route's) is not replaced by the default, and the store step throws |
| SectionRoute.PageOf | app/api/generate-section/route.ts:48-54 | the route accepts `main`, and `neighborhood` with a non-empty name; anything else is the 400 `Invalid request` |
| SectionRoute.SectionPost | app/api/generate-section/route.ts:25-88 | only an unknown city is the 404 and only a bad page type the 400; a failure writes nothing; a success names the requested section and rewrites at most the request's job |
| SectionRoute.WordCountOf | app/api/generate-section/route.ts:82 | the reply's word count is `content.wordCount` when truthy, and 0 otherwise |
| SectionRoute.RejectedBeforeGeneration | app/api/generate-section/route.ts:34-54 | an unknown city is a 404 and a bad page type a 400; neither depends on the model nor writes a job |
| SectionRoute.InvalidSectionIs500 | app/api/generate-section/route.ts:85-88 | an unknown section key is a 500 with `Invalid section` and writes nothing |
| SectionRoute.SuccessStoresSection | app/api/generate-section/route.ts:58-83 | a success writes the job's payload with the section stored under its page key, changes no other job, and reports the section and its word count |
| SectionRoute.PostSection | app/api/generate-section/route.ts:25-89 | `POST` run against the tables performs these steps in order and leaves the cities alone |
| PageRoute.PageTitle | app/api/generate-page/route.ts:42-46 | the title is `Dumpster Rental in ` followed by the city and the state code for the main page, or by the neighbourhood and the city for a neighbourhood page |
| PageRoute.NeighborhoodTitlesDistinct | app/api/generate-page/route.ts:46 | two neighbourhood pages of a city get the same title only when their names agree |
| PageRoute.GeneratedFromSpan | app/api/generate-page/route.ts:118-172 | the main page is asked for with 8000 tokens and a neighbourhood page with 4000; the object parsed is the greedy brace span, and a reply without one throws `'Failed to parse AI response'` |
| PageRoute.ResultsOrDefault | app/api/generate-page/route.ts:58 | the stored payload is used when it is present and truthy, and `{pages: []}` otherwise |
| PageRoute.Entry | app/api/generate-page/route.ts:59-65 | the pushed entry carries `type`, `title`, `content`, `generatedAt`, and `neighborhoodName` exactly when one was given |
| PageRoute.AppendsOneEntry | app/api/generate-page/route.ts:59-65 | the push succeeds exactly on an object whose `pages` is a list; it then appends one entry at the end, keeps the earlier ones in order and every other field as it was |
| PageRoute.DefaultListsOnlyThePage | app/api/generate-page/route.ts:58-65 | a job without a payload ends up with `{pages: [entry]}` |
| PageRoute.PageOf | app/api/generate-page/route.ts:42-50 | the route accepts `main`, and `neighborhood` with a non-empty name; anything else is the 400 `Invalid page type` |
| PageRoute.ServerError | app/api/generate-page/route.ts:79-84 | a thrown error is a 500 carrying its message, or `Failed to generate page` when the message is empty |
| PageRoute.PagePost | app/api/generate-page/route.ts:23-84 | only an unknown city is the 404 and only a bad page type the 400; a failure writes nothing and carries a message; a success reports the page's title and type and rewrites at most the request's job |
| PageRoute.RejectedBeforeGeneration | app/api/generate-page/route.ts:29-50 | an unknown city is a 404 and a bad page type a 400; neither depends on the model nor writes a job |
| PageRoute.SuccessAppendsEntry | app/api/generate-page/route.ts:52-78 | a success reports the page's title and type and writes the job's payload with the entry appended, changing no other job |
| PageRoute.PushPage | app/api/generate-page/route.ts:58-65 | the in-place push appends the entry, or throws the `TypeError` JavaScript raises on the payload |
| PageRoute.PostPage | app/api/generate-page/route.ts:23-84 | `POST` run against the tables performs these steps in order and leaves the cities alone |
| ResearchRoute.RejectionsInOrder | app/api/research/route.ts:13-39 | a missing id is a 400 before any lookup, an unknown city a 404 before the guard, a job in progress a 400; no rejection creates a job |
| ResearchRoute.CreatesInitialJob | app/api/research/route.ts:45-69 | a success creates exactly one new job, `processing` with progress 0, `Initializing...` and `{pages: [], totalPages: 5, completedPages: 0}`, and replies with its id, 5 pages and four neighbourhoods |
| ResearchRoute.PostResearch | app/api/research/route.ts:9-75 | `POST` run against the tables: the guard's query and then the insert, as two separate steps |
| Orchestrator.CompletedResults | lib/research/research-orchestrator.ts:55 | the completed payload holds the generated content under `generatedContent` |
| Orchestrator.Finished | lib/research/research-orchestrator.ts:50-72 | the run's update writes `completed` and the payload on success, or `failed` and the error's message on failure, and touches nothing else the model keeps |
| Orchestrator.NoJobWithoutCity | lib/research/research-orchestrator.ts:20-43 | an unknown city throws `City not found` and a failed insert throws, both leaving no job behind |
| Orchestrator.OneTerminalTransition | lib/research/research-orchestrator.ts:31-75 | a run adds one job, which ends `completed` with `{generatedContent}` when the generator succeeds and `failed` with its message otherwise, the result or error being passed on; progress and step are never written |
| Orchestrator.ResearchOrchestrator.ResearchCity | lib/research/research-orchestrator.ts:16-76 | `researchCity` run against the tables: the lookup, the insert, the generator and one update, leaving the cities alone |
| ResearchRoute.AsWrittenAdmitsThirdJob | app/api/research/route.ts:27-39 | as written, a city with two jobs in progress passes the guard, because `.single()` finds no single row, and gets a third `processing` job |
| ResearchRoute.GuardedRefusesWhileInProgress | app/api/research/route.ts:27-39 | with the intended guard, a city with any job in progress is refused with 400 and the jobs stay as they were |
| Publisher.PayloadOf | lib/wordpress/wordpress-publisher.ts:66-72 | the payload is exactly the page's `title`, `slug`, `content` = `htmlContent`, `status` `publish` and `template` `city-landing-template` |
| Publisher.RejectedMessage | lib/wordpress/wordpress-publisher.ts:83-87 | a response that is not OK throws a message starting `WordPress API returned ` |
| Publisher.PublishOne | lib/wordpress/wordpress-publisher.ts:60-91 | one page sends one request with its payload, and none for a `null` page whose title cannot be read |
| Publisher.MainPageOf | lib/wordpress/wordpress-publisher.ts:37-38 | the main page is read exactly when `mainCityPage` is there and not `null` |
| Publisher.NeighborhoodItems | lib/wordpress/wordpress-publisher.ts:42-50 | the loop visits the items of a list and the characters of a string; it visits something exactly when the guard holds and the value is not an object, which the loop cannot iterate |
| Publisher.FirstFailure | lib/wordpress/wordpress-publisher.ts:36-50 | the position of the first page the site refuses: every page before it is created, and it is not |
| Publisher.PayloadsOf | lib/wordpress/wordpress-publisher.ts:66-81 | one request per page, in page order |
| Publisher.CreatedPages | lib/wordpress/wordpress-publisher.ts:34-50 | the pages the site created, one per page and in page order |
| Publisher.CreatedPagesOf | lib/wordpress/wordpress-publisher.ts:34-50 | pages matched one by one with what the site created for them are exactly the created pages |
| Publisher.PublishedAll | lib/wordpress/wordpress-publisher.ts:28-58 | when the site creates every page, the run returns them all and sent one request per page in order, unless `neighborhoodPages` is an object passing the guard, which throws `not iterable` after the main page |
| Publisher.PublishSucceedsIff | lib/wordpress/wordpress-publisher.ts:28-58 | a run with a main page succeeds exactly when the site creates every page and the neighbourhood pages can be iterated |
| Publisher.PublishedUpToFailure | lib/wordpress/wordpress-publisher.ts:28-58 | when page j is the first refused, the run throws that page's error after sending the requests of pages 0..j |
| Publisher.PublishSucceedsOnAllPages | lib/wordpress/wordpress-publisher.ts:28-58 | success comes only after every page is created: 1 + #neighbourhood pages, the main page first, one request per page in order |
| Publisher.PublishStopsAtFirstFailure | lib/wordpress/wordpress-publisher.ts:28-58 | a failing run sent the requests of every earlier page and of the failing one and nothing after, the earlier pages staying created; a run that fails with every page created threw on iterating an object, after the main page |
| Publisher.TopicPagesNeverPublished | lib/wordpress/wordpress-publisher.ts:36-50 | the topic pages play no part: the run is the same whatever they are |
| Publisher.WordPressPublisher.constructor | lib/wordpress/wordpress-publisher.ts:21-26 | the authorization header is `Basic ` followed by the Base64 of the UTF-8 of `username:applicationPassword`, as section 2 of RFC 7617 defines it |
| Publisher.WordPressPublisher.PublishPage | lib/wordpress/wordpress-publisher.ts:60-91 | `publishPage` sends one request and returns the page created or throws the site's error |
| Publisher.WordPressPublisher.PublishPages | lib/wordpress/wordpress-publisher.ts:34-50 | the loop creates the pages in order until the first refusal, whose error it throws, having sent the requests up to it |
| Publisher.WordPressPublisher.PublishCityContent | lib/wordpress/wordpress-publisher.ts:28-58 | `publishCityContent` publishes the main page, then each neighbourhood page, stopping at the first failure or throwing when the neighbourhood pages are an object |
| PublishRoute.NewestCompleted | app/api/wordpress/publish/route.ts:30-37 | the city's newest completed job: completed, for the city, with no later such job; none exactly when the city has no completed job |
| PublishRoute.CachedContent | app/api/wordpress/publish/route.ts:41-43 | the cached content is found exactly when the newest completed job has a truthy payload with a truthy `generatedContent`, and it is that value |
| PublishRoute.RefusedBeforePublishing | app/api/wordpress/publish/route.ts:17-53 | an unknown city is a 500 `City not found` and missing content a 400 with `requiresResearch`; neither sends a request nor touches the city |
| PublishRoute.CityUpdatedOnlyAfterPublishing | app/api/wordpress/publish/route.ts:62-73 | the city is updated only after a successful publish, and then only its `wordpress_url` and `published_at` |
| PublishRoute.OnlyNewestJobConsulted | app/api/wordpress/publish/route.ts:30-37 | two tables whose newest completed job carries the same payload give the same run |
| PublishRoute.SuccessRecordsMainPage | app/api/wordpress/publish/route.ts:62-80 | a success reports 1 + #neighbourhood pages, the main URL is the first published page's link, and the city records that URL and the time |
| PublishRoute.PostPublish | app/api/wordpress/publish/route.ts:10-89 | `POST` run against the tables performs these steps in order and leaves the jobs alone |
| Encoding.Utf8 | lib/wordpress/wordpress-publisher.ts:23-25 | `Buffer.from(s)` takes one to four bytes per character |
| Encoding.Utf8Char | lib/wordpress/wordpress-publisher.ts:23-25 | a character takes one to four bytes, and one exactly when it is ASCII |
| Encoding.Utf8RoundTrip | lib/wordpress/wordpress-publisher.ts:23-25 | decoding the UTF-8 bytes of any string gives the string back, so the encoding loses nothing |
| Encoding.Utf8OfAscii | lib/wordpress/wordpress-publisher.ts:23-25 | ASCII credentials are their own bytes |
| Encoding.Utf8Append | lib/wordpress/wordpress-publisher.ts:23-25 | the bytes of `user:password` are the bytes of the user, of `:` and of the password, one after the other |
| Encoding.Base64 | lib/wordpress/wordpress-publisher.ts:25 | `toString('base64')` gives 4 characters for every started group of 3 bytes |
| Encoding.Base64RoundTrip | lib/wordpress/wordpress-publisher.ts:25 | decoding the Base64 of any byte string gives the bytes back (section 4 of RFC 4648) |
| Encoding.Base64Alphabet | lib/wordpress/wordpress-publisher.ts:25 | every character of the encoding is from the Base64 alphabet or is `=` padding |
| Encoding.QuadRoundTrip | lib/wordpress/wordpress-publisher.ts:25 | a full 3-byte group becomes four alphabet characters that decode back to it |
| Encoding.BasicCredentialsParse | lib/wordpress/wordpress-publisher.ts:23-25 | a server that strips `Basic `, decodes and splits at the first colon gets back the user name and the password, whenever the user name has no colon |
| Text.ToLower | lib/research/reddit-scraper.ts:82 | `toLowerCase` keeps the length and lowers each character on its own |
| Text.IndexOfFrom | lib/content/content-generator.ts:442 | `indexOf` returns an occurrence with none before it, or -1 exactly when there is none |
| Text.ContainsIffFound | lib/research/reddit-scraper.ts:49-54 | `includes` holds exactly when `indexOf` finds the text |
| Text.Prefix | lib/research/reddit-scraper.ts:62 | `substring(0, n)` is the prefix of length n, or the whole string when it is shorter |
| Text.Trim | lib/content/content-generator.ts:1046 | `trim` is empty exactly for blank text, and otherwise neither starts nor ends with white space |
| Text.TrimEmptyIffBlank | lib/content/content-generator.ts:1046 | trimming both ends leaves nothing exactly when the text is all white space |
| Text.TrimOfTrimmed | lib/content/answer-generator.ts:85 | trimming text that is already trimmed changes nothing |
| Text.SplitOn | app/import/page.tsx:28 | `split(sep)` always gives at least one piece |
| Text.SplitOnJoin | app/import/page.tsx:35 | joining the pieces of `split(sep)` with `sep` gives the text back |
| Text.SplitOnPiecesFree | app/import/page.tsx:35 | no piece of `split(sep)` contains `sep` |
| Text.SplitSpaces | lib/content/answer-generator.ts:80 | `split(/\s+/)` always gives at least one piece |
| Text.SplitSpacesCount | lib/content/answer-generator.ts:80 | `split(/\s+/)` gives one piece more than there are runs of white space |
| Text.WordsOfTrimmed | lib/content/content-generator.ts:1046 | on trimmed non-empty text the pieces of `split(/\s+/)` are exactly its words |
| Text.ReplaceIsSplitJoin | lib/research/question-generator.ts:136 | `replace(/\s+/g, rep)` is the `split(/\s+/)` pieces joined with `rep` |
| Text.ReplaceLeavesNoSpace | lib/research/question-generator.ts:136 | replacing the runs of white space by a replacement without white space leaves none |
| Text.RemoveSpacesLeavesNone | lib/research/local-data-scraper.ts:35 | `replace(/\s+/g, '')` leaves no white space |
| Text.NoSpaceReplace | lib/research/question-generator.ts:337 | text without white space is left unchanged by the replacement |
| Text.DecimalOfNatToString | lib/content/answer-generator.ts:41-43 | the decimal text of a number reads back as that number |
| Text.NatToStringInjective | lib/content/answer-generator.ts:41-43 | different numbers are written differently |
| Sorting.SortDesc | lib/research/question-generator.ts:130 | sorting keeps the length and the items, as a permutation |
| Sorting.SortDescSorted | lib/research/question-generator.ts:130 | after `sort((a, b) => b.key - a.key)` the keys do not increase |
| Sorting.SortDescStable | lib/research/reddit-scraper.ts:77 | the sort is stable: the items of one key keep their order |
| Sorting.SortDescOfSorted | lib/research/reddit-scraper.ts:77 | sorting a list already in order changes nothing |
| Sorting.TakeSorted | lib/research/reddit-scraper.ts:87 | a prefix of a sorted list is sorted |
| Sorting.TopGroupFirst | lib/research/question-generator.ts:130 | items of the highest key, in their own order, come first after sorting, then the rest sorted |
| Batching.Batches | lib/content/answer-generator.ts:161-163 | `slice(i, i + 5)` for i = 0, 5, 10, ... gives one batch per started group of five |
| Batching.BatchAt | lib/content/answer-generator.ts:163 | batch b is the slice from 5b to 5b + 5, cut at the end |
| Batching.BatchSizes | lib/content/content-generator.ts:263-275 | every batch holds one to five items |
| Batching.FlattenBatches | lib/content/content-generator.ts:274-275 | the batches put together are the list, in order |
| Tables.StoredResults | app/api/generate-section/route.ts:59-63 | the stored `results_json` of a job id, none for an unknown id |
| Tables.WithResults | app/api/generate-section/route.ts:74-78 | `update({ results_json })` with `eq('id', id)` changes that job's results and no other row |
| Tables.JobsOf | app/api/research/route.ts:27-32 | the rows selected by city and status are exactly the rows with that city and status |
| Tables.Single | app/api/research/route.ts:32 | `.single()` gives a row exactly when the query matched one row |
| Tables.WithPublished | app/api/wordpress/publish/route.ts:67-73 | the update of the city sets its URL and publication time and changes no other city |
| Tables.WithResultsNumbered | app/api/generate-section/route.ts:74-78 | updating results keeps each job at the index of its id |
| Tables.Store.FindCity | app/api/research/route.ts:17-21 | the lookup of a city finds it exactly when it is there |
| Tables.Store.FindResults | app/api/generate-section/route.ts:59-63 | the lookup of a job's results gives the stored ones |
| Tables.Store.FindJob | app/api/research/route.ts:45-56 | the lookup of a job finds it exactly when its id is known |
| Tables.Store.UpdateResults | app/api/generate-section/route.ts:74-78 | only that job's results change; the cities are untouched |
| Tables.Store.UpdatePublished | app/api/wordpress/publish/route.ts:67-73 | only that city's URL and time change; the jobs are untouched |
| Tables.Store.Insert | app/api/research/route.ts:45-56 | the insert appends one job with the next id and the given fields, and returns that id |
| Tables.WithJob | lib/research/research-orchestrator.ts:50-57 | the update by id replaces that job and no other row |
| Tables.Store.UpdateJob | lib/research/research-orchestrator.ts:65-72 | only that job changes; the cities are untouched and every job keeps the index of its id |
| RedditScraper.SearchQueries | lib/research/reddit-scraper.ts:21-26 | four searches, in the source's order |
| RedditScraper.Shape | lib/research/reddit-scraper.ts:57-63 | the record keeps the title, prefixes `r/` to the subreddit and the Reddit origin to the permalink, counts absent upvotes as 0 and keeps at most 200 characters of a non-empty self text |
| RedditScraper.PostQuestions | lib/research/reddit-scraper.ts:46-65 | a post adds a record exactly when its title is there, non-empty and reads as a question |
| RedditScraper.FirstUnreadable | lib/research/reddit-scraper.ts:42-46 | the first post without `data`, where reading `data.title` throws |
| RedditScraper.FindIndex | lib/research/reddit-scraper.ts:81-83 | `findIndex` is the first element with the key, or none |
| RedditScraper.FirstOfKeyPrefix | lib/research/reddit-scraper.ts:80-84 | whether an element is the first of its key depends only on the elements before it |
| RedditScraper.DedupeMembers | lib/research/reddit-scraper.ts:80-84 | the filter keeps exactly the elements no earlier element shares a lower-cased question with |
| RedditScraper.DedupeSubset | lib/research/reddit-scraper.ts:80-84 | the filter only drops elements |
| RedditScraper.DedupeDistinct | lib/research/reddit-scraper.ts:80-84 | no two kept records have the same lower-cased question |
| RedditScraper.DedupeSorted | lib/research/reddit-scraper.ts:77-84 | the filter keeps the order by upvotes |
| RedditScraper.MostUpvotedSurvives | lib/research/reddit-scraper.ts:77-84 | after the sort, for every record a kept record with the same lower-cased question has at least its upvotes |
| RedditScraper.KeptQuestions | lib/research/reddit-scraper.ts:46-63 | every record kept from readable posts is a question-like title addressed on Reddit |
| RedditScraper.CollectedQuestions | lib/research/reddit-scraper.ts:28-74 | every record gathered by the searches is a question-like title addressed on Reddit |
| RedditScraper.TakeDistinct | lib/research/reddit-scraper.ts:87 | the cut to twenty keeps the keys distinct |
| RedditScraper.ResultOrdered | lib/research/reddit-scraper.ts:76-87 | the result holds at most twenty records, by non-increasing upvotes, no two with the same lower-cased question |
| RedditScraper.ResultFromReddit | lib/research/reddit-scraper.ts:15-87 | every record of the result comes from a question-like title with a Reddit address |
| RedditScraper.QuestionMarkIgnoresCase | lib/research/reddit-scraper.ts:48 | a question mark is found in the title exactly when it is found in the lower-cased title |
| RedditScraper.QuestionIgnoresCase | lib/research/reddit-scraper.ts:47-54 | two titles that differ only in case are both questions or neither is |
| RedditScraper.FailedQuerySkipped | lib/research/reddit-scraper.ts:71-73 | a search whose request throws adds nothing and the next search goes on |
| RedditScraper.UnreadablePostEndsSearch | lib/research/reddit-scraper.ts:42-73 | a post without `data` ends its search: the records before it stay, nothing after it is read |
| RedditScraper.KeptSnoc | lib/research/reddit-scraper.ts:42-66 | each readable post appends its own records after those of the posts before it |
| RedditScraper.CollectPosts | lib/research/reddit-scraper.ts:42-66 | the loop over one search's posts gathers the records of the posts before the first without `data` |
| RedditScraper.ScrapeRedditQuestions | lib/research/reddit-scraper.ts:14-93 | `scrapeRedditQuestions` runs the four searches in order, then sorts by upvotes, drops repeats and keeps twenty |
| LocalDataScraper.PermitCost | lib/research/local-data-scraper.ts:94-106 | a state of the table pays its entry and any other state 50 |
| LocalDataScraper.PermitCostRange | lib/research/local-data-scraper.ts:96-105 | every state pays between 45 and 75 |
| LocalDataScraper.RemoveSpacesKeepsNoUpper | lib/research/local-data-scraper.ts:35 | removing white space from lower-cased text leaves it lower-cased |
| LocalDataScraper.PermitUrlShape | lib/research/local-data-scraper.ts:35 | the permit page's host holds the city with no white space and no capital letter, then the lower-cased state code, under `https://` and before `.gov/permits` |
| LocalDataScraper.PermitUrlIgnoresSpacing | lib/research/local-data-scraper.ts:35 | city names that differ only in case and white space share their permit page |
| LocalDataScraper.Neighborhoods | lib/research/local-data-scraper.ts:73-80 | four neighbourhoods, each naming the city |
| LocalDataScraper.LandmarksShape | lib/research/local-data-scraper.ts:56-71 | four landmarks that start with the city's, and two more exactly for CA, TX, FL and NY |
| LocalDataScraper.GenerateLandmarks | lib/research/local-data-scraper.ts:56-71 | `generateLandmarks` pushes each state's extras after the base list |
| LocalDataScraper.ChallengesShape | lib/research/local-data-scraper.ts:82-92 | three challenges everywhere, and two more exactly for CA, TX, FL and NY |
| LocalDataScraper.GenerateChallenges | lib/research/local-data-scraper.ts:82-92 | `generateChallenges` pushes each state's extras after the base list |
| LocalDataScraper.Wildlife | lib/research/local-data-scraper.ts:117-128 | a state of the table gets its list and any other state raccoons and possums |
| LocalDataScraper.RaccoonsAlmostEverywhere | lib/research/local-data-scraper.ts:117-128 | raccoons are on every state's list but Colorado's, and every list has two or three animals |
| LocalDataScraper.SeasonalFactorsCount | lib/research/local-data-scraper.ts:130-146 | no state is both hot and wintry, so at most two groups and at most four factors apply, none for a state on no list |
| LocalDataScraper.GulfStatesFactors | lib/research/local-data-scraper.ts:133-143 | Texas and Florida get the heat group, then the hurricane group |
| LocalDataScraper.GenerateSeasonalFactors | lib/research/local-data-scraper.ts:130-146 | `generateSeasonalFactors` pushes each group whose state list holds the code, in source order |
| LocalDataScraper.ScrapeLocalData | lib/research/local-data-scraper.ts:17-44 | `scrapeLocalData` fills every field from its generator: the department, 3 processing days, the permit page and the fixed facilities |
| GooglePaaScraper.FillNamesCity | lib/research/google-paa-scraper.ts:19 | a template written around the city names the city |
| GooglePaaScraper.PaaQuestionsShape | lib/research/google-paa-scraper.ts:18-46 | twenty questions, all from `Google People Also Ask`, every one but the eighth naming the city |
| GooglePaaScraper.ScrapeGooglePaa | lib/research/google-paa-scraper.ts:9-50 | `scrapeGooglePAA` pushes one record per template, in template order, whatever the state |
| GooglePaaScraper.TopicOpenings | lib/research/google-paa-scraper.ts:57-82 | four openings per project type |
| GooglePaaScraper.TopicQuestions | lib/research/google-paa-scraper.ts:53-88 | `generateTopicQuestions` gives four questions for every project type |
| GooglePaaScraper.TopicQuestionsNameCity | lib/research/google-paa-scraper.ts:84-87 | every topic question comes from `Google People Also Ask` and names the city |
| BulkPage.SetFrom | app/bulk/page.tsx:85 | `new Set(ids)` holds each id once and exactly the ids given |
| BulkPage.Without | app/bulk/page.tsx:76 | `delete` removes that id and keeps every other |
| BulkPage.Toggled | app/bulk/page.tsx:72-82 | toggling keeps every id at most once |
| BulkPage.ToggleFlipsOne | app/bulk/page.tsx:72-82 | toggling flips the selection of that one city and of no other |
| BulkPage.ToggleTwice | app/bulk/page.tsx:72-82 | toggling twice selects the same cities again, in the same order when the city was not selected |
| BulkPage.WithoutAbsentLast | app/bulk/page.tsx:76-78 | deleting the id just added gives the set back |
| BulkPage.LatestJobsFirst | app/bulk/page.tsx:55-70 | every city with a job has an entry, and it is its first job in the newest-first list |
| BulkPage.IdsOf | app/bulk/page.tsx:85 | `cities.map(c => c.id)`: one id per city, in order |
| BulkPage.NeedingResearchMembers | app/bulk/page.tsx:93-96 | the filter keeps exactly the cities with no job or whose latest job failed |
| BulkPage.ReadyForPublishingMembers | app/bulk/page.tsx:101-104 | the filter keeps exactly the unpublished cities whose latest job completed |
| BulkPage.IdsOfMembers | app/bulk/page.tsx:97 | an id is mapped exactly when a city has it |
| BulkPage.SelectNotResearchedExact | app/bulk/page.tsx:92-98 | `selectNotResearched` selects exactly the cities with no job or whose latest job failed |
| BulkPage.SelectResearchedExact | app/bulk/page.tsx:100-106 | `selectResearched` selects exactly the unpublished cities whose latest job completed |
| BulkPage.ShortcutsDisjoint | app/bulk/page.tsx:92-106 | no city is picked by both shortcuts |
| BulkPage.StatusOf | app/bulk/page.tsx:580-589 | a card shows published exactly when the city is published, and researched exactly when it is not and its latest job completed |
| BulkPage.ReadyShowsResearched | app/bulk/page.tsx:580-589 | a city `selectResearched` picks shows as researched |
| BulkPage.ValidCities | app/bulk/page.tsx:166-169 | the selected cities whose latest job completed, in selection order |
| BulkPage.Successes | app/bulk/page.tsx:186-212 | at most one success per request |
| BulkPage.BulkPublishCounts | app/bulk/page.tsx:159-219 | a run sends one request per selected city whose latest job completed and counts each as a success or a failure; it refuses when no selected city is researched |
| BulkPage.BulkPublishRun | app/bulk/page.tsx:159-219 | nothing selected and a declined dialog are told apart; the success count is the number of `ok` replies among the requests sent; nothing is sent unless the run finishes |
| BulkPage.ResolvedAt | app/bulk/page.tsx:221-240 | the wait ends at the first poll reading a completed or failed job, and never when no poll does |
| BulkPage.FirstStuck | app/bulk/page.tsx:125-150 | the first city whose request returned and whose job never settles, where the run stays waiting; every earlier city threw or settled |
| BulkPage.BulkResearchOrder | app/bulk/page.tsx:108-157 | a finished run posted once for every selected city, in selection order, each having thrown or settled, and reports all of them; an unfinished one waits on the last city it posted for, whose request returned and whose job never settles |
| BulkPage.ThrownRequestsNeverWait | app/bulk/page.tsx:131-149 | a request that throws skips the wait: a run whose every request throws finishes and reports every city, whatever the polls |
| BulkPage.BulkResearchRun | app/bulk/page.tsx:108-157 | nothing selected and a declined dialog are told apart; the requests sent are a prefix of the selection, non-empty exactly when the run started |
| BulkPage.BulkOperations.FetchResearchJobs | app/bulk/page.tsx:55-70 | the job map is the first job of each city in the newest-first rows |
| BulkPage.BulkOperations.ToggleCity | app/bulk/page.tsx:72-82 | `toggleCity` toggles that city and changes nothing else |
| BulkPage.BulkOperations.SelectAll | app/bulk/page.tsx:84-86 | `selectAll` selects every city's id, once each |
| BulkPage.BulkOperations.SelectNone | app/bulk/page.tsx:88-90 | `selectNone` clears the selection |
| BulkPage.BulkOperations.SelectNotResearched | app/bulk/page.tsx:92-98 | `selectNotResearched` selects the cities needing research |
| BulkPage.BulkOperations.SelectResearched | app/bulk/page.tsx:100-106 | `selectResearched` selects the cities ready for publishing |
| BulkPage.BulkOperations.BulkPublish | app/bulk/page.tsx:159-219 | `bulkPublish` posts the requests one after the other and counts them |
| BulkPage.BulkOperations.WaitForCompletion | app/bulk/page.tsx:221-240 | `waitForCompletion` resolves at the first settled poll |
| BulkPage.BulkOperations.BulkResearch | app/bulk/page.tsx:108-157 | `bulkResearch` posts one request per selected city; a request that returns is followed by the wait, one that throws is caught and skips it |
| ImportPage.LastIndex | app/import/page.tsx:38-40 | the last column of that name, the one whose assignment stays |
| ImportPage.RowOfLookup | app/import/page.tsx:37-40 | every column name is a property of the row object, holding the value under its last column (`undefined` past the end of the line); any other name reads as `undefined` |
| ImportPage.BuildRow | app/import/page.tsx:37-40 | the `forEach` builds that row object |
| ImportPage.SlugCityPart | app/import/page.tsx:42 | the slug is `dumpster-rental-`, the lower-cased city with each run of white space turned into one dash, a dash and the lower-cased state code; the city part has no white space |
| ImportPage.DigitsPrefix | app/import/page.tsx:47 | the leading decimal digits, as many as there are |
| ImportPage.DigitsPrefixOfDigits | app/import/page.tsx:47 | digits followed by a non-digit are read up to the non-digit |
| ImportPage.PopulationOfNumber | app/import/page.tsx:47 | a written number followed by anything but a digit (a decimal point, a unit) is read back as that number |
| ImportPage.PopulationWithoutDigits | app/import/page.tsx:47 | a field that does not start with a number, and a missing field, give 0 |
| ImportPage.Population | app/import/page.tsx:47 | a missing field or one `parseInt` cannot read gives 0; any other count is the number the field reads as |
| ImportPage.CityFrom | app/import/page.tsx:37-50 | a row gives a city exactly when it has both a city and a state code, and otherwise throws the `toLowerCase` error; the city keeps the row's names, its population and its slug |
| ImportPage.WithSlug | app/import/page.tsx:53-57 | the rows with that slug; none exactly when no row has it |
| ImportPage.LineCities | app/import/page.tsx:34-51 | each data line is read on its own, in line order |
| ImportPage.BlankRejected | app/import/page.tsx:18-21 | blank text is refused before anything is read or written |
| ImportPage.ImportRowsCounts | app/import/page.tsx:34-76 | the table only grows; a finished loop counts every line once, as a success or an error, and the table gained exactly the imported cities, in line order |
| ImportPage.ImportTotals | app/import/page.tsx:26-83 | a finished import reports `success` and `errors` adding up to `total`, lists one city per success and added exactly those to the table |
| ImportPage.UniqueSlugCount | app/import/page.tsx:53-63 | in a table without repeated slugs the lookup finds no city exactly when none has the slug |
| ImportPage.UniqueSlugCountAt | app/import/page.tsx:53-57 | in such a table a slug that is there is found once |
| ImportPage.ImportKeepsSlugsUnique | app/import/page.tsx:53-75 | an import into a table without repeated slugs leaves none |
| ImportPage.FailureSticks | app/import/page.tsx:85-87 | after a line throws, the lines that follow play no part |
| ImportPage.CitiesTable.FindBySlug | app/import/page.tsx:53-57 | the lookup gives a city only when exactly one row has the slug |
| ImportPage.CitiesTable.Insert | app/import/page.tsx:65-67 | the insert appends the city unless the table refuses it, and says which |
| ImportPage.ImportLine | app/import/page.tsx:35-75 | one pass of the loop body: the row object, the slug lookup and the insert |
| ImportPage.ImportCity | app/import/page.tsx:53-75 | a city whose slug is in the table is an error, one the table refuses is an error, any other is inserted and counted |
| ImportPage.ImportLines | app/import/page.tsx:34-76 | the loop imports the data lines in order, stopping at the first that throws |
| ImportPage.ImportNext | app/import/page.tsx:34-76 | each turn of the loop extends the import of the lines before it by one line |
| ImportPage.HandleImport | app/import/page.tsx:17-91 | `handleImport` trims the text, cuts it into lines, reads the columns from the first and imports the rest |

## Left out

- Lower-casing and white space: `toLowerCase` is modelled on ASCII letters only; the white-space set is that of `\s` and `trim`.
- Floating point: `parseFloat` of latitude and longitude (`app/import/page.tsx:49-50`) is not modelled; those columns are not kept. The cost and time estimates of the bulk screen are left out too.
- `parseInt`: modelled for decimal text only. The `0x` prefix and the loss of precision beyond 2^53 are not modelled.
- JSON numbers are integers; JSON text is parsed by a function parameter standing for `JSON.parse`.
- Timers: the lengths of polling intervals, rate-limit pauses and the pauses between answer batches are left out; the pauses between batches are counted. The bulk screen's polls are a sequence of statuses, one per poll.
- `Promise.all`: the answers of one batch are produced one after the other, in request order. That is the order the source returns them in.
- Timestamps (`new Date().toISOString()`): a parameter of the operations that write them, or not kept.
- Console logging, `alert` and `confirm`: logging is dropped; a dialog's answer is a parameter, and the alert's text is the reply of the operation.
- The language model: prompt prose and marketing text are not modelled; only the parts that vary from call to call are. The model is a function of the prompt's varying parts and the token budget.
- Supabase, HTTP and the WordPress REST API are function parameters. Timeouts, `maxDuration` and the race between the research route's check and its insert are left out.
- Reddit: the outer `catch`, which returns `[]` (`lib/research/reddit-scraper.ts:89-92`), is not modelled. Nothing inside the `try` that is modelled can throw past the per-search `catch`.
- Reddit URLs: `encodeURIComponent` of the query is left out; the search is a function of the query text.
- `Array.prototype.sort` works in place; the model sorts values (`Sorting.SortDesc`), a stable insertion sort.
- Property lookups treat only the keys a table defines as present; inherited keys such as `constructor` are not modelled.
- Database ids are creation indices in the model. An insert the table refuses is the `rejects` parameter.
- Errors of the database updates that the source ignores (the orchestrator's and the publish route's updates) are not modelled; those updates always happen.
- A request body that fails to parse as JSON is not modelled; the routes start from the parsed body.
- The wording of JavaScript's `TypeError` messages is modelled by one fixed message per kind of failure.
- Screen state the source reloads after a bulk run (`fetchData`) is not modelled.
- `generateHubAndSpoke` in `lib/research/question-generator.ts`, which assembles the page plans into one object, is not modelled. The page plans it combines are.
- Display-only screens, components, the seed script, the Supabase type declarations and the WordPress theme are not part of this model.
- SectionRoute.MainTokens: states that exactly the six main sections have a budget and that it lies between 1500 and 3000; the per-section values are in its body.
- SectionRoute.NeighborhoodTokens: states that exactly the three neighbourhood sections have a budget and that it lies between 1500 and 2000; the per-section values are in its body.
- AnswerParsing.ParseEnhancedAnswers: cuts the answer with the corrected `AnswerBody`, at the leftmost case-insensitive marker, not with the case-sensitive `indexOf` of `lib/content/content-generator.ts:442`; the first Findings row gives the code as written.
- AnswerParsing.Pair: uses the corrected `AnswerBody` for the same reason.
- ContentGenerator.GenerateContent: the answers of its pages are cut with the corrected `AnswerBody` for the same reason.
- Text.Prefix: counts characters (code points), while JavaScript's `substring` counts UTF-16 code units; text outside the Basic Multilingual Plane is cut at a different place.
- RedditScraper.Shape: keeps at most 200 characters of the self text, counting code points rather than UTF-16 code units, for the same reason.
- The guard on `neighborhoodPages` (`Publisher.PositiveLength`) reads a `length` field that is a string or a list as not positive, even where JavaScript would convert it to a positive number.
- The county, population, main-street and landmark lines of the batch prompt (`lib/content/content-generator.ts:308-313`) are not modelled; they do not change how the reply is read.
- Orchestrator.ResearchOrchestrator.ResearchCity: the generator is a function of the city that may fail. The `ContentGenerator` class that `lib/research/research-orchestrator.ts:2` imports is not exported by `lib/content/content-generator.ts`.

## Findings

| source | as written | input that shows it | evidently intended | confidence | as-written member | corrected member |
|---|---|---|---|---|---|---|
| lib/content/content-generator.ts:442 | the `REAL RESULT` marker is found case-insensitively, but the answer is cut at a case-sensitive `indexOf('REAL RESULT')`; when only a differently cased marker is present, `indexOf` is -1, `substring(0, -1)` is empty and the whole answer is lost | an answer piece `xReal Result 1:` | cut the answer where the case-insensitive marker starts | not executed | AnswerParsing.AsWrittenCounterexample | AnswerParsing.AnswerBody |
| app/api/research/route.ts:27-39 | the in-progress guard uses `.single()`, which finds no row when the city has two `processing` jobs, so the guard lets a third request through | a city with two `processing` jobs | refuse while the city has any job in progress | not executed | ResearchRoute.AsWrittenAdmitsThirdJob | ResearchRoute.GuardedRefusesWhileInProgress |
