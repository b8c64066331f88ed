# economy-monitor core, modelled in Dafny

`main.py` is a watch-and-notify agent. It checks two listing pages: the Bank of Russia events
calendar and the Ministry of Economic Development review section. On each page it looks for
anchors whose title names one of the watched reports. For each new report link it finds the PDF,
reads the first pages and has the text analysed. It then posts a message to Telegram in
4000-character pieces. Finally it remembers the listing URL in its `processed_urls` set, so the
report is not announced again.

The model keeps the agent's own logic and treats everything outside it as given:

- the fetched pages and their anchors;
- the PDF page texts;
- `urljoin`;
- the case mapping;
- the language-model reply;
- which secrets are set.

All of these are fields of the `World` and `Config` values (`externals.dfy`). What the agent does
to the outside is written to a ghost trace of events: `Get(url)` for a fetch,
`Sent(url, message)` for a call of `send_telegram`, and `Record(url)` for `save_history`. A ghost
`outbox` holds the Telegram posts attempted.

Modules:

- `Text`: the string operations the script uses, namely slicing, `lower`, `endswith` and
  substring search. It also defines `Concat`, a join of a list of strings. The script has no such
  operation: it builds the page text with `+=` and posts pieces one at a time. `Concat` only serves
  as the reference that the chunking, page-text and outbox lemmas are stated against.
- `Filter`: the candidate and target tests, and the watched report titles.
- `Resolve`: the search for a report's PDF.
- `Extraction`: the 7-page loop. `ReadPages` is that loop, proved equal to the `Assemble` function
  of the first pages. `PdfText` is the whole extraction, including a failed download or parse, and
  it specifies the agent's `ExtractTextFromPdf`.
- `Report`: the analysis, including the no-key and failed-request branches, and the message text.
- `Chunking`: the 4000-character pieces.
- `Pipeline`: the loop body (`Visit`), the loop (`Pass`), one check (`RunSource`) and the whole
  run (`Run`), as functions of the world and the seen-set, with the lemmas about them.
- `Agent`: the class `MacroAgent`. It has the `processed` set field, and its methods update the
  set and the trace step by step. Each method is proved to produce exactly the trace and set that
  the matching `Pipeline` function gives.

The two checks share one body in the model. A `Site` value carries each check's own constants:
base URL, listing URL, target titles, download labels, publisher name and message header.
`SiteOf(Cbr)` and `SiteOf(Minec)` hold the values written in `check_cbr` and `check_minec`.

## Model

| member | source | states |
|---|---|---|
| Agent.MacroAgent.constructor | main.py:22-57 | the seen-set starts as the set of URLs in the history file, or empty when the file is missing or unreadable; nothing has been fetched or posted |
| Agent.MacroAgent.SaveHistory | main.py:59-61 | the URL is added to the seen-set, nothing is removed, recording a URL already present leaves the set unchanged; a `Record` event is appended |
| Agent.MacroAgent.SendTelegram | main.py:65-83 | the send is logged for the report's listing URL and the posts stay those the log calls for; without both Telegram secrets nothing is posted, otherwise exactly the pieces of the message are posted, in order |
| Agent.MacroAgent.PostPieces | main.py:72-80 | the loop posts exactly the pieces of the message, in order |
| Chunking.Chunks | main.py:72 | there are no pieces exactly when the message is empty; the number of pieces is the least whose total capacity covers the message (the ceiling of length/4000); every piece holds 1 to 4000 characters; every piece but the last holds exactly 4000 |
| Chunking.ChunksReassemble | main.py:72 | the pieces joined in order give back the message |
| Chunking.ChunksUnique | main.py:72 | any cut of the message into non-empty pieces of at most 4000 characters, all but the last full, that joins back to it is the chunking |
| Chunking.ChunksUnfold | main.py:72 | the first piece is the first 4000 characters and the rest is the chunking of the remainder |
| Pipeline.OutboxReassembles | main.py:72-80 | with the Telegram secrets set, all posts of a run joined in order are the sent messages joined in order |
| Pipeline.OutboxSilentWithoutKeys | main.py:67-69 | without the Telegram secrets no post is ever made |
| Pipeline.OutboxOfSend | main.py:67-72 | one send posts the pieces of its message, or nothing without the secrets |
| Extraction.ReadPages | main.py:103-110 | the loop's text equals the assembly of the first min(7, page count) pages |
| Extraction.AssembleIsJoin | main.py:106-109 | the accumulated text is the contributions of the pages (text plus newline, or nothing for a blank page) joined in page order |
| Extraction.AssembleAppend | main.py:106-109 | the text of two consecutive runs of pages is the text of the first followed by the text of the second |
| Extraction.AssembleEmptyIff | main.py:106-109 | the text is empty exactly when no page read yielded text |
| Extraction.PdfText | main.py:97-113 | `None` exactly when the download or the parse failed; all-blank pages give the empty text; a first page with text gives a non-empty text |
| Extraction.LaterPagesIgnored | main.py:105 | pages after the seventh never change the text |
| Report.NoKeyAnalysis | main.py:117-118 | without a key the analysis is the fixed warning, then the first 600 characters of the text, then `...`, so at most 600 characters of text are quoted |
| Report.Analyze | main.py:115-148 | never fails: without a key the marked 600-character excerpt; with a key the reply; when the request raised, the error message followed by a marked 500-character excerpt |
| Report.Compose | main.py:202 | the message starts with the header, holds the title and the analysis at fixed offsets and ends with the PDF link in parentheses |
| Filter.IsTargetIff | main.py:169 | a title is a target exactly when some pattern of the list matches it case-insensitively |
| Filter.PatternOrderIrrelevant | main.py:228 | lists with the same patterns, in any order or with repetitions, select the same titles |
| Filter.TargetIgnoresCase | main.py:169 | two titles that agree once lowered are selected alike |
| Filter.LiteralOccurrenceMatches | main.py:169 | a title containing a pattern verbatim is a target of it, whatever the case mapping |
| Resolve.FirstWhere | main.py:190-193 | the result is the first anchor meeting the criterion, and `None` only when no anchor meets it |
| Resolve.PdfLinkWins | main.py:190 | the first `.pdf` link of a report page is used, whether or not buttons are searched |
| Resolve.ButtonIsFallback | main.py:192-196 | only on a page without `.pdf` link is the first download button used; a button without `href` raises |
| Resolve.ResolveCbr | main.py:182-196 | a report link whose `href`, after the case mapping, ends in `.pdf` is the PDF itself and no page is fetched; otherwise exactly the report page is fetched, and a failed fetch finds no PDF |
| Resolve.PdfHrefAnyCase | main.py:183 | under a case mapping that lowers `P`, `D` and `F` and keeps the dot, every upper-, lower- or mixed-case `.pdf` suffix passes the `.pdf` test |
| Resolve.DirectPdfAnyCase | main.py:183-184 | under a case mapping that lowers `P`, `D` and `F`, a link ending in `.PDF`, `.Pdf` or any other mix of case goes straight to the PDF with no page fetched |
| Resolve.ResolveMinec | main.py:236-242 | the report page is always fetched; only `.pdf` links are used, so the search never raises, and a page without one finds no PDF |
| Pipeline.FetchesDisciplined | main.py:187-199 | a trace of fetches alone sends and records nothing |
| Pipeline.PublishKeys | main.py:198-204 | the PDF is fetched first; when it yields text, the listing URL is sent once and then recorded; otherwise nothing more happens |
| Pipeline.Follow | main.py:196 | an iteration raises only on the Bank of Russia page, and only after fetches |
| Pipeline.Visit | main.py:162-208 | an iteration that raises has only fetched, and only in the Bank of Russia check |
| Pipeline.VisitSkips | main.py:166-175 | a non-candidate, a non-target or an already seen URL causes no fetch, no send and no recording |
| Pipeline.VisitRecordsIffDelivers | main.py:198-204 | an iteration records exactly when the anchor is a new target with a readable PDF, and then records the listing URL, not the PDF URL |
| Pipeline.VisitDisciplined | main.py:198-204 | an iteration records exactly what it sends, right after sending it, and never sends a seen URL |
| Pipeline.PassKeepsPromises | main.py:162-208 | over a whole loop every recording directly follows the send of the same URL, exactly the sent URLs are recorded, no URL seen before is sent, no URL is sent twice, and the seen-set grows by exactly the recorded URLs |
| Pipeline.PassLosesNothing | main.py:162-208 | after a loop that did not raise, every new target with a readable PDF is in the seen-set |
| Pipeline.PassLosesNothingBeforeRaise | main.py:162-208 | even in a Bank of Russia pass that raised, every target with a readable PDF that comes before the anchor where it raised has its URL in the seen-set |
| Pipeline.PassRecordsOnlyDelivered | main.py:204 | a loop records a URL only for an anchor that is a target with a readable PDF |
| Pipeline.RunSourceKeepsPromises | main.py:151-160 | one check, including its listing fetch, keeps the loop's promises |
| Pipeline.RunKeepsPromises | main.py:251-254 | the whole run keeps them across both checks, so no URL is announced twice in a run |
| Pipeline.OutboxAppend | main.py:72-80 | the posts of two consecutive traces are the posts of the first, then those of the second |
| Pipeline.KeysAppend | main.py:204 | the sent and recorded URLs of consecutive traces are the unions of theirs |
| Pipeline.DisciplinedAppend | main.py:175 | a disciplined trace followed by one disciplined against the grown seen-set is disciplined |
| Text.ConcatAppend | main.py:72 | joining two lists of pieces is joining each and concatenating |
| Text.LowerAppend | main.py:183 | lowering a concatenation lowers each part, so the lowered `href` ends in the lowered suffix |
| Text.LowerSlice | main.py:169 | lowering a slice of a title is the same slice of the lowered title, so a verbatim occurrence stays an occurrence after lowering |
| Text.Take | main.py:118 | `text[:n]` has min(n, length) characters and is a prefix of the text |
| Agent.MacroAgent.GetSoup | main.py:85-95 | one GET is logged and the page is the world's answer, `None` on failure |
| Agent.MacroAgent.ExtractTextFromPdf | main.py:97-113 | one GET is logged and the text is `PdfText` of the download |
| Agent.MacroAgent.FindPdf | main.py:180-196 | the outcome and the page fetches are those of the site's lookup |
| Agent.MacroAgent.Consider | main.py:163-208 | one loop iteration appends exactly `Visit`'s events, grows the seen-set by the recorded URLs and reports a raise |
| Agent.MacroAgent.Pursue | main.py:179-208 | a new target link appends exactly `Follow`'s events |
| Agent.MacroAgent.PublishPdf | main.py:198-206 | the download and, for a readable PDF, the send and recording append exactly `Publish`'s events |
| Agent.MacroAgent.Deliver | main.py:201-204 | analyse, compose, send and record: the seen-set gains the listing URL, and a send then a record are logged |
| Agent.MacroAgent.CheckSite | main.py:151-208 | a check produces exactly `RunSource`'s trace and seen-set, and stops where the loop raised |
| Agent.MacroAgent.Walk | main.py:162-208 | the `for link in links` loop, with the seen-set updated as it goes, produces exactly `Pass`'s trace and seen-set, and stops at the iteration that raised |
| Agent.MacroAgent.CheckCbr | main.py:151-208 | the Bank of Russia check with its own constants |
| Agent.MacroAgent.CheckMinec | main.py:211-249 | the Ministry check with its own constants |
| Agent.MacroAgent.RunChecks | main.py:251-254 | the Bank of Russia check, then, unless it raised, the Ministry check, which is `Run` |

## Left out

- Network I/O is not modelled: HTTP GET and POST, the browser headers, `verify=False`, timeouts,
  `time.sleep` and SSL warning suppression. A page, a PDF and a model reply are given values. A
  Telegram post appears only as an entry of the ghost outbox, so a post that fails and is logged
  looks the same as one that succeeds. That matches the script, which records the URL either way.
- HTML parsing by BeautifulSoup is not modelled. A page is its list of anchors in document order,
  each anchor being its stripped text and its `href`. The `string=` search for download buttons
  is taken to look at that text. BeautifulSoup matches `.string` instead, which is unstripped and
  absent for anchors with several children.
- `urljoin` is an arbitrary function of the base and the `href`. `if pdf_url:` is taken as always
  true once a link was found, because a join with a non-empty base is never empty.
- Regular expressions are not modelled. The target patterns and the button labels are literal
  phrases, so `re.search` with `re.IGNORECASE` is modelled as substring search after a
  per-character case mapping. Python's `lower()` can map one character to several, and Unicode
  case-insensitive matching differs from `lower()` in a few letters; the model does neither. The
  `\.pdf$` pattern also accepts an `href` that ends in `.pdf` followed by a newline; the model
  does not.
- PDF decoding by pdfplumber is not modelled. A download is the list of its page texts, or `None`
  when the download or the parser raised.
- The OpenAI request is not modelled: client set-up, prompt wording, model name and temperature.
  It is a function of the 12000-character excerpt, the title and the publisher, which gives a
  reply or the text of an exception.
- The history file's JSON reading and writing is not modelled. The constructor takes the list read
  from it, or `None` when it is missing or unreadable. `save_history` writes the set to the file
  after each addition; only the in-memory set is modelled.
- Environment variables are not modelled. They are reduced to two facts: whether both Telegram
  secrets are set, and whether the OpenAI key is set.
- The outside world is a fixed snapshot for the run. `World.page`, `World.pdf` and `World.gpt` are
  functions, so fetching the same URL twice in one run gives the same answer both times. A page or
  PDF that fails once fails on every fetch of it in that run, and the no-loss lemmas
  (`PassLosesNothing`, `PassLosesNothingBeforeRaise`) hold relative to those fixed answers.
- Console output (`print`) is not modelled.
- A download button without an `href` on a Bank of Russia report page makes `pdf_link['href']`
  raise `KeyError` (main.py:196). Nothing in the script catches it, so the model ends the run
  there. No recording is made for that link, and the Ministry check does not run.
- The script has no retries, no fallback formatting, no freshness check and no concurrency, so
  none of these are in the model.
