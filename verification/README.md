# no_refs: the living-people scanner, in Dafny

This project models the `Finder` class of `no_refs.py`. `Finder` is a pushdown scanner over the
event stream of a MediaWiki XML dump. It looks for articles in the "living people" category
whose kept revisions carry no reference marker.

- A stack of handlers follows the fixed schema: document, `mediawiki`, `page`, and under a page
  `title`, `ns` and `revision`; under a revision `id`, `contributor` and `text`.
- One accumulator collects character data. It is cleared at every element start and joined when
  a leaf element closes.
- Closing a revision (`do_revision`) keeps a relevant revision as a `Revision(id, has_ref)`
  record. A relevant revision is one whose lower-cased text mentions `living people` and not
  `#redirect`.
- Closing a page (`do_page`) counts it. If the page is an article (`ns == '0'`) with at least
  one kept revision and none of them mentions `ref`, its title is reported.

Modules:

- `Results`: `Option` and `Result` with failure propagation.
- `Strings`: Python's `in`, `''.join`, `str.lower` (ASCII) and the whitespace stripping of `int()`.
- `IntParse`: Python's `int(text)` restricted to ASCII digits, and `str(n)` for naturals.
- `Events`: the pulldom events the loop distinguishes.
- `Finder`: the scanner state, one function per handler, `do_revision`, `do_page`, the event
  loop `Run`, and `process_stream`.
- `FinderProps`: stack discipline, the well-formedness invariant, the accumulator, leaf
  capture, classification, counting and monotonicity.
- `Dump`: a dump as a tree of pages and revisions, serialised to events. It proves that running
  the scanner over it reports exactly the titles a declarative rule on the tree selects, with
  matching counters.
- `Scenarios`: the documents of `test_no_refs.py`, event by event, including the whitespace
  between elements, and what `process_stream` makes of them.

A Python exception inside the scanner becomes an `Err(Fault)` value: an unset attribute, a
missing page, an empty stack, or `int()` rejecting the text of an `id`. `Run` stops at the first
fault, as the Python loop does.

Two facts about the code shape the model:

- `process_stream` resets only the accumulator (no_refs.py:84-86) and never touches
  `self.state`. The handler stack carries over from file to file. After a document it is
  `[start, document]`, because the `document` handler never pops (no_refs.py:102-104). A later
  file is scanned from there. `Dump.DumpRun` starts from either `[start]` or `[start, document]`
  and ends in `[start, document]`.
- `self.content` and `self.revision_id` are never cleared between revisions (no_refs.py:174-200).
  The model keeps them in the scanner state across revisions, pages and files.

## Model

| member | source | states |
|---|---|---|
| Finder.AnyHasRef | no_refs.py:140 | `any(rev.has_ref ...)` is true exactly when some record carries the reference marker |
| Finder.DoRevision | no_refs.py:174-183 | unset content is a fault; a redirect or a text outside the category changes nothing; otherwise the revision is appended as `(revision_id, 'ref' in content)` and `blp_count` goes up by one; an unset id or a missing page is a fault |
| Finder.DoPage | no_refs.py:128-146 | `page_count` goes up by one; a progress line is logged when it reaches a multiple of 1000; a non-article stops there; an article is counted, and reported with `found` raised by one exactly when it has kept revisions and none has a reference marker; a missing page, namespace or needed title is a fault |
| Strings.Contains | no_refs.py:175-182 | the executable `needle in hay` is true exactly when `needle` occurs in `hay` at some index |
| IntParse.ParseShow | no_refs.py:199 | `int()` reads the decimal digits of a natural number back as that number |
| IntParse.ParseShowPadded | no_refs.py:199 | `int()` also accepts the digits surrounded by whitespace it strips: ASCII `\t` to `\r` and space, and the non-ASCII `str.isspace()` characters |
| IntParse.SeparatorRejected | no_refs.py:199 | `int()` does not strip the ASCII separators U+001C to U+001F: a text starting with one, such as `'\x1c42'`, is a `ValueError` |
| FinderProps.StackDiscipline | no_refs.py:97-200 | a handler pushes a child only on that child's own start tag, pops only on its own end tag, and leaves the stack unchanged on every other event; character data never changes the stack |
| FinderProps.OpensPushes | no_refs.py:97-171 | the start tag of a schema child of the handler on top pushes that child; a `page` start also creates a fresh `Page` |
| FinderProps.StartTagPushes | no_refs.py:92-94 | a start tag never fails; it leaves the stack alone or pushes one child of the handler on top whose tag it is |
| FinderProps.EndTagStack | no_refs.py:94 | an end tag pops exactly when it names the handler on top |
| FinderProps.FreshInv | no_refs.py:33-44 | a new `Finder` starts with the well-formed stack `[start]` and no page |
| FinderProps.StepPreservesInv | no_refs.py:87-94 | one loop iteration keeps the stack a root-first schema path, with a page present exactly while a `page` handler is on the stack |
| FinderProps.RunPreservesInv | no_refs.py:87-94 | every state the loop reaches from a well-formed one is well formed |
| FinderProps.StackBounded | no_refs.py:44-54 | on a well-formed state the stack holds at most six handlers, whatever the size of the input |
| FinderProps.NoStructuralFault | no_refs.py:107-158 | from a well-formed state no handler meets an empty stack or a missing `Page` |
| FinderProps.RunAppend | no_refs.py:87-94 | running two event lists in turn is running their concatenation |
| FinderProps.CdataTracksChunks | no_refs.py:86-93 | after any run the accumulator holds exactly the character chunks seen since the last element start, or the old contents followed by every chunk if no element started |
| FinderProps.RunChars | no_refs.py:89-91 | character data only appends to the accumulator, in any state |
| FinderProps.CharsBeforeStartInvisible | no_refs.py:92-93 | character data just before an element start has no effect on the rest of the run |
| FinderProps.LeafCapture | no_refs.py:149-200 | after any run ending inside a leaf, closing that leaf stores the chunks seen since the most recent element start, joined (lower-cased for `text`, through `int()` for `id`); a nested element inside the leaf would discard the chunks before it |
| FinderProps.RevisionIdOnlyFromRevision | no_refs.py:161-200 | `revision_id` changes only when an `id` directly inside a `revision` closes; an `id` under `page` or `contributor` never sets it |
| FinderProps.ContentOnlyFromText | no_refs.py:161-189 | `content` changes only when a `text` directly inside a `revision` closes |
| FinderProps.PageCount | no_refs.py:115-129 | `page_count` goes up by exactly one on a page close and on no other event; the close clears the page and pops |
| FinderProps.PageClose | no_refs.py:128-146 | a non-article page leaves the article count, `found` and the findings alone; an article is counted once; a title is reported once, exactly for a finding |
| FinderProps.RedirectIgnored | no_refs.py:174-176 | a redirect revision is neither kept nor counted, even when it mentions the category |
| FinderProps.DoRevisionGrows | no_refs.py:174-183 | `do_revision` lowers no counter, leaves `page_count` and `found` alone, and adds no finding and no log line |
| FinderProps.DoPageGrows | no_refs.py:128-146 | `do_page` lowers no counter, only appends findings, and raises `found` once per reported title |
| FinderProps.StepGrows | no_refs.py:87-94 | one loop iteration lowers no counter, leaves `file_count` and the path alone, only appends findings, and raises `found` once per reported title |
| FinderProps.RunGrows | no_refs.py:87-94 | the same holds over any run |
| FinderProps.ProcessStreamCountsFile | no_refs.py:77-95 | `process_stream` raises `file_count` by exactly one, records the path, and otherwise only grows the counters and the findings |
| FinderProps.ProcessStreamsCountsFiles | no_refs.py:66-73 | scanning `n` files in turn raises `file_count` by `n` |
| Dump.RecordedNonEmpty | no_refs.py:140 | a page keeps a record exactly when one of its revisions is relevant |
| Dump.RecordedNoRef | no_refs.py:140 | no kept record has a reference marker exactly when no relevant revision mentions one |
| Dump.FindingAgrees | no_refs.py:133-143 | the scanner's page test on the kept records agrees with the rule stated on the revisions |
| Dump.RevisionRun | no_refs.py:161-200 | one revision element sets the id and the content, and is kept and counted exactly when relevant |
| Dump.RevisionsRun | no_refs.py:161-183 | a page's revisions add one record per relevant revision, in order, and raise `blp_count` by that number |
| Dump.PageRun | no_refs.py:110-158 | one page element is counted, counted as an article when `ns == '0'`, and its title is reported exactly when the rule on the tree calls it a finding |
| Dump.PagesRun | no_refs.py:107-146 | a sequence of pages adds its page, article, relevant-revision and finding counts, and reports the findings in order |
| Dump.DumpRun | no_refs.py:87-146 | a whole document, from a fresh scanner or one left by an earlier document, reports exactly the titles the rule selects, with the matching counters, and ends with the stack `[start, document]` |
| Dump.ProcessDump | no_refs.py:77-95 | `process_stream` over a dump gives the same findings and counters, and one more file |
| Scenarios.EmptyInput | test_no_refs.py:14-17 | an empty stream reports nothing and counts one file |
| Scenarios.NoPageNode | test_no_refs.py:21-27 | a root without pages reports nothing, counts one file and no page, and leaves the stack at `[start, document]` |
| Scenarios.NoRevisionNode | test_no_refs.py:31-40 | an article without revisions is counted as a page and an article, and is not reported |
| Scenarios.ArticleOutcome | test_no_refs.py:44-81 | a one-revision article in the tests' layout is kept exactly when its lower-cased text is relevant, and reported exactly when it is also free of the reference marker |
| Scenarios.EmptyText | test_no_refs.py:44-60 | a blank revision text reports nothing and keeps no revision |
| Scenarios.MatchingText | test_no_refs.py:64-81 | text mentioning `living people` reports `Title 1` once, with its file path, and counts one kept revision and one finding |
| Scenarios.ReferencedRevision | no_refs.py:178-182 | a relevant text with `<ref/>` keeps and counts the revision but does not report the page |
| Scenarios.RedirectRevision | no_refs.py:175-176 | a `#REDIRECT` into the category keeps nothing and reports nothing |

## Left out

- `process_directory` and `process_file` (no_refs.py:57-74): globbing and sorting the dump
  directory, and opening plain or bz2 files, are I/O. `Finder.ProcessStreams` takes the files
  as an already ordered list of (path, events) pairs.
- `xml.dom.pulldom` tokenisation: the model starts from the event stream. How the reader splits
  character data into chunks does not matter, because leaves join their chunks
  (`FinderProps.LeafCapture`). Malformed XML, which would make the reader raise, is not modelled.
- Logging, `humanize`, timestamps and `log_progress` (no_refs.py:210-216): a progress line is
  modelled only as a `Progress(counters)` diagnostic. The console line and the "Found ... in path"
  line of `do_page` together become one `FoundIn(title, path)` diagnostic and one entry in
  `findings`.
- `self.doc`, `self.t0` and `self.revision_data`: they are assigned but never read by the
  classification. `get_text_from_singleton_node` is never called.
- `main`, the argument parser and the logging configuration (no_refs.py:218-288), and the other
  scripts of the repository.
- Strings.Lower: maps only ASCII `A`-`Z`. Python's `str.lower` also maps non-ASCII letters; the
  markers the scanner looks for are ASCII.
- IntParse.ParseShow: does not model the limit of 4300 digits that CPython 3.11 and later put
  on `int()` and `str()` by default (`sys.int_max_str_digits`); revision ids are assumed shorter,
  and `Dump.DumpRun` claims success for any revision id.
- IntParse.ParseInt: accepts ASCII digits only. Python's `int` also accepts other Unicode decimal
  digits.
- Faults: an exception leaves the Python `Finder` half-updated (for example, `blp_count` already
  raised before `Revision(...)` fails on a missing id). The model returns only the fault.
- Dump.DumpEvents: leaves out whitespace between elements, and every revision has a contributor.
  The tree also has no `<siteinfo>` and none of the other page and revision children
  (`redirect`, `parentid`, `timestamp`, `comment`, `model`, `format`, `sha1`), so `Dump.DumpRun`
  is proved only for documents without them.
  The test documents, which have whitespace and no contributor, are built event by event in
  `Scenarios`.
