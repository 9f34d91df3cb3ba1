# position_agent — a verified model of the resume-tailoring core

position_agent tailors a CV and writes a cover letter for a job posting.
A LangGraph chain of ten nodes drives it:

- it settles the company name;
- it asks a chat model, which may call two retrieval tools over a vector
  store, for a keyword analysis and for tailored summary, skills,
  experience, and title texts;
- it checks the resume length;
- it writes a cover letter and an interest answer;
- it saves a text report and a PDF.

This project models the deterministic logic under those foreign calls, in
Dafny, and proves what it promises.

- `wrappers.dfy` (`Wrappers`): `Option`, `Result`, and `FirstHit`. `FirstHit`
  is "the first index that yields something", which every first-match loop
  of the program uses.
- `text.dfy` (`Text`): the Python string operations the code relies on.
  These are `strip`, ASCII `lower`/`upper`/`title`, `split('\n')`, `join`,
  `replace`, slicing, `in`, `os.path.join`, and zero-padded numbers.
- `web_operations.dfy` (`WebOperations`) covers `web_operations.py`:
  - `sanitize_filename` (a loop over the invalid characters, then
    truncation and stripping). The copy in `pdf_operations.py`
    (lines 202-223) has the same text, so this one method models both;
  - the acceptance test of a model-suggested company name;
  - the URL-domain heuristic, including `urlsplit`'s netloc;
  - the line cleaning and the 100-character threshold that decide when the
    fetcher falls back to BrightData, and BrightData's own text choice.
- `company_resolver.dfy` (`CompanyResolver`) covers the cascade of
  `extract_company_name_from_text`:
  - the model's answer, then the URL;
  - then the line patterns over the first 30 lines;
  - then the five sentence patterns, then the frequency of capitalised words;
  - and finally `"Unknown_Company"`.

  Each loop is a method proved equal to a specification function.
- `pdf_operations.dfy` (`PdfOperations`) covers `pdf_operations.py`:
  - `extract_position_title`;
  - the timestamped file names and the text report;
  - the record `save_all_outputs` returns.
- `rag_setup.dfy` (`RagSetup`) covers `rag_setup.py`:
  - the ordered missing-file checks;
  - chunk objects whose metadata a loop tags in place;
  - the CV-then-guide store, and the load-or-build decision;
  - the filtered, five-per-query retrievers;
  - the numbered-section formatting built in an `enumerate` loop, with its
    sentinels.
- `agent.dfy` (`Agent`) covers `main.py`:
  - the tool-call block every generation node shares (`RunStage`);
  - the nodes as patches over the state record, merged as the graph does;
  - the whole run (`Invoke`);
  - the graph builder as a class whose `add_node`/`add_edge` append to its
    fields, with the proof that the built edges walk the ten nodes in
    order from `START` to `END`.

Foreign calls are parameters of arrow type: the chat models, the
retrievers' similarity ranking, the PDF loader and splitter, the HTTP
fetch, the BrightData POST, the sentence regex matcher and the prompt
builders. File-system facts are parameters too (which paths exist, what
`os.listdir` returns), and so are the clock readings and whether the PDF
renders. A `url` of `None` is the empty string: every use in the source
tests it with `if url:`.

## Model

| member | source | states |
|---|---|---|
| WebOperations.ReplaceEach | web_operations.py:391-393 | each character of `<>:"/\|?*` becomes `_` in place; the length and every other character stay |
| WebOperations.Sanitized | web_operations.py:380-401 | the result is never empty, at most 50 characters, free of `<>:"/\|?*`, and neither starts nor ends with a dot or a space |
| WebOperations.SanitizeFilename | web_operations.py:390-401 | the replacement loop, truncation to 50 and `strip('. ')` compute `Sanitized`, so the result is a safe name |
| WebOperations.SafeNameUnchanged | web_operations.py:396-401 | a name that is already safe comes back unchanged |
| WebOperations.SanitizedIdempotent | web_operations.py:390-401 | sanitising twice gives the same as sanitising once |
| WebOperations.ReplacedNotDeleted | web_operations.py:391-393 | a short unpadded name keeps its length, with `_` exactly where an invalid character stood |
| WebOperations.SanitizeExamples | web_operations.py:390-401 | `""` becomes `"Unknown"`; `"Acme/Co:Ltd*"` becomes `"Acme_Co_Ltd_"` |
| WebOperations.LeadingDotStripped | web_operations.py:399 | a leading dot is stripped and the rest kept |
| WebOperations.TruncatesBeforeStripping | web_operations.py:396-399 | truncation comes first: a dot and 50 letters end as 49 letters |
| WebOperations.ExtractCompanyWithLlm | web_operations.py:33-62 | a name is accepted iff the model answered (`ModelReply`) and the stripped answer passes the test; an accepted name is that stripped answer, of 4 to 99 characters |
| WebOperations.LlmSeesOnlySample | web_operations.py:37-48 | descriptions that agree on their first 1000 characters get the same answer |
| WebOperations.LlmAcceptanceExamples | web_operations.py:52-57 | `"none"`/`"None"` and the three-letter `"IBM"` are refused; `"UNKNOWN"` is accepted |
| WebOperations.RemoveWhere | web_operations.py:229 | no character that satisfies the removal test is left |
| WebOperations.AuthorityEnd | web_operations.py:229 | the netloc ends at the first `/`, `?` or `#` after `//` |
| WebOperations.ExtractCompanyNameFromUrl | web_operations.py:228-268 | the chain of reassignments to `domain` computes `CompanyFromUrl` |
| WebOperations.UrlCompanyShape | web_operations.py:255-263 | a name from a URL is longer than 3, title-cased, and free of `.`, `-` and `_`; its host names no job board |
| WebOperations.LabelToNameShape | web_operations.py:257-260 | the first label, with `-`/`_` made spaces and title-cased, is title-cased and free of `.`, `-` and `_` |
| WebOperations.TitleFromIsTitleCased | web_operations.py:260 | `.title()` keeps which characters are letters; a letter is upper case exactly when no letter precedes it |
| WebOperations.JobBoardGivesNothing | web_operations.py:251-253 | a host containing any job-board domain gives no name |
| WebOperations.RemovesLaterOccurrence | web_operations.py:233 | `replace` removes every occurrence of a prefix such as `www.`, not only a leading one |
| WebOperations.StrippedNonEmpty | web_operations.py:113 | the cleaned lines are stripped and non-empty, never more than the input lines |
| WebOperations.CleanTextLines | web_operations.py:113-114 | the cleaned text (`CleanText`) is empty iff no line survives; otherwise its lines are exactly the stripped non-empty input lines |
| WebOperations.FetchWithBrightData | web_operations.py:137-177 | a missing or empty key fails with the key error, and only then; a success has a length of at least 100 |
| WebOperations.FetchJobDescription | web_operations.py:76-125 | a successful fetch has a length of at least 100 |
| WebOperations.FetchFallback | web_operations.py:116-125 | a cleaned page of at least 100 characters is the answer; a failed request or shorter text goes to BrightData |
| WebOperations.MissingKeyBeforeRequest | web_operations.py:137-140 | without a key the outcome does not depend on what the POST would answer |
| WebOperations.BrightDataText | web_operations.py:162-171 | a taken value always has a length; taking fails iff the request failed or `text` is a truthy number or boolean, which has no `len` |
| WebOperations.BrightDataContainerText | web_operations.py:163-174 | a non-empty list or object under `text` is returned as it is when its length is at least 100, and is too short otherwise |
| WebOperations.BrightDataTextChoice | web_operations.py:162-168 | a non-empty string `text` is used; a missing or falsy one gives the space-joined string values |
| CompanyResolver.LabelledField | web_operations.py:306-311 | a labelled-field hit comes from a line holding a label, and is stripped and 4 to 49 characters long |
| CompanyResolver.AtLine | web_operations.py:314-319 | an `at`/`@` hit starts with a letter, is stripped, 4 to 49 characters long, and holds none of `the`, `this`, `our` |
| CompanyResolver.AtGluedToWord | web_operations.py:314-319 | `"At"` glued to a word still counts as the `at` pattern: `"AtAcme"` gives `"Acme"` |
| CompanyResolver.CapitalisedLine | web_operations.py:322-337 | a capitalised-line hit is in the first 10, starts upper case, has no title word, no skipped prefix and no trailing colon, and has a next line naming a location |
| CompanyResolver.LocationWordsWithCapitalsNeverMatch | web_operations.py:336 | `", CA"`, `", NY"` and `", TX"` never match the lowercased next line |
| CompanyResolver.MatchLine | web_operations.py:302-337 | one loop iteration computes `LineHit` for its line |
| CompanyResolver.ScanLines | web_operations.py:301-337 | the loop over the first 30 lines, with early returns, computes `ScanFrom` |
| CompanyResolver.ScanFindsFirstHit | web_operations.py:301-337 | a name found by the scan is the hit of a line among the first 30 |
| CompanyResolver.ScanFindsNothing | web_operations.py:301-337 | the scan finds nothing iff none of the first 30 lines is a hit |
| CompanyResolver.FirstHitWins | web_operations.py:301-337 | the first line with a hit decides, whatever later lines hold |
| CompanyResolver.ScanIgnoresLaterLines | web_operations.py:301 | lines from the 31st on do not change the scan |
| CompanyResolver.SentenceHit | web_operations.py:352-356 | a sentence-pattern hit is the stripped match, 4 to 49 characters long |
| CompanyResolver.SearchSentences | web_operations.py:351-356 | the loop over the patterns, with its early return, computes `SentencesFrom` |
| CompanyResolver.CapitalisedWords | web_operations.py:362 | every word found is a capital letter followed by at least two letters |
| CompanyResolver.Candidates | web_operations.py:365-366 | exactly the found words not in the common-word set, in order |
| CompanyResolver.Tally | web_operations.py:371 | each counted word is counted as often as it occurs |
| CompanyResolver.MostCommon | web_operations.py:372 | `most_common(3)` keeps three entries, or all when there are fewer, all taken from the tally; that they are the largest counts in tally order is `MostCommonKeepsLargest` and `MostCommonStable` |
| CompanyResolver.MostCommonSubMultiset | web_operations.py:372 | the kept entries are entries of the tally, none kept more often than it occurs |
| CompanyResolver.MostCommonKeepsLargest | web_operations.py:372 | no entry left out has a greater count than an entry kept |
| CompanyResolver.MostCommonStable | web_operations.py:372 | on distinct entries, kept entries with equal counts are listed in tally order, and a left-out entry comes later in the tally than every kept entry of its count |
| CompanyResolver.TallyDistinct | web_operations.py:371 | the entries of a `Counter` are distinct |
| CompanyResolver.MostCommonOrdered | web_operations.py:372 | the first entry has the greatest count and is the earliest such; the counts never increase; with `MostCommonKeepsLargest` and `MostCommonStable`, the kept entries are the three largest counts with ties in tally order |
| CompanyResolver.PickFrequent | web_operations.py:374-376 | the loop over the top entries computes `FrequentPick` |
| CompanyResolver.FrequentPickFromTop | web_operations.py:374-376 | the word picked is a top entry counted at least twice |
| CompanyResolver.FrequentWordShape | web_operations.py:362-376 | the frequent word is a capitalised, non-common word of 4 to 29 characters that occurs at least twice |
| CompanyResolver.FiledName | web_operations.py:311 | a hit is filed as its sanitised form, and that is always a safe name |
| CompanyResolver.ResolveCompany | web_operations.py:283-378 | whatever the cascade settles on is a safe name: non-empty, at most 50 characters, no invalid character |
| CompanyResolver.ResolveLines | web_operations.py:298-378 | lines, then sentences, then frequency, then `"Unknown_Company"` computes `ResolveFromLines` |
| CompanyResolver.ExtractCompanyNameFromText | web_operations.py:271-378 | the imperative cascade computes `ResolveCompany`, so its result is a safe name |
| PdfOperations.TitleCandidate | pdf_operations.py:239-248 | a line is a title iff, stripped, it has 6 to 99 characters and none of the markers; the title is the stripped line |
| PdfOperations.LineTitle | pdf_operations.py:239-248 | one loop iteration computes `TitleCandidate` |
| PdfOperations.ScanTitles | pdf_operations.py:238-249 | the loop with `continue` and an early return finds the first title line |
| PdfOperations.ExtractPositionTitle | pdf_operations.py:225-250 | the method computes `PositionTitle` |
| PdfOperations.PositionTitleShape | pdf_operations.py:235-250 | the title is `"Position"` or a stripped line of 6 to 99 characters free of the markers |
| PdfOperations.TitleIsFirstTitleLine | pdf_operations.py:238-248 | the title is the first title line of the first ten; `"Position"` when there is none |
| PdfOperations.LaterLinesIgnored | pdf_operations.py:238 | lines from the eleventh on never change the title |
| PdfOperations.BlankThenTitle | pdf_operations.py:238-248 | a blank first line is skipped and the title line after it is taken |
| PdfOperations.OpeningTitle | pdf_operations.py:235-248 | a description that opens with a newline and a title line has that line as position, as the test sample does |
| PdfOperations.Padded | pdf_operations.py:37 | a zero-padded number has at least the width and only digits |
| PdfOperations.PaddedValue | pdf_operations.py:37 | a padded number that fits takes exactly the width and reads back as itself |
| PdfOperations.FileStampFields | pdf_operations.py:37 | the stamp of a valid date-time is `YYYYMMDD_HHMMSS`, each field reading back as itself |
| PdfOperations.FileStampInjective | pdf_operations.py:37 | different valid date-times give different stamps |
| PdfOperations.SafePosition | pdf_operations.py:36 | the position part is a safe name; an empty position becomes `"Position"` |
| PdfOperations.FileStampChars | pdf_operations.py:37 | a stamp holds only digits and `_` |
| PdfOperations.FileNamesHaveNoSeparator | pdf_operations.py:35-39 | neither file name holds a `/`, so each stays inside the output directory |
| PdfOperations.PathJoinParts | pdf_operations.py:40 | the path starts with the directory and ends with the name, with a separator between them |
| PdfOperations.TextFilesDistinctInTime | pdf_operations.py:37-39 | text reports saved at different seconds get different names |
| PdfOperations.TextAndPdfPathsDiffer | pdf_operations.py:39-40 | the PDF path never equals the text path |
| PdfOperations.Rule | pdf_operations.py:44 | the rule line has 80 characters |
| PdfOperations.TextReport | pdf_operations.py:43-90 | the report opens with the title banner, the `Company:` and `Position:` lines, and closes with the end banner |
| PdfOperations.SaveTextOutput | pdf_operations.py:14-97 | the returned path names a `_tailored.txt` file directly inside the output directory, and the file holds `TextReport` |
| PdfOperations.CreateTailoredCvPdf | pdf_operations.py:99-200 | a path is returned iff rendering succeeds, and it names a `_CV.pdf` file directly inside the output directory |
| PdfOperations.ReportHoldsSection | pdf_operations.py:43-90 | the report holds each section's banner followed by its content |
| PdfOperations.SaveAllOutputs | pdf_operations.py:252-286 | `position` is the extracted title; `pdf_file` is `None` exactly when rendering failed |
| PdfOperations.SavedFilesDistinct | pdf_operations.py:263-286 | the text file is named after the extracted position; a PDF, when there is one, is a different file |
| RagSetup.Chunk.constructor | rag_setup.py:51-52 | a chunk object holds the page text and metadata of its document |
| RagSetup.Snapshot | rag_setup.py:51-61 | one document per chunk object, with its current text and metadata |
| RagSetup.NewChunks | rag_setup.py:51-52 | fresh chunk objects whose contents are the splitter's documents |
| RagSetup.TagChunks | rag_setup.py:55-58 | the loop sets `source_type` on every chunk in place; the new contents are the old ones tagged |
| RagSetup.Tagged | rag_setup.py:55-58 | each document gets the tag, in order, with nothing added or dropped |
| RagSetup.TaggedDocuments | rag_setup.py:55-58 | a tagged document carries the tag, the same text, and every other metadata key unchanged |
| RagSetup.TaggedIdempotent | rag_setup.py:56 | tagging twice with one tag is tagging once |
| RagSetup.InitializeRagSystem | rag_setup.py:22-77 | the method computes `Initialized`; the persist directory is created iff the build succeeds and it is missing |
| RagSetup.InitializeErrors | rag_setup.py:28-31 | a missing CV is reported whatever the guide; the guide only when the CV exists; the store is built iff both exist |
| RagSetup.InitializedStoreTags | rag_setup.py:55-74 | the store holds every CV chunk tagged `"cv"`, then every guide chunk tagged `"cover_letter_guide"`, texts unchanged, in collection `"resume_assistant"` |
| RagSetup.GetVectorstore | rag_setup.py:79-91 | the persisted store is loaded iff its directory exists and lists something; otherwise the store is built |
| RagSetup.OnlyTagged | rag_setup.py:98-112 | the filter of `Retrieve` keeps exactly the ranked documents that carry the tag |
| RagSetup.RetrieveBounded | rag_setup.py:98-112 | a retriever (`Retrieve`) returns at most 5 documents, each carrying its own tag and ranked for the query |
| RagSetup.RetrieversDisjoint | rag_setup.py:98-112 | no document comes from both retrievers |
| RagSetup.Sections | rag_setup.py:125-127 | entry `i` is `"<heading> Section i+1:\n"` followed by the i-th document's text |
| RagSetup.RenderSections | rag_setup.py:122-129 | the `enumerate` loop and join compute `Formatted` |
| RagSetup.RetrieveCvContent | rag_setup.py:114-129 | the CV tool formats the CV retriever's documents with the CV sentinel |
| RagSetup.RetrieveCoverLetterGuide | rag_setup.py:131-146 | the guide tool formats the guide retriever's documents with the guide sentinel |
| RagSetup.FormattedSentinel | rag_setup.py:122-123 | when heading and sentinel begin differently, the output is the sentinel iff nothing was retrieved |
| RagSetup.ToolSentinels | rag_setup.py:120-140 | each tool says its "No relevant ..." sentence iff its retriever found nothing |
| RagSetup.FormattedHoldsSection | rag_setup.py:125-129 | every retrieved document shows up as its numbered section |
| RagSetup.FormattedAppend | rag_setup.py:125-129 | one more document appends a blank line and its numbered section |
| Agent.ToolResultsAppend | main.py:99-106 | the results (`ToolResults`) of consecutive calls concatenate, keeping call order |
| Agent.UnknownToolSkipped | main.py:104-106 | a call to an unknown tool adds nothing and raises nothing |
| Agent.KnownToolsAnswerEach | main.py:99-106 | when every call names a known tool, there is one result per call, the i-th being that tool's answer |
| Agent.InvokeTool | main.py:104-106 | a known tool answers as its retrieval tool formats |
| Agent.RunStage | main.py:93-113 | no tool calls: one model call, messages unchanged, its reply's text (`StageAnswer`); tool calls: two calls, messages grown by the assistant and results turns |
| Agent.StageAnswerCases | main.py:93-113 | the follow-up keeps the prompt, then adds the first reply as an assistant turn and the results as a user turn |
| Agent.ApplyTouchesOnlyPatch | main.py:41-56 | merging a patch sets its slots, keeps every other slot, and appends its messages |
| Agent.GetJobDescriptionNode | main.py:59-81 | fails iff the description is missing or empty; otherwise patches only the settled company name |
| Agent.SettledCompanyKept | main.py:74-81 | a truthy supplied company name is kept; otherwise the cascade's name is used |
| Agent.ToolStageNode | main.py:84-116 | a generation node builds its prompt from its input slots and stores the stage runner's answer |
| Agent.StagePatchOwnSlot | main.py:113-116 | each generation node's patch sets only its own slot and adds no message |
| Agent.CheckResumeLengthNode | main.py:259-296 | the length check asks the tool-free model once and patches the verdict and one note |
| Agent.UpperKeepsContains | main.py:278 | a `TOO_LONG` written in any case is found in the upper-cased verdict |
| Agent.LengthNoteCases | main.py:278-296 | the note is the adjusted one when `TOO_LONG` appears in any case, the fits one iff it does not |
| Agent.LengthCheckKeepsTexts | main.py:287-296 | the length check stores the verdict, leaves every other slot (the tailored texts too) and adds one AI note |
| Agent.SaveOutputsNode | main.py:372-401 | the node saves under `outputs` next to `main.py` and patches only the returned record |
| Agent.StepProgress | main.py:116 | a node that patches one slot advances the run by that slot and nothing else |
| Agent.StageStep | main.py:84-116 | one generation node merged into the state fills its slot and keeps everything else |
| Agent.TailorStages | main.py:84-256 | the five tailoring nodes fill their slots in turn |
| Agent.LengthStep | main.py:259-296 | the length node fills the verdict and adds one message |
| Agent.LetterStages | main.py:299-369 | the cover-letter and interest nodes fill their slots |
| Agent.SaveStep | main.py:372-401 | the output node stores a record whose position is the extracted title |
| Agent.Invoke | main.py:420-433 | the run fails iff the description is missing or empty; otherwise every node's slot holds a value (the slots test_agent.py checks), the others are unchanged, the company is settled, the record is saved, and one message is added |
| Agent.Chain | main.py:420-430 | a linear chain links each node to the next |
| Agent.GraphBuilder.constructor | main.py:405 | a new builder has no nodes and no edges |
| Agent.GraphBuilder.AddNode | main.py:408-417 | `add_node` appends the name and leaves the edges |
| Agent.GraphBuilder.AddEdge | main.py:420-430 | `add_edge` appends the pair and leaves the nodes |
| Agent.AddAgentNodes | main.py:408-417 | the ten `add_node` calls append the node names in order |
| Agent.AddAgentEdges | main.py:420-430 | the eleven `add_edge` calls append the graph's edges in order |
| Agent.BuildAgentGraph | main.py:405-430 | the builder ends with exactly the ten nodes and the eleven edges |
| Agent.AgentEdgesChain | main.py:420-430 | the edges are the chain `START`, the ten nodes, `END` |
| Agent.AgentPathDistinct | main.py:408-430 | no name appears twice on that path |
| Agent.Successor | main.py:420-430 | a node's successor comes from one of its edges |
| Agent.SuccessorIsFirst | main.py:420-430 | the successor is the target of the node's first edge |
| Agent.WalkFollowsChain | main.py:420-430 | `Walk` along a chain of distinct names from any node follows the chain to its end |
| Agent.AgentGraphOrder | main.py:420-433 | `Walk` over the built graph from `START` visits the ten nodes in order and reaches `END` |

## Left out

- Document metadata values are modelled as strings. `PyPDFLoader` also
  stores non-string values, such as an integer `page`; only `source_type`
  is ever read, and it is a string.
- Chat models, embeddings, Chroma, `PyPDFLoader` and the text splitter are
  parameters. A model's reply is a function of the messages it gets, so
  two identical calls get the same reply. The splitter's chunking is not
  modelled.
- Similarity ordering is a parameter, and its ranking is not required to
  be a permutation of the store. `RagSetup.RetrieveBounded` therefore
  bounds the documents by what the ranking returns. They are inside the
  store only when the ranking keeps to the store.
- The LangGraph runtime is not modelled: node validation in `add_node`,
  `compile`, and `add_messages` beyond appending. `Agent.Invoke` runs the
  ten nodes in the order `Agent.AgentGraphOrder` proves the edges give.
- Agent.Invoke: says each filled slot holds a value, not that it is
  non-empty. A model may reply with an empty text, which the test's
  `bool(...)` would reject.
- Reading a missing slot with `state["slot"]` raises `KeyError`. Here that
  is a precondition (`HasInputs`, `CanSave`). The run never reaches such a
  read, since the slots are filled in order.
- The prompt builders of `prompts.py` are one parameter
  (`Environment.prompts`). The tool call arguments are taken to hold a
  query.
- `Chroma.from_documents` on a directory that already holds a collection
  is not modelled as an append. The fresh store holds exactly the new
  chunks.
- HTTP, BeautifulSoup element removal and container search are one
  parameter (what the page yields). This includes `raise_for_status`. The
  BrightData POST and its JSON decoding are another. Of a JSON list or
  object the model keeps only its length, and of a number, boolean or
  null only its truth value.
- `extract_company_name_with_llm` (web_operations.py:179-215) is not
  modelled. Nothing calls it, and it calls an undefined `get_llm`.
- The five sentence regexes are one matcher parameter. The model keeps
  the stripping and the 3..50 length test applied to each match.
- Case mapping, `title` and `isupper` are modelled on ASCII; Unicode case
  rules are left out.
- CompanyResolver.CapitalisedWords: the word characters of `\b` are
  ASCII letters, digits and `_` only. Python's `re` also counts every
  other Unicode letter and digit, so on "Société" the model finds "Soci"
  where the program finds no word. The callers `FrequentWord`,
  `ResolveFromLines` and `ResolveCompany` inherit this. Python's Unicode
  character classes are not modelled. `strip()` uses Python's whitespace characters.
- `urlparse` is modelled only as far as the netloc: the scheme, `//`,
  the authority up to `/`, `?` or `#`, and the bracket check that raises.
  Any other parse error, swallowed by the bare `except`, is left out.
- reportlab layout, file writing, `os.makedirs` and `datetime.now` are
  left out. Clock readings are date-time parameters. The lemmas that tell
  stamps apart assume four-digit years. The PDF's success is a boolean parameter. The directory
  to create is a returned flag.
- `os.path.join` is modelled for a relative file name. It adds a `/`
  unless the directory is empty or already ends in one.
- Printing, `cli.py`, `debug_test.py` and the prompt-text tests are
  left out.
- The model follows the code as written:
  - the model-name check refuses only `"NONE"` (any case), and
    `"UNKNOWN"` passes;
  - a sentence match must be longer than 3 and shorter than 50
    characters;
  - the frequency step takes the first of the top three words that occurs
    at least twice and has 4 to 29 characters.
