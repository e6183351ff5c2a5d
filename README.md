# Transcript analysis front end — Dafny model

The application takes a YouTube URL, asks an analysis provider for a structured study
report of the video's transcript, and then shows, copies and exports that report. This
project models the logic behind it:

- the report's data model;
- the two plain-text serialisers: the report's "copy" text and the page's ".txt" export.
  They look alike but differ line by line, so the model keeps them apart;
- the open/closed map of the report's sections, which the component keeps but no
  rendering reads (each collapsible widget keeps its own open state);
- the dispatch of the four export formats and the file names they get from the current
  timestamp;
- the paragraph list handed to the DOCX writer and the option record handed to the PDF
  converter;
- the page's submission state machine;
- the string and number helpers of `utils.ts`;
- the dashboard's tab ↔ URL mapping;
- the authentication check of the protected route.

Modules, one per source file plus a shared text module and a shared `Option` type:

- `TextUtil` (`text.dfy`) provides:
  - JavaScript's `String.prototype.split` on one character and `Array.prototype.join`;
  - the `forEach(x => text += f(x))` accumulation, written as `ConcatMap`;
  - decimal rendering of integers;
  - `toUpperCase`;
  - the `=== HEADING ===` section layout that both serialisers share.
- `Report` (`report.dfy`, `components/ReportSection.tsx`): the result types. The copy text
  is a specification function over eight sections. `GenerateReportText` is the imperative
  accumulator, proved equal to it. The module also has the section toggle map and the
  export dispatch.
- `Analysis` (`analysis.dfy`, `pages/TranscricaoAnalise.tsx`) has three parts:
  - the export text, as a specification function plus the imperative `GenerateTextExport`;
  - the download produced by `handleExport`;
  - the class `AnalysisPage` with the page's five pieces of state.
- `ExportUtils` (`export.dfy`, `lib/exportUtils.ts`): the DOCX document as a list of
  paragraphs, and the PDF job.
- `Utils` (`utils.dfy`, `lib/utils.ts`): `truncate`, `formatNumber`, `getInitials` and
  `readingTime`. `formatNumber`, `getInitials` and the word count each have an independent
  reference definition; `truncate` has its idempotence instead.
- `Dashboard` (`dashboard.dfy`, `pages/DashboardPage.tsx`): the initial tab derived from the
  path, `handleTabChange`, and the round trip between the two.
- `ProtectedRoute` (`guard.dfy`, `components/auth/ProtectedRoute.tsx`): the `checkAuth`
  decision, the `isAuthChecked` flag and the choice between spinner and children.
- `Wrappers` (`wrappers.dfy`): the `Option` type the other modules share.

Inputs from outside the program become parameters:

- the current time is the ISO string `isoNow`;
- the page's DOM is the set of element ids it contains;
- the settled value of the provider's promise is a `ProviderOutcome`;
- the authentication state is the pair `loading` / `user`.

## Model

| member | source | states |
|---|---|---|
| TextUtil.Split | src/components/ReportSection.tsx:439 | `split` on one character always yields at least one piece |
| TextUtil.JoinSplit | src/components/ReportSection.tsx:439 | joining the pieces of a split with the separator gives back the original string |
| TextUtil.SplitJoin | src/components/ReportSection.tsx:124 | splitting a join of non-empty lists of separator-free items gives back exactly the items |
| TextUtil.NatToStringValue | src/components/ReportSection.tsx:157-158 | the decimal rendering used for numbers in templates denotes the number itself |
| TextUtil.UpperProperties | src/components/ReportSection.tsx:121 | upper-casing keeps the length, works character by character, is idempotent and leaves no ASCII lower-case letter |
| TextUtil.SectionHeadingAt | src/components/ReportSection.tsx:93-159 | in text built of `=== h ===` sections, section k's delimiter line sits at that section's offset, and offsets strictly increase |
| TextUtil.ConcatMapAt | src/components/ReportSection.tsx:98-107 | in a `forEach` accumulation, item i's text stands between the text of the items before it and the text of the items after it |
| TextUtil.ItemLines | src/pages/TranscricaoAnalise.tsx:241-247 | newline-terminated items free of line breaks split back into the items followed by one empty piece |
| Report.GenerateReportText | src/components/ReportSection.tsx:92-162 | the imperative accumulator returns exactly the eight-section copy text, with blocks and conditional tip lines in input order |
| Report.AppendConcepts | src/components/ReportSection.tsx:98-107 | the concept loop appends each concept's block in order to the text so far |
| Report.AppendPoints | src/components/ReportSection.tsx:111-117 | the main-point loop appends each point's block in order |
| Report.AppendTechniques | src/components/ReportSection.tsx:135-139 | the technique loop appends each technique's block in order |
| Report.AppendQuestions | src/components/ReportSection.tsx:143-151 | the question loop appends each question's block in order |
| Report.ReportSectionHeadings | src/components/ReportSection.tsx:93-155 | the copy always has eight sections with the fixed headings; the fourth is the contexts title upper-cased |
| Report.ReportHeadingLine | src/components/ReportSection.tsx:93-155 | every heading line appears in the copy text, in order |
| Report.ReportTextEnd | src/components/ReportSection.tsx:159-161 | the copy text ends with the metadata's source line |
| Report.ConceptTipLine | src/components/ReportSection.tsx:104-106 | a concept's tip paragraph is present exactly when the tip is truthy; nothing else in the block depends on it |
| Report.QuestionTipLine | src/components/ReportSection.tsx:147-150 | a question's tip line is present exactly when the tip is truthy, just before the closing blank line |
| Report.ReportConceptAt | src/components/ReportSection.tsx:98-107 | each concept's block is at its own position among the concepts |
| Report.NumberedLines | src/components/ReportSection.tsx:131 | the learning sequence is one line `k. item` per item, numbered from 1 in input order, and splits back into those lines |
| Report.EmptyLearningStructure | src/components/ReportSection.tsx:128-131 | empty prerequisite and sequence lists still leave their blank lines in the copy |
| Report.InitialOpenSections | src/components/ReportSection.tsx:69-76 | the open-sections map starts with exactly the six section keys, all open |
| Report.ToggleSection | src/components/ReportSection.tsx:78-83 | toggling negates one key and leaves every other key unchanged; a key not in the map becomes open, except a name the object inherits from `Object.prototype` (`toString`, `constructor`, `__proto__`, …), whose truthy inherited value makes it closed |
| Report.ToggleTwice | src/components/ReportSection.tsx:78-83 | toggling a known section twice restores the map |
| Report.ToggleUnknownTwice | src/components/ReportSection.tsx:78-83 | toggling a key not in the map twice does not restore the map: the key is left in it, closed for an ordinary name and open for an inherited one |
| Report.ToggleCommutes | src/components/ReportSection.tsx:78-83 | toggles of two different sections commute |
| Report.SummaryParagraphs | src/components/ReportSection.tsx:439 | the summary shows one paragraph per line (line breaks + 1), free of line breaks, that join back into the summary |
| Report.DatePart | src/components/ReportSection.tsx:167 | `toISOString().split('T')[0]` is the longest prefix of the timestamp before its first `T` |
| Report.DatePartOfTimestamp | src/components/ReportSection.tsx:167 | for `date + "T" + time` with a `T`-free date, the date part is exactly that date |
| Report.HandleReportExport | src/components/ReportSection.tsx:164-173 | PDF exports element `report-content` and DOCX exports the result, both as `analise-<date>`; text and JSON go to the page |
| Analysis.GenerateTextExport | src/pages/TranscricaoAnalise.tsx:204-279 | the imperative accumulator returns exactly the eight-section export text |
| Analysis.AppendExportConcepts | src/pages/TranscricaoAnalise.tsx:210-219 | the concept loop appends each concept's export block in order |
| Analysis.AppendExportPoints | src/pages/TranscricaoAnalise.tsx:223-229 | the main-point loop appends each point's export block in order |
| Analysis.AppendLearning | src/pages/TranscricaoAnalise.tsx:240-248 | the two learning loops emit the header, one `- p` line per prerequisite, the sequence header, one numbered line per step and a blank line |
| Analysis.AppendExportTechniques | src/pages/TranscricaoAnalise.tsx:252-256 | the technique loop appends each technique's export block in order |
| Analysis.AppendExportQuestions | src/pages/TranscricaoAnalise.tsx:260-268 | the question loop appends each question's export block in order |
| Analysis.ExportSectionHeadings | src/pages/TranscricaoAnalise.tsx:205-272 | the export has eight sections with its fixed headings, ending with `METADADOS` |
| Analysis.ExportHeadingLine | src/pages/TranscricaoAnalise.tsx:205-272 | every heading line appears in the export, in order |
| Analysis.ExportTextEnd | src/pages/TranscricaoAnalise.tsx:272-278 | the export ends with the whole `METADADOS` block |
| Analysis.ExportMetadataEnd | src/pages/TranscricaoAnalise.tsx:273-276 | the metadata block's last line is the source line |
| Analysis.ExportConceptTipLine | src/pages/TranscricaoAnalise.tsx:216-218 | a concept's tip paragraph is in the export exactly when the tip is truthy |
| Analysis.ExportQuestionTipLine | src/pages/TranscricaoAnalise.tsx:264-267 | a question's tip line is in the export exactly when the tip is truthy, before the closing blank line |
| Analysis.ExportContextsLines | src/pages/TranscricaoAnalise.tsx:234-236 | with line-free fields, the contexts body is the description line, the relevance line, one comma-joined examples line and a blank line |
| Analysis.ExportLearningLines | src/pages/TranscricaoAnalise.tsx:241-247 | with line-free items, the prerequisites are one `- p` line each and the steps one `k. s` line each |
| Analysis.EmptyLearningExport | src/pages/TranscricaoAnalise.tsx:240-248 | with empty lists the export emits only the two headers and their blank lines, two line breaks fewer than the copy |
| Analysis.HandleExport | src/pages/TranscricaoAnalise.tsx:175-202 | a download happens exactly for a present result and text or JSON: `analise-<date>.txt` as `text/plain` with the export text, or `.json` as `application/json` with the result |
| Analysis.ExportFilenameOfTimestamp | src/pages/TranscricaoAnalise.tsx:184 | for a timestamp `date + "T" + time` the downloads are `analise-<date>.txt` and `analise-<date>.json` |
| Analysis.AnalysisPage.constructor | src/pages/TranscricaoAnalise.tsx:25-29 | the page starts with an empty URL, not processing, no result, on the transcript tab |
| Analysis.AnalysisPage.SetYoutubeUrl | src/pages/TranscricaoAnalise.tsx:310 | the field sets the URL, changes nothing else, and the analyse button is then disabled iff processing or the URL is empty |
| Analysis.AnalysisPage.SelectTab | src/pages/TranscricaoAnalise.tsx:340-350 | a tab button selects its tab and changes nothing else |
| Analysis.AnalysisPage.StartAnalyze | src/pages/TranscricaoAnalise.tsx:134-143 | an empty URL gives the error toast and leaves the state untouched; otherwise processing starts |
| Analysis.AnalysisPage.FinishAnalyze | src/pages/TranscricaoAnalise.tsx:154-172 | success stores and shows the result on the analysis tab with the success toast; failure keeps the previous result and tab with the error toast; processing always ends; results shown iff a result exists is preserved |
| Analysis.AnalysisPage.HandleAnalyze | src/pages/TranscricaoAnalise.tsx:133-173 | the provider is consulted iff the URL is non-empty, with the outcomes of the two phases above |
| ExportUtils.ConceptParagraphs | src/lib/exportUtils.ts:51-62 | each concept becomes five paragraphs |
| ExportUtils.ConceptsParagraphsLayout | src/lib/exportUtils.ts:50-63 | the flatMap gives 5 paragraphs per concept, concept i's j-th at index 5i+j |
| ExportUtils.DocxLayout | src/lib/exportUtils.ts:28-66 | the document is title, summary heading, summary, concepts heading, then per concept its heading-3 title, description, importance, difficulty and example, `4 + 5n` paragraphs, with their heading levels and spacing |
| ExportUtils.DocxDependsOnlyOnSummaryAndConcepts | src/lib/exportUtils.ts:22-66 | two results with the same summary and the same five exported concept fields give the same document |
| ExportUtils.ConceptsAlike | src/lib/exportUtils.ts:50-63 | concept lists that agree on the exported fields give the same paragraphs |
| ExportUtils.ExportToDocx | src/lib/exportUtils.ts:21-73 | the document is saved as `<filename>.docx`, with `4 + 5n` paragraphs |
| ExportUtils.ExportToPdf | src/lib/exportUtils.ts:6-19 | a job exists iff the element is on the page; it renders that element with margin 10, `<filename>.pdf`, jpeg 0.98, scale 2, mm, a4, portrait |
| ExportUtils.ReportExportFiles | src/components/ReportSection.tsx:164-170 | the report's PDF button renders `report-content` into `analise-<date>.pdf` (nothing when it is absent); DOCX saves this result's document as `analise-<date>.docx` |
| Utils.Truncate | src/lib/utils.ts:46-48 | a text no longer than the limit is returned unchanged; a longer one is cut at the limit (negative limits act as 0) and `...` appended |
| Utils.TruncateIdempotent | src/lib/utils.ts:46-48 | truncating twice with the same limit equals truncating once |
| Utils.FormatNumberProperties | src/lib/utils.ts:69-71 | removing the dots gives the plain decimal; groups are 1–3 digits then 3 each; a dot appears iff n ≥ 1000 |
| Utils.FormatNegative | src/lib/utils.ts:69-71 | for a negative number, removing the dots gives the plain decimal with its sign |
| Utils.FormatNonNegative | src/lib/utils.ts:69-71 | for a non-negative number, removing the dots gives the plain decimal; groups are 1–3 digits then 3 each; a dot appears iff n ≥ 1000 |
| Utils.GroupShape | src/lib/utils.ts:69-71 | dot grouping of a digit string gives a 1–3 digit first group, groups of 3 after it, and ⌈len/3⌉ groups |
| Utils.GroupWithout | src/lib/utils.ts:69-71 | dot grouping only inserts dots |
| Utils.GetInitials | src/lib/utils.ts:74-81 | at most two characters, all already upper case |
| Utils.GetInitialsSpec | src/lib/utils.ts:74-81 | the initials are the upper-cased first characters of the first two non-empty space-separated parts |
| Utils.FirstCharsNonEmpty | src/lib/utils.ts:76-78 | `part[0]` of an empty part contributes nothing to the join, so only non-empty parts count |
| Utils.TrimStart | src/lib/utils.ts:85 | trimming the start leaves a suffix that does not begin with white space, and only white space is dropped |
| Utils.TrimEnd | src/lib/utils.ts:85 | trimming the end leaves a prefix that does not end with white space, and only white space is dropped |
| Utils.Trim | src/lib/utils.ts:85 | a non-empty trimmed text begins and ends with non-white-space |
| Utils.TrimOnlyWhiteSpace | src/lib/utils.ts:85 | the trimmed text is the slice of the text after its leading white space, and everything cut before and after it is white space |
| Utils.TrimStartWords | src/lib/utils.ts:85 | trimming the start does not change the number of words |
| Utils.TrimEndWords | src/lib/utils.ts:85 | trimming the end does not change the number of words |
| Utils.WordsVersusRuns | src/lib/utils.ts:85 | in a text ending in a non-space, word starts and white-space runs are in step |
| Utils.WordCountIsWords | src/lib/utils.ts:85 | `trim().split(/\s+/).length` is the number of words, and 1 for a blank text |
| Utils.CeilDiv | src/lib/utils.ts:86 | `Math.ceil(a / b)` is the least q with a ≤ q·b |
| Utils.ReadingTime | src/lib/utils.ts:84-87 | at least one minute, and the least minute count whose words-per-minute budget covers the word count |
| Utils.ReadingTimeMonotone | src/lib/utils.ts:84-87 | a text with more words never reads faster |
| Utils.WordCountMonotone | src/lib/utils.ts:85 | a text with more words never has a smaller word count |
| Utils.CeilDivMonotone | src/lib/utils.ts:86 | `Math.ceil(a / b)` never decreases as `a` grows |
| Dashboard.InitialTab | src/pages/DashboardPage.tsx:16-19 | the initial tab is `overview` when the last path segment is empty or `dashboard`, and that segment otherwise |
| Dashboard.TabPath | src/pages/DashboardPage.tsx:32 | `overview` navigates to `/dashboard`, any other id to `/dashboard/<id>` |
| Dashboard.TabRoundTrip | src/pages/DashboardPage.tsx:16-33 | reloading after `handleTabChange(id)` restores the tab iff the id is `overview`, or is non-empty, slash-free and not `dashboard` |
| Dashboard.SegmentAfterDashboard | src/pages/DashboardPage.tsx:17 | the last segment of `/dashboard/<id>` is the last segment of the id |
| Dashboard.MenuRoundTrip | src/pages/DashboardPage.tsx:7-10 | both menu items survive the round trip |
| Dashboard.DashboardState.constructor | src/pages/DashboardPage.tsx:16-19 | the active tab starts as the tab derived from the path |
| Dashboard.DashboardState.HandleTabChange | src/pages/DashboardPage.tsx:30-33 | the tab becomes the chosen id and the navigation target is its path |
| ProtectedRoute.CheckAuthDecision | src/components/auth/ProtectedRoute.tsx:16-24 | redirect to `/login` with `replace` iff loading is over and neither the context user nor the global current user exists |
| ProtectedRoute.NoRedirectWhileLoading | src/components/auth/ProtectedRoute.tsx:18 | while loading there is never a redirect |
| ProtectedRoute.RouteGuard.constructor | src/components/auth/ProtectedRoute.tsx:12 | the route starts unchecked |
| ProtectedRoute.RouteGuard.CheckAuth | src/components/auth/ProtectedRoute.tsx:16-49 | a redirect leaves the flag untouched; otherwise the flag is set; once set it stays set; after the check the children render iff loading is over and the route was already checked or a user exists |
| ProtectedRoute.MountRoute | src/components/auth/ProtectedRoute.tsx:12-49 | a fresh route first shows the spinner; its first check redirects to `/login` iff loading is over and no user exists; the next render shows the children iff loading is over and a user exists |

## Left out

- The JSX rendering (cards, icons, collapsible widgets, the tabs' class names) is presentation only. The summary's paragraph split is modelled. The open-sections map is modelled as the state the component keeps: no rendering reads it and `toggleSection` has no call site, since every collapsible widget opens from its own `defaultOpen` (src/components/ReportSection.tsx:448, 469, 490, 511, 532, 553).
- The clipboard write and the two-second "copied" timer of `handleCopyToClipboard` are browser I/O.
- The analysis provider (`analyzeContent`), its mock data and its three-second latency are a foreign call. Its settled value is the `ProviderOutcome` parameter. The `await` in `handleAnalyze` is modelled as two steps, `StartAnalyze` and `FinishAnalyze`; other events interleaving between them are not modelled.
- Toasts are modelled as the values passed to `toast`; their display is not.
- `Blob`, object URLs and the temporary anchor of the downloads are browser I/O. A download is modelled as its file name, MIME type and payload.
- `JSON.stringify(analysisResult, null, 2)` is not modelled. The JSON payload carries the document value itself.
- `Packer.toBlob`, `saveAs` and `html2pdf` are foreign libraries. The model stops at what they are given.
- ExportUtils.DocxParagraphs: the summary paragraph built from a `TextRun` is not distinguished from a paragraph given `text`.
- `new Date().toISOString()` is I/O; the timestamp is the parameter `isoNow`.
- TextUtil.Upper: only ASCII and the Latin-1 letters are upper-cased. Other characters, and `ß`/`ÿ`/`µ`, which JavaScript maps differently, are left unchanged.
- Lengths and indices are counted in code points, not UTF-16 code units. For characters outside the BMP this matters to `Truncate` (`length`, `slice`) and to `GetInitials` (`part[0]` and `substring(0, 2)` can take half of a surrogate pair).
- Numbers are integers: `wordCount` and `segments` are rendered as integers. Fractional and exponent renderings, and `formatNumber` on non-integers, are not modelled.
- Utils.ReadingTime: requires a positive words-per-minute. For zero or negative values JavaScript yields `Infinity`, `NaN` or a non-positive number, and floating point is not modelled.
- `cn`, `animations`, `formatDate`, `generateId`, `debounce`, `copyToClipboard`, `isInViewport`, `getRandomColor` and `formatBytes` of `utils.ts` are styling, randomness, timers, the locale, floating point or browser I/O.
- `handleSignOut` of the dashboard delegates to the authentication provider and the router.
- The `auth-state-changed` listener of the protected route only re-runs `checkAuth`, which is modelled. Its registration is not.
- `AuthContext`, the login form, the profile page and the marketing components are not part of this model.
- The copy text and the `.txt` export differ (marker emojis, "Exemplo:" on its own line, the join of contexts and learning lists, the metadata heading). No equality between them is claimed; their differences are stated as the two sets of lemmas above.
