# Compete_AI: a Dafny model of the analysis pipeline

Compete_AI is a single-page React application. It compares a primary company website with up
to four competitor websites. The user enters the URLs in the new-analysis form. The
application shell starts a job and calls the generation service. That service sends one
instruction to a hosted language model with web search, cleans the answer and parses it as
JSON. It then merges the parsed value into a report object after an id, a timestamp and the
URLs. The report page derives its tables and charts from that report.

This project models that core as pure Dafny functions over immutable data, and proves what
each part promises:

- `Types` (types.ts): the job status enum, the report schema, and the untyped JSON values the
  service produces.
- `Text` and `Seqs`: the JavaScript string and array operations the code relies on. These are
  `trim`, `join`, `replace` with a string pattern, `includes`, number-to-string, and `filter`.
- `Fence`: the global regular-expression replace of ```` ```json\n? ```` and ```` \n?``` ````
  followed by `trim()`. The replace is modelled as the left-to-right scan that the
  regular-expression engine performs. At each position the four alternatives are tried in
  priority order.
- `Prompt`: the instruction template, and the progress messages of `generateAnalysis`.
- `Service`: `generateAnalysis`. The SDK call and `JSON.parse` are function parameters. The
  object spread `{id, timestamp, primaryUrl, competitors, ...parsed}` is modelled exactly:
  - an object contributes its own properties;
  - an array or a string contributes the index keys "0", "1", …;
  - null, a boolean or a number contributes nothing;
  - a later key wins.
- `NewAnalysis`: the competitor-list editor and the submit guard and filter of the form. It
  also models the choice between the form and the progress panel.
- `App`: `handleStartAnalysis` as a pure transition function over the shell's four state
  hooks, and the tab dispatch of `renderContent`. The pending 3-second reset timers are
  counted, and their firing is an event.
- `ReportView`: the derivations the report page computes:
  - hostnames;
  - feature-matrix marks;
  - feature-density bars;
  - positioning points;
  - pricing cards;
  - SWOT cards;
  - the SEO table;
  - tech-stack lists.

Some behaviours of the code are easy to overlook, and the model keeps them as written:

- The parsed answer can overwrite `primaryUrl` and `competitors`, because the spread comes
  last.
- No top-level content key is required.
- Every fence occurrence is removed, including one inside a JSON string value, not only an
  outer pair.
- No event ever sets the status ANALYZING.
- Every failure ends in the same error message.

The lemmas below state each of these.

## Model

| member | source | states |
|---|---|---|
| Types.ParseStatus | types.ts:1-7 | reading an enum string gives a status exactly when one of the five statuses carries that string, and that status is the one carrying it |
| Types.StatusEnumeration | types.ts:1-7 | the enum has exactly five statuses with five distinct string values, and every status reads back from its own string |
| Types.ParseMetaHealth | types.ts:34 | only "Good", "Fair" and "Poor" name a meta-description health, each naming the value that prints as it |
| Types.ParseFreshness | types.ts:36 | only "High", "Medium" and "Low" name a blog freshness, each naming the value that prints as it |
| Types.Companies | views/ReportView.tsx:168 | the company list of a report has one more entry than the competitor list: the primary URL first, then the competitors in order |
| Types.SchemaKeys | types.ts:61-80 | the report has four identity keys and nine pairwise distinct content keys, and no content key is an identity key; `Service.Identity` writes exactly the identity keys and `Service.OverrideWithoutContentAccepted` uses this to show a report with none of the content keys |
| Text.Trim | services/geminiService.ts:120 | the trimmed string is a slice of the input with no whitespace at its own edges and only whitespace before and after it |
| Text.TrimIdentity | services/geminiService.ts:120 | a string with no whitespace at either edge trims to itself |
| Text.TrimEmptyIff | views/NewAnalysis.tsx:38 | a string trims to "" exactly when every character is whitespace |
| Text.ConcatAppend | services/geminiService.ts:20-100 | concatenating the pieces of two lists equals concatenating each list and joining the results |
| Text.ConcatContainsRun | services/geminiService.ts:20-100 | any run of consecutive pieces occurs as a substring of the concatenation |
| Text.Join | services/geminiService.ts:26 | the join of no strings is empty, the join of one string is that string, and otherwise it starts with the first string and is exactly as long as all strings together plus one separator between each two |
| Text.JoinAppend | services/geminiService.ts:26 | joining two non-empty lists puts exactly one separator between their joins, which with the one-string case fixes the join of every list |
| Text.JoinEmptyIff | views/ReportView.tsx:152-154 | with a non-empty separator, a join is empty exactly for the empty list and for a list holding one empty string |
| Text.FindFrom | views/ReportView.tsx:20 | the index found is an occurrence of the pattern at or after the start, with none before it, and no index is found exactly when no occurrence exists |
| Text.ReplaceFirst | views/ReportView.tsx:20 | text without the pattern is unchanged, and otherwise the first occurrence, and only it, is replaced |
| Text.Decimal | services/geminiService.ts:15 | a number prints as a non-empty string of digits with no leading zero, which is one digit long exactly when the number is below ten |
| Text.DecimalRoundTrip | services/geminiService.ts:15 | reading a printed number back gives the number |
| Text.DecimalInjective | services/geminiService.ts:130 | distinct indices print as distinct keys |
| Seqs.Filter | views/NewAnalysis.tsx:38 | the kept elements are elements of the input that pass the test, and every element that passes is kept |
| Seqs.FilterConcat | views/NewAnalysis.tsx:38 | filtering keeps the order: filtering a concatenation gives the concatenation of the two filtered parts |
| Fence.MatchLength | services/geminiService.ts:120 | a match at a position is 0, 3, 4, 7 or 8 characters long and never runs past the end of the text |
| Fence.MatchLengthIsPriorityOrder | services/geminiService.ts:120 | the match taken is the first alternative, in the pattern's order, that the text starts with |
| Fence.Strip | services/geminiService.ts:120 | removing the matches never lengthens the text |
| Fence.Clean | services/geminiService.ts:120 | the text handed to the parser has no whitespace at either edge and is no longer than the raw text |
| Fence.NoMatchWithoutFence | services/geminiService.ts:120 | text that does not contain "```" has no match at its start |
| Fence.StripPlainPrefix | services/geminiService.ts:120 | a prefix with no backtick that does not end in a newline is kept verbatim, and the scan resumes after it |
| Fence.StripNoFence | services/geminiService.ts:120 | text without "```" passes the scan unchanged |
| Fence.CleanWithoutFence | services/geminiService.ts:120 | on text without "```" cleaning only trims, and it is the identity when the text also has no edge whitespace |
| Fence.StripBeforeClosingFence | services/geminiService.ts:120 | a closing "\n```" after fence-free text is removed and nothing else changes |
| Fence.WrappedRoundTrip | services/geminiService.ts:120 | a payload without "```" and without edge whitespace, wrapped in "```json\n" and "\n```", cleans back to exactly the payload |
| Fence.StripLeadingFence | services/geminiService.ts:120 | a "```" not followed by "json" is removed |
| Fence.StripRemovesInnerFence | services/geminiService.ts:120 | a "```" in the middle of the text is removed as well, not only one at the edges |
| Fence.StripLeadingJsonFence | services/geminiService.ts:120 | a "```json" not followed by a newline is removed |
| Fence.StripRemovesInnerJsonFence | services/geminiService.ts:120 | a "```json" inside the payload, for example inside a string value, is removed, so the cleaned payload differs from the one sent |
| Prompt.ExampleKey | services/geminiService.ts:52 | the example key is the first competitor when there is one and it is non-empty, and "comp1" otherwise |
| Prompt.RenderEmbedsUrls | services/geminiService.ts:20-100 | whatever the literal text of the template, the filled-in template holds each label followed by its URL or URLs, and each example object keyed by the primary URL followed by the example key |
| Prompt.PromptEmbedsUrls | services/geminiService.ts:25-26 | the prompt contains "Primary Company: " followed by the primary URL, the label "Competitors: " followed by the competitors joined with ", ", and the availability, SWOT and positioning examples keyed by the primary URL and then the example key |
| Prompt.InitMessageStatesCount | services/geminiService.ts:13-15 | the first progress message states the number of sites it was built from |
| Service.Indexed | services/geminiService.ts:130 | spreading an array binds the key of each index to its item and has no other key |
| Service.Spread | services/geminiService.ts:130 | the spread of an object is its own properties, of an array or string its indexed items or characters, and of null, a boolean or a number nothing |
| Service.Identity | services/geminiService.ts:125-129 | the fields written before the spread are exactly the identity keys id, timestamp, primaryUrl and competitors, holding the given id, the given timestamp, the caller's URL and the caller's competitor list |
| Service.Merge | services/geminiService.ts:125-131 | the merged object has the keys of both parts, and the later part wins on a shared key |
| Service.Hydrate | services/geminiService.ts:116-131 | a report results exactly when the text is present, non-empty and parses after cleaning, and it is the merged object; every failure is the one fixed error |
| Service.Respond | services/geminiService.ts:13-138 | the progress trace is the site-count message and the crawl message, then the synthesis message exactly when the SDK call returned; the outcome is the hydrated report or the fixed error |
| Service.GenerateAnalysis | services/geminiService.ts:7-139 | a report results only if the SDK call, asked with the built prompt, returned; the synthesis message is sent exactly then |
| Service.InitialProgressCountsSites | services/geminiService.ts:13-15 | whatever the SDK call yields, the first progress message announces one site for the primary and one for each competitor |
| Service.EchoSurvivesUnlessOverridden | services/geminiService.ts:125-131 | the report keeps the caller's primary URL, and likewise its competitor list, exactly when the parsed value does not set that key to something else |
| Service.ParsedPropertiesKept | services/geminiService.ts:125-131 | every parsed property reaches the report unchanged, and the report's keys are the parsed keys plus the four identity keys |
| Service.OverrideWithoutContentAccepted | services/geminiService.ts:122-131 | a parsed object that only sets "primaryUrl" is accepted: the report carries the foreign URL, only the four identity keys, and none of the nine content keys |
| Service.ScalarPayloadYieldsBareReport | services/geminiService.ts:122-131 | a payload that parses to null, a boolean or a number still yields a report, holding only the identity fields |
| Service.FencedPayloadHydratesAsBare | services/geminiService.ts:120-131 | a payload wrapped in a json fence hydrates exactly as the bare payload does |
| Service.FailuresAreIndistinguishable | services/geminiService.ts:102-138 | a thrown SDK error, an empty answer and an unparseable answer end in the same outcome |
| NewAnalysis.AddCompetitor | views/NewAnalysis.tsx:15-19 | below four rows an empty row is appended and the others are kept; at four rows nothing changes |
| NewAnalysis.RemoveCompetitor | views/NewAnalysis.tsx:21-25 | removing an existing row shortens the list by one, shifting the later rows up; an index past the end changes nothing |
| NewAnalysis.UpdateCompetitor | views/NewAnalysis.tsx:27-31 | the edited row takes the typed value and every other row is unchanged |
| NewAnalysis.RemoveThenReinsert | views/NewAnalysis.tsx:21-25 | putting a removed row back at its index restores the list |
| NewAnalysis.UpdateUndo | views/NewAnalysis.tsx:27-31 | writing the old value back undoes an update |
| NewAnalysis.ApplyEdit | views/NewAnalysis.tsx:99-133 | an edit goes through when its button is shown and enabled and its row is on screen, and leaves the list unchanged otherwise (a hidden add button, a disabled remove button on the only row, a row past the end); only adding or removing changes the number of rows |
| NewAnalysis.EditKeepsRowBounds | views/NewAnalysis.tsx:15-31 | one edit keeps the list between one and four rows |
| NewAnalysis.EditsKeepRowBounds | views/NewAnalysis.tsx:113-133 | any series of edits keeps the list between one and four rows |
| NewAnalysis.InitialRowsInBounds | views/NewAnalysis.tsx:13 | starting from the two initial competitors, the form always shows between one and four rows |
| NewAnalysis.HandleSubmit | views/NewAnalysis.tsx:35-39 | nothing is submitted exactly when the primary URL is empty; otherwise the primary URL is submitted as typed, with the entries that are not all whitespace |
| NewAnalysis.WhitespacePrimaryPasses | views/NewAnalysis.tsx:37 | a primary URL made of spaces is submitted |
| NewAnalysis.SubmitKeepsOrder | views/NewAnalysis.tsx:38 | the submitted competitors keep the order of the rows |
| NewAnalysis.SubmitDoesNotTrim | views/NewAnalysis.tsx:38 | any row with a non-whitespace character is submitted exactly as typed, edge spaces included, and an all-whitespace row is dropped; with SubmitKeepsOrder this fixes the submitted list of every form |
| NewAnalysis.View | views/NewAnalysis.tsx:33-59 | the progress panel with the current message is shown exactly while the status is CRAWLING or ANALYZING, and the form otherwise |
| App.Step | App.tsx:29-49 | submitting sets CRAWLING with the start message; progress replaces the message; success stores the report, sets COMPLETED and opens the dashboard; failure sets FAILED with the fixed message and schedules a reset; a reset sets IDLE; only success changes the report |
| App.NeverAnalyzing | App.tsx:29-49 | no series of events leads to ANALYZING |
| App.ReachableStatuses | App.tsx:29-49 | from the initial state exactly IDLE, CRAWLING, COMPLETED and FAILED are reachable |
| App.ProgressEvents | App.tsx:37 | each progress callback becomes one progress event, in order |
| App.LastProgressWins | App.tsx:37 | a run of progress callbacks only changes the message, and the last one wins |
| App.AnalysisEvents | App.tsx:29-49 | one analysis is a submit, the service's progress trace, and then a success carrying the report or a failure |
| App.AnalysisOutcome | App.tsx:29-49 | after an analysis that yields a report, that report is current, the status is COMPLETED, the tab is the dashboard and the message is the last progress message; after a failure the status is FAILED with the fixed message, one more reset is pending, and the report and tab are as before |
| App.StartAnalysisEnds | App.tsx:29-49 | against the service, the shell ends COMPLETED exactly when a report is produced and FAILED exactly when it is not, with the matching report and message |
| App.FailureThenTimer | App.tsx:45-47 | after a failure the reset timer returns the status to IDLE and changes nothing else |
| App.StaleTimerInterruptsNewJob | App.tsx:30-47 | the reset timer of an earlier failure is not cancelled: if it fires during a new crawl, the status becomes IDLE and the form replaces the progress panel |
| App.RenderContent | App.tsx:51-95 | the form shows on tab "new", the report on "dashboard" when one exists and the empty notice otherwise, the demo notice on "report-demo", and the placeholder on any other tab |
| App.SuccessShowsReport | App.tsx:40-64 | a successful analysis lands on the dashboard showing the report it produced |
| App.ReportPersists | App.tsx:40 | once a report is stored no later event removes it |
| App.LoadingMeansCrawling | App.tsx:53-59 | in every reachable state the form shows its progress panel exactly while the status is CRAWLING |
| ReportView.ColorFor | views/ReportView.tsx:225 | every index gets a colour of the five-colour palette, and the first five indices get the palette's colours in order; with ColorPeriodic this fixes the colour of every index |
| ReportView.ColorPeriodic | views/ReportView.tsx:225 | the palette repeats every five indices |
| ReportView.ColorsDiffer | views/ReportView.tsx:13 | indices fewer than five apart get different colours |
| ReportView.Hostname | views/ReportView.tsx:19-21 | a URL that does not parse is shown as it is; a parsed hostname is shown with its first "www." removed, wherever it stands |
| ReportView.HostnameDropsFirstWww | views/ReportView.tsx:20 | the first "www." is dropped even in the middle of a hostname, and a second one after it is kept |
| ReportView.Classify | views/ReportView.tsx:39-43 | exactly `true` shows a check mark and exactly `false` a cross; a qualifier or a missing key shows as a text label |
| ReportView.MatrixRowFor | views/ReportView.tsx:66-83 | a matrix row has one mark per company, each the mark of that company's availability entry |
| ReportView.Matrix | views/ReportView.tsx:58-83 | the matrix has one row per feature and one column for the primary and for each competitor |
| ReportView.FeatureCount | views/ReportView.tsx:216 | a company's count is at most the number of features; it is zero exactly when no feature is `true` for it, and the full number exactly when all are |
| ReportView.FeatureCountSplits | views/ReportView.tsx:216 | counts add up over any split of the feature list |
| ReportView.CountIsCheckMarks | views/ReportView.tsx:214-217 | a company's count equals the number of check marks in its matrix column |
| ReportView.FeatureDensity | views/ReportView.tsx:214-243 | one bar per company, primary first, labelled with its hostname and carrying its count; a bar is highlighted exactly when its label contains the primary's label |
| ReportView.PrimaryBarHighlighted | views/ReportView.tsx:243 | the primary's bar is always highlighted |
| ReportView.EnumerationSize | views/ReportView.tsx:220 | an enumeration of a map's keys that lists each key once is as long as the map is large |
| ReportView.PositioningData | views/ReportView.tsx:220-226 | one point per enumerated entry, with the entry's coordinates, the fixed bubble size and the palette cycled by index |
| ReportView.OnePointPerEntry | views/ReportView.tsx:220 | the chart has exactly one point per positioning entry |
| ReportView.ColorsCycle | views/ReportView.tsx:225 | point colours repeat every five points, and any five consecutive points have distinct colours |
| ReportView.PointsOnScale | views/ReportView.tsx:220-226 | when the report's coordinates are on the 0-100 scale, every point is |
| ReportView.TierDisplay | views/ReportView.tsx:113-123 | a tier shows its first four included features, in order, and the count of the rest exactly when there are more than four |
| ReportView.TierDisplayLosesNothing | views/ReportView.tsx:113-122 | the shown features followed by the summarised ones are the tier's features, and the summary count is their number |
| ReportView.PricingCardFor | views/ReportView.tsx:91-133 | a pricing card is titled with the hostname, is emphasised exactly for the primary URL, shows the trial badge exactly when the model has a trial, and shows the placeholder exactly when there are no tiers |
| ReportView.Pricing | views/ReportView.tsx:91 | one pricing card per pricing model, in report order |
| ReportView.SwotUrls | views/ReportView.tsx:168-170 | the companies shown are companies of the analysis that have a SWOT entry, and every such company is shown |
| ReportView.SwotCards | views/ReportView.tsx:168-176 | one SWOT card per shown company, in order, with its entry and its hostname, emphasised exactly for the primary |
| ReportView.SwotCardsCover | views/ReportView.tsx:168-170 | every company of the analysis with a SWOT entry gets a card |
| ReportView.SwotUrlsKeepOrder | views/ReportView.tsx:168-170 | skipping companies without an entry keeps the company order |
| ReportView.SwotUrlsAllPresent | views/ReportView.tsx:168-170 | when every company has an entry, none is skipped |
| ReportView.ForeignSwotHidden | views/ReportView.tsx:168-170 | a SWOT entry for a URL outside the analysis is never shown |
| ReportView.FirstSeoFrom | views/ReportView.tsx:313 | the index found is an entry for the URL with no such entry before it, and none is found exactly when there is no such entry |
| ReportView.SeoLookup | views/ReportView.tsx:313 | the lookup finds nothing exactly when no entry has the URL; otherwise it finds the first entry that has it |
| ReportView.BandOf | views/ReportView.tsx:294 | a score above 80 is green, above 50 up to 80 amber, and 50 or below red |
| ReportView.BandMonotone | views/ReportView.tsx:294 | a higher score never gets a worse colour band |
| ReportView.SeoCell | views/ReportView.tsx:293-315 | a cell is a dash exactly when the company has no SEO entry; otherwise it formats the metric of the company's first entry |
| ReportView.SeoTable | views/ReportView.tsx:293-319 | the SEO table has four metric rows with one cell per company, primary first |
| ReportView.NoEntryAllDashes | views/ReportView.tsx:305-315 | a company without an SEO entry has a dash in every row |
| ReportView.FirstEntryWins | views/ReportView.tsx:313 | of two entries for the same company only the first is shown |
| ReportView.TechList | views/ReportView.tsx:152-154 | a tech list is never empty: it is the joined names, or "N/A" when the list is missing or joins to the empty string |
| ReportView.TechListCases | views/ReportView.tsx:152 | "N/A" stands for a missing list, an empty list and a list of one empty name; two or more names are always joined |
| ReportView.TechCardFor | views/ReportView.tsx:148-155 | a tech card is titled with the hostname and lists the frontend, backend and analytics tools |
| ReportView.TechSection | views/ReportView.tsx:142-158 | the tech section is shown exactly when there is at least one stack, with one card per stack in report order |

## Left out

- components/Layout.tsx is not part of this model. Navigation is the `Navigate` event. The
  theme toggle (App.tsx:14-27) and the `CrawlConfig` type are left out because nothing in the
  core reads them.
- JSX markup, CSS classes, icons and the recharts drawing are left out. Only the data each
  view derives is modelled.
- The Gemini SDK, the network and the API key are the `SdkOutcome` returned by the parameter
  `sdk`. The model name, the search tool and the temperature are not modelled.
- The internals of `JSON.parse` are the parameter `parse`. It returns a JSON value, or nothing
  where the real call throws.
- `new URL(url).hostname` is the parameter `parseHost`. It returns nothing where the
  constructor throws.
- `crypto.randomUUID()` and `new Date().toISOString()` are passed in as `id` and `timestamp`.
- `console.error`, the clipboard and summary text of `handleShare`, `window.print`,
  `toLocaleDateString`, `toFixed` and `report.id.slice(0, 8)` only format or output text.
  They are left out.
- Timing is not modelled. The 3-second reset is the `TimerElapsed` event, and the model
  counts the resets still pending. The `await` between progress callbacks is the order of
  events.
- The report page's own tab switch (views/ReportView.tsx:16, 363-399) is left out. It only
  chooses which derived section to draw.
- The recommendations footer and the executive summary are drawn verbatim from the report.
  They are left out.
- The new-analysis form's state is reset when the component unmounts on a tab change. That
  reset is not modelled. The editor lemmas start from any list.
- The browser's `required` and `type="url"` validation of the primary URL input is not
  modelled. The button's click handler calls `preventDefault` before that validation runs,
  so the submit guard is the code's own emptiness check.
- The App stores the merged object untyped (`JsObject`). The TypeScript annotation on it is
  an unchecked cast. `ReportView` works on the typed `AnalysisReport`. Reading an untyped
  object into that datatype is not modelled.
- ReportView: the report page is modelled on typed reports only, so it does not model where
  the page throws for a report the service accepts. A report without content keys, such as
  the one `Service.OverrideWithoutContentAccepted` shows is stored, makes the default matrix
  tab throw on `report.features.map` (views/ReportView.tsx:66). The positioning tab throws on
  `Object.entries(report.market_positioning)` (views/ReportView.tsx:220).
- ReportView: the lookups `report.swot?.[url]` (views/ReportView.tsx:169) and
  `feature.availability[url]` (views/ReportView.tsx:75, 79) also find members inherited from
  `Object.prototype`. The model's maps hold own keys only. The submit button calls
  `preventDefault` (views/NewAnalysis.tsx:36, 158-160), so the browser's URL check does not
  run, and a competitor such as "constructor" can be submitted. For it the page finds the
  `Object` function as its SWOT entry and throws on `swot.strengths.map`
  (views/ReportView.tsx:182), where `SwotUrls` skips it. A "__proto__" key makes
  `renderFeatureIcon` return an object that React refuses to render, where `Classify` gives
  an empty label.
- The enumeration order of `Object.entries(market_positioning)` is the parameter `order`,
  which must list each key once.
- Strings are sequences of characters. JavaScript indexes strings by UTF-16 code units, so
  spreading a string with characters outside the basic plane gives more keys than the model's
  `Characters`.
- NewAnalysis.UpdateCompetitor: requires an index of an existing row. Writing past the end of
  a JavaScript array makes a sparse array, and the rendered form only passes the index of a
  row it shows (`ApplyEdit` models that gate).
- Fence.Strip: its contract states only the length bound. What the scan keeps and removes is
  stated by the `Fence` lemmas listed above.
- Service.GenerateAnalysis: its contract states only what depends on the SDK answer. The full
  trace and outcome are stated on `Service.Respond`, which it calls with the built prompt.
