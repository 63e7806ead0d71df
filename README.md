# Success-metrics dashboard: a verified model of its data layer

The dashboard helps Sales, Marketing, Product, Data, Finance and Customer
Success agree on what their KPIs mean. Its behaviour lives in a small data
layer beneath the React views, and this project models that layer in Dafny:

- **The catalogue** (`KpiData`). This is the fixed data every view reads: ten
  conflicting metrics, five standardized glossary terms and three
  cross-department metric mappings. They are copied value for value, and
  lemmas state what the views rely on:
  - every metric names a team;
  - every metric has at least two definitions;
  - ids are 1..n;
  - severities are High, Medium or Low, sorted High before Medium before Low;
  - alignment statuses are one of the three known values.
- **The conflict matcher** (`ConflictMatcher`). The analysis endpoint and
  the Report Analyzer view run the same procedure:
  - scan the catalogue in order;
  - report every metric whose lower-cased name occurs in the lower-cased
    report text;
  - if nothing occurs, report the first three metrics as "potential"
    references;
  - summarise the count in a sentence.

  It is written as the source's two `forEach` loops (`RunMatcher`), proved
  equal to a functional specification (`Analyze`). Lemmas characterise that
  specification: exactly the mentioned metrics, in catalogue order; the
  fallback; bounds; the summary and issue sentences read back to the numbers
  they state.
- **The analysis endpoint** (`AnalyzeReportRoute`). It returns 500 for an
  unreadable body, 400 for an absent or empty `reportText`, and the
  matcher's analysis otherwise.
- **The views' state**:
  - the Report Analyzer (`ReportAnalyzerView`);
  - the conflicting-metrics list with its search and severity filter
    (`MetricConflictsView`);
  - the glossary with its search and add-term form (`GlossaryTermsView`);
  - the visualizer's slot labels, mapping export records and alignment
    badge (`KpiVisualizerView`).

  Components whose state the source updates in place are classes with
  `modifies` clauses. Filters are specified by an order-preserving selection
  (`Filtering.Keep` with its index characterisation `KeptIndices`).
- **CSV export** (`CsvExport`). `exportToCsv` is modelled as the source
  builds it: a key union through a set of seen keys, then one quoted,
  quote-doubled row per record. It is proved equal to a functional
  definition. Its partner is a reader: parsing the exported text gives back
  the header keys and every record's values (`ExportRoundTrip`). That reader
  follows the quoting rule of section 2, rule 7, of RFC 4180.

Strings are `seq<char>`. `toLowerCase` is modelled on ASCII letters.

## Model

| member | source | states |
|---|---|---|
| KpiData.CatalogueHasTeams | data/kpi-data.ts:6-221 | every conflicting metric lists at least one team, so `teams[0]` is always defined |
| KpiData.CatalogueConflicts | data/kpi-data.ts:6-221 | every conflicting metric carries at least two definitions |
| KpiData.CatalogueDefinitionsFromTeams | data/kpi-data.ts:6-221 | each definition's team is one of the metric's listed teams |
| KpiData.CatalogueIds | data/kpi-data.ts:6-221 | the catalogue has ten metrics with ids 1..10 in order |
| KpiData.CatalogueSeverities | data/kpi-data.ts:10-206 | every severity is High, Medium or Low and the list is sorted High, then Medium, then Low, as the list's caption claims |
| KpiData.StepwiseSorted | components/metric-conflicts.tsx:114 | checking each neighbouring pair suffices for the whole severity order |
| KpiData.GlossaryIds | data/kpi-data.ts:224-264 | the five glossary terms have ids 1..5, hence distinct |
| KpiData.SequentialIdsDistinct | components/glossary-terms.tsx:34 | ids numbered 1..n by position are pairwise distinct |
| KpiData.MappingStatuses | data/kpi-data.ts:267-328 | every mapping's status is Aligned, Partially Aligned or Misaligned |
| ConflictMatcher.Analyze | app/api/analyze-report/route.ts:46-78 | the matcher's result: never more findings than metrics, and at least one for a non-empty catalogue; its exact content is pinned down by MatchedSelects, FindingsWhenMentioned, FindingsFallback and SummaryStatesCount |
| ConflictMatcher.RunMatcher | app/api/analyze-report/route.ts:46-78 | the two push loops return exactly the specified analysis: matched findings or the three-metric fallback, plus the summary |
| ConflictMatcher.MatchedSelects | app/api/analyze-report/route.ts:52-62 | the first pass yields one "Contains reference to" finding per metric whose lower-cased name occurs in the lower-cased text, in catalogue order, and a metric is reported iff it occurs |
| ConflictMatcher.MatchedEmpty | app/api/analyze-report/route.ts:52-65 | the first pass finds nothing iff no metric name occurs |
| ConflictMatcher.FindingsWhenMentioned | app/api/analyze-report/route.ts:52-65 | when some name occurs the findings are exactly the mentioned metrics, in order, with no fallback |
| ConflictMatcher.FindingsFallback | app/api/analyze-report/route.ts:64-76 | when no name occurs the findings are the first min(3, n) metrics in order under "Potential reference to ... concepts" |
| ConflictMatcher.FindingsBounds | app/api/analyze-report/route.ts:52-76 | a non-empty catalogue always yields at least one finding and never more findings than metrics |
| ConflictMatcher.FindingsFromCatalogue | app/api/analyze-report/route.ts:54-60 | every finding carries some metric's name, first team, issue sentence and lower-cased severity |
| ConflictMatcher.ContextsDistinct | app/api/analyze-report/route.ts:56-70 | a matched finding's context never equals a fallback finding's context |
| ConflictMatcher.SummaryCountOf | app/api/analyze-report/route.ts:78 | the summary sentence for k findings reads back as k |
| ConflictMatcher.SummaryStatesCount | app/api/analyze-report/route.ts:78 | the summary states the number of findings returned |
| ConflictMatcher.IssueStatesDefinitions | app/api/analyze-report/route.ts:58 | a finding's issue sentence reads back as the metric's definition count and its teams joined by ", " |
| AnalyzeReportRoute.Post | app/api/analyze-report/route.ts:4-85 | unreadable body gives 500 "Failed to analyze report"; absent or empty text gives 400 "Report text is required"; otherwise 200 with the matcher's analysis |
| AnalyzeReportRoute.ShortTextMentionsNothing | app/api/analyze-report/route.ts:52-53 | a text shorter than ten characters mentions no shipped metric |
| AnalyzeReportRoute.ShortTextFallsBack | app/api/analyze-report/route.ts:64-78 | such a text yields exactly Conversion Rate, Active User and Churn Rate as potential references and a summary counting 3 |
| AnalyzeReportRoute.NoWordBoundaries | app/api/analyze-report/route.ts:53 | the substring test ignores word boundaries: "unqualified leads" yields a Qualified Lead finding |
| ReportAnalyzerView.ResultFileName | components/report-analyzer.tsx:47 | a result's file name is never empty: the uploaded name, or "Unnamed Report" |
| ReportAnalyzerView.ExportFileName | components/report-analyzer.tsx:201 | the export name is "analysis-", a non-empty middle (the result's file name, or "report"), then ".json" |
| ReportAnalyzerView.ReportAnalyzer.constructor | components/report-analyzer.tsx:16-19 | empty text and file name, not analyzing, no result |
| ReportAnalyzerView.ReportAnalyzer.HandleFileContent | components/report-analyzer.tsx:21-24 | a read file sets the text and the file name and nothing else |
| ReportAnalyzerView.ReportAnalyzer.EditReportText | components/report-analyzer.tsx:133 | typing replaces the text and nothing else |
| ReportAnalyzerView.ReportAnalyzer.AnalyzeReport | components/report-analyzer.tsx:26-87 | with empty text nothing changes; otherwise the result holds the endpoint's findings and summary for the same text, named after the file or "Unnamed Report", and analysis has ended |
| ReportAnalyzerView.ReportAnalyzer.ExportName | components/report-analyzer.tsx:197-203 | with a result, the export is named "analysis-" + its file name + ".json"; without one, nothing is exported |
| ReportAnalyzerView.SeverityColor | components/report-analyzer.tsx:89-100 | a finding's badge is gray exactly when its severity is not "high", "medium" or "low" |
| ReportAnalyzerView.LowerSeverity | components/report-analyzer.tsx:58 | lower-casing a catalogue severity gives "high", "medium" or "low" |
| ReportAnalyzerView.FindingBadgesColoured | components/report-analyzer.tsx:174 | every finding produced from the shipped catalogue gets a coloured, never gray, badge |
| MetricConflictsView.FilterMetrics | components/metric-conflicts.tsx:21-37 | the effect's list never holds more metrics than the catalogue, and with no search and tab "all" it is the catalogue; FilterMember and FilterSelects state exactly which metrics it holds, in catalogue order |
| MetricConflictsView.FilterIsOneKeep | components/metric-conflicts.tsx:20-40 | the search filter followed by the severity filter is a single filter by the conjunction of both conditions |
| MetricConflictsView.FilterSelects | components/metric-conflicts.tsx:24-37 | the listed metrics are exactly the passing metrics, each once, in catalogue order |
| MetricConflictsView.FilterMember | components/metric-conflicts.tsx:24-37 | a metric is listed iff the search is empty or the lower-cased term occurs in its name, a team or a definition, and the tab is "all" or equals its severity |
| MetricConflictsView.FilterNothing | components/metric-conflicts.tsx:20-39 | no search term and tab "all" list the whole catalogue |
| MetricConflictsView.FilterIdempotent | components/metric-conflicts.tsx:24-37 | re-filtering the listed metrics with the same inputs changes nothing |
| MetricConflictsView.RecommendationNotSearched | components/metric-conflicts.tsx:28-30 | the recommendation text never affects whether a metric is listed |
| MetricConflictsView.HighSeverityTab | components/metric-conflicts.tsx:35-37 | the High tab alone lists the first three catalogue metrics, in order |
| MetricConflictsView.ChurnSearchFindsChurnRate | components/metric-conflicts.tsx:24-31 | searching "churn" lists Churn Rate |
| MetricConflictsView.MetricConflicts.constructor | components/metric-conflicts.tsx:15-18 | starts with an empty search, tab "all" and the whole catalogue listed |
| MetricConflictsView.MetricConflicts.ApplyFilters | components/metric-conflicts.tsx:20-40 | after the effect the list equals the filter of the current search and tab |
| MetricConflictsView.MetricConflicts.SetSearchTerm | components/metric-conflicts.tsx:84 | a new search term keeps the tab, and the list is re-filtered |
| MetricConflictsView.MetricConflicts.SetSeverityFilter | components/metric-conflicts.tsx:90 | a new tab keeps the search term, and the list is re-filtered |
| MetricConflictsView.MetricConflicts.EmptyState | components/metric-conflicts.tsx:141-145 | the "No metrics found matching your search criteria" message shows exactly when the list is empty |
| MetricConflictsView.SeverityColor | components/metric-conflicts.tsx:42-53 | a severity badge is gray exactly when the severity is not High, Medium or Low |
| MetricConflictsView.TeamColor | components/metric-conflicts.tsx:55-72 | a team badge is gray exactly when the team is not one of the six departments |
| MetricConflictsView.CatalogueSeverityBadges | components/metric-conflicts.tsx:129 | every shipped metric gets a coloured severity badge |
| GlossaryTermsView.FilterGlossary | components/glossary-terms.tsx:26-30 | the shown terms never outnumber the glossary; GlossaryFilterMember and GlossaryFilterSelects state exactly which terms are shown, in glossary order |
| GlossaryTermsView.GlossaryFilterMember | components/glossary-terms.tsx:26-30 | a term is shown iff the lower-cased search occurs in its lower-cased name or definition |
| GlossaryTermsView.GlossaryFilterSelects | components/glossary-terms.tsx:26-30 | the shown terms are exactly the matching terms, each once, in glossary order |
| GlossaryTermsView.EmptySearchShowsAll | components/glossary-terms.tsx:26-30 | an empty search shows the whole glossary, in order |
| GlossaryTermsView.TeamNotSearched | components/glossary-terms.tsx:26-30 | a term's team and related terms never affect whether it is shown |
| GlossaryTermsView.GlossaryTerms.constructor | components/glossary-terms.tsx:16-24 | starts from the five standardized terms, an empty search, the form closed and blank with team "All" |
| GlossaryTermsView.GlossaryTerms.SetSearchTerm | components/glossary-terms.tsx:76 | typing sets the search term |
| GlossaryTermsView.GlossaryTerms.SetShowAddForm | components/glossary-terms.tsx:79 | "Add Term" opens and "Cancel" closes the form without touching its fields |
| GlossaryTermsView.GlossaryTerms.EditNewTerm | components/glossary-terms.tsx:98-126 | the inputs edit the form's name, team and definition, keeping its related terms |
| GlossaryTermsView.GlossaryTerms.HandleAddTerm | components/glossary-terms.tsx:32-43 | with a name and a definition the form is appended as id length + 1, and the form is reset and closed; otherwise nothing changes; ids stay 1..n and distinct |
| GlossaryTermsView.TeamColor | components/glossary-terms.tsx:45-64 | "All" gets slate, and a team badge is gray exactly for teams outside the six departments and "All" |
| Filtering.KeepSelects | components/glossary-terms.tsx:26-30 | `filter` keeps exactly the accepted elements, each once, in their original order |
| CsvExport.CollectKeys | utils/export-utils.ts:6 | the header keys are the union of all records' keys, in first-seen order |
| CsvExport.DedupDistinct | utils/export-utils.ts:6 | no header key repeats |
| CsvExport.DedupMember | utils/export-utils.ts:6 | a key is in the header iff some record has it |
| CsvExport.DedupPrefix | utils/export-utils.ts:6 | keys seen earlier come earlier: the union of a prefix of the keys is a prefix of the header |
| CsvExport.UniformKeys | utils/export-utils.ts:6 | when every record has the same distinct keys, the header is those keys in that order |
| CsvExport.BuildRow | utils/export-utils.ts:13-20 | one cell per header key: the record's value with quotes doubled, in double quotes |
| CsvExport.MissingKeyCell | utils/export-utils.ts:15 | a key the record lacks gives the empty quoted cell |
| CsvExport.BuildCsv | utils/export-utils.ts:4-22 | the text is the comma-joined header line, then one comma-joined line per record in order |
| CsvExport.EmptyExport | utils/export-utils.ts:6-9 | exporting no records gives a lone line break |
| CsvExport.CellRoundTrip | utils/export-utils.ts:19 | a quoted, quote-doubled cell reads back as its value |
| CsvExport.CellsRoundTrip | utils/export-utils.ts:13-21 | a row line reads back as its cell values |
| CsvExport.RowsRoundTrip | utils/export-utils.ts:12-22 | the record lines read back as every record's values, column by column |
| CsvExport.ExportRoundTrip | utils/export-utils.ts:4-22 | the exported text reads back as the header keys and each record's values, with "" where a key is missing |
| CsvExport.ExportKeepsEntries | utils/export-utils.ts:4-22 | every entry of every record survives: its key is a header key and its value sits in that column of its row |
| CsvExport.LookupEntry | utils/export-utils.ts:15 | with distinct keys, `obj[key]` is the value of the entry with that key |
| Text.SplitJoin | utils/export-utils.ts:9 | a comma-joined header of comma-free keys splits back into the keys |
| Text.ParseNatToString | app/api/analyze-report/route.ts:78 | a count rendered in decimal parses back to itself |
| KpiVisualizerView.TopConflicts | components/kpi-visualizer.tsx:16 | the diagram takes the first six metrics, or all of them when there are fewer |
| KpiVisualizerView.SlotLabel | components/kpi-visualizer.tsx:86-119 | a slot shows its metric's name when there is one, and its default label otherwise |
| KpiVisualizerView.ShippedSlotLabels | components/kpi-visualizer.tsx:16-119 | with the shipped catalogue every slot shows a catalogue metric, never a default |
| KpiVisualizerView.ProjectMapping | components/kpi-visualizer.tsx:24-34 | a mapping becomes a record with the nine columns in order, holding its fields |
| KpiVisualizerView.ProjectMappings | components/kpi-visualizer.tsx:24-34 | one record per mapping |
| KpiVisualizerView.ColumnsDistinct | components/kpi-visualizer.tsx:25-33 | the nine column names are distinct |
| KpiVisualizerView.MappingHeader | components/kpi-visualizer.tsx:24-36 | the exported header is exactly the nine columns, in order |
| KpiVisualizerView.MappingRow | components/kpi-visualizer.tsx:25-33 | under the nine columns a projected record's cells are the mapping's fields |
| KpiVisualizerView.MappingExportRoundTrip | components/kpi-visualizer.tsx:24-36 | reading the mapping export back gives the nine columns and each mapping's nine fields, in order |
| KpiVisualizerView.NoMappingsExport | components/kpi-visualizer.tsx:24-36 | an empty mapping list exports a lone line break |
| KpiVisualizerView.AlignmentBadge | components/kpi-visualizer.tsx:219-225 | red exactly for "Misaligned", yellow exactly for "Partially Aligned", green for everything else |

## Left out

- File reading, drag and drop, and the file type filter (`components/file-handler.tsx`). The view receives the content and name through `HandleFileContent`.
- Downloads: `Blob`, object URLs, `exportToJson` and `exportSvg`. The model stops at the CSV text and the export file name.
- CSV cells holding objects or arrays (`JSON.stringify`, `utils/export-utils.ts:16`). Records carry string values only, so every cell is `String(value)`.
- CsvExport.MissingKeyCell: records are modelled as their own entries only. Keys inherited from `Object.prototype` (`toString`, `constructor`, `valueOf`, ...) are not modelled: for a record lacking such a key, `obj[key]` in `utils/export-utils.ts:15` reads the inherited function and the source writes its text, where the model writes `""`.
- `Object.keys` ordering of integer-like keys. A record lists its entries in the order `Object.keys` returns them.
- CsvExport.ExportRoundTrip: requires non-empty keys without comma or line break, because the header line is written unescaped and the source does not promise that other keys can be read back. Empty keys are excluded because a header holding only the empty key is an empty line, which reads back as no keys.
- AnalyzeReportRoute.Post: models only the body as unreadable or as an object whose `reportText` is absent or a string. Non-string `reportText` values and a `null` body are not modelled; `Malformed` stands for every failure the `catch` answers with 500.
- The commented-out language-model call in the endpoint and the commented-out `fetch` in the Report Analyzer.
- ReportAnalyzerView.ReportAnalyzer.AnalyzeReport: models the 2-second `setTimeout` as completing synchronously. The interval during which `finally` has already cleared `isAnalyzing` but the result has not yet arrived is not modelled.
- ConflictMatcher.RunMatcher: requires every metric to list a team, because `teams[0]` of an empty list is `undefined`. That value cannot be a string department. The shipped catalogue meets the requirement (`KpiData.CatalogueHasTeams`).
- MetricConflictsView.ChurnSearchFindsChurnRate: proves that searching "churn" lists Churn Rate, not that Churn Rate is the only metric listed. Showing that "churn" occurs in no other metric's name, team or definition text would mean the verifier reading every character of about thirty long string literals, which exceeds its resource limit.
- Unicode case mapping. `toLowerCase` is modelled on ASCII letters; the catalogue's names, teams and severities are ASCII.
- Rendering: JSX layout, the SVG diagram's geometry, the tab switches of the dashboard and visualizer, metric selection in the conflicts list, and the unwired Edit and Delete buttons of the glossary.
- `ReportAnalyzer.AnalyzeDisabled` (`components/report-analyzer.tsx:138`) and `GlossaryTerms.Shown` are plain definitions with no contract of their own.
