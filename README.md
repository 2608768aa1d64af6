# Query engine of the industrial analytics assistant

This project models the core of the assistant's query engine in Dafny. A user asks a
question in Russian, and the engine answers in four steps.

1. It turns the question into SQL. The order is:
   - a library of temporal-sales patterns;
   - a weighted keyword resolver that picks a table;
   - a keyword classifier that picks a template from that table's bank;
   - a language-model fallback.
2. It chooses a chart from the question's words and from the shape of the result.
3. It writes a text report.
4. The web app guards all of this: it refuses blank input, screens SQL for dangerous
   keywords, keeps a capped conversation history and builds the report filters.

The modules follow the source files:

- `Text`: the Python string operations the source relies on.
  - `in` is `Contains`.
  - `lower`/`upper` for ASCII and Cyrillic.
  - `strip`/`rstrip`, `split('\n')` and `join`.
  - `replace` with properties about them.
- `DateNormalizer`: the CASE expression every sales query embeds to clean dates.
- `SalesPatterns`: the thirteen regular-expression patterns, their first-match dispatch,
  and the four sales handlers' SQL texts.
- `TableResolver`: `_determine_target_table`.
- `QueryClassifier`: `_determine_query_type` and `_generate_sql_for_table`, with the full
  template bank.
- `LlmFallback`: `_generate_sql_with_llm` and `_extract_sql_from_response`.
- `SqlGenerator`: `generate_sql`.
- `FallbackSql`: the `SimpleSQLGenerator` keyword chain, plus the web app's shorter variant.
- `ChartSelector`: keyword chart choice, auto-detection, and `create_visualization` with the
  renderers' fallback chain.
- `ChartRendering`: the data shaping inside the renderers.
- `ReportText`: the report helpers:
  - the analysis classifier and dispatch;
  - `_format_response`;
  - `_describe_row_for_ranking`;
  - sample truncation;
  - `_translate_column`.
- `AppGuards`: the guards and builders of the web app.

How the oracles are modelled:

- The language model is an oracle: a parameter `answer: Option<string>`, where `None`
  means the call raised.
- Logging and `print` calls are left out.
- Database access is not modelled. Instead:
  - the set of existing tables is a parameter `available`;
  - a renderer's failure while building its figure is a parameter `failing`;
  - whether an analysis raised is a parameter `raises`.

## Model

| member | source | states |
|---|---|---|
| DateNormalizer.CleanDate | ai/sql_generator.py:108-115 | The cleaned date keeps at most ten characters: all of a shorter value, exactly ten otherwise |
| DateNormalizer.CleanDateOfIso | ai/sql_generator.py:109 | A year-month-day value keeps its first ten characters, and these pass the strict re-filter |
| DateNormalizer.CleanDateOfDmy | ai/sql_generator.py:110-113 | A day.month.year value is rebuilt field by field as year-month-day and passes the re-filter |
| DateNormalizer.StrictIsoIff | ai/sql_generator.py:108-132 | A cleaned value passes `LIKE '____-__-__'` if and only if the raw value had one of the two recognised shapes |
| DateNormalizer.ReachesAggregationIff | ai/sql_generator.py:108-132 | A row reaches the monthly aggregation exactly when its date is present and has one of the two shapes |
| DateNormalizer.CleanDateIdempotent | ai/sql_generator.py:108-115 | Cleaning an already cleaned date changes nothing |
| DateNormalizer.RussianDateExample | ai/sql_generator.py:110-113 | "04.07.2023" becomes "2023-07-04" |
| DateNormalizer.IsoDateExample | ai/sql_generator.py:109 | "2023-07-04" stays as it is |
| SalesPatterns.MatchesMeaning | ai/sql_generator.py:33-47 | The hand-written matcher agrees with the regular-expression meaning of each pattern (a literal head, a run of class characters, a literal tail, anywhere in the text) |
| SalesPatterns.MatchesAnchor | ai/sql_generator.py:33-47 | A text that matches a pattern contains the pattern's literal head |
| SalesPatterns.FindHandler | ai/sql_generator.py:285-292 | The loop returns the handler of the earliest matching pattern in declaration order, or nothing |
| SalesPatterns.FirstMatchMeaning | ai/sql_generator.py:285-292 | The chosen handler belongs to a pattern that matches, and no earlier pattern matches |
| SalesPatterns.NoMatchMeaning | ai/sql_generator.py:285-292 | No handler is chosen exactly when no pattern matches |
| SalesPatterns.FirstMatchAt | ai/sql_generator.py:285-292 | A matching pattern preceded only by non-matching ones decides the handler |
| SalesPatterns.DailyBeforeMonthly | ai/sql_generator.py:41-42 | "ежедневные продажи по месяцам" also matches the "by months" pattern, yet reaches the daily handler, because the daily pattern is earlier |
| SalesPatterns.MonthlyInsideWord | ai/sql_generator.py:39 | "ежемесячные продажи" reaches the monthly handler: the search finds "месячн" inside the word |
| SalesPatterns.SalesSqlWithoutProduction | ai/sql_generator.py:87-230 | Without the `production` table, every handler answers the error SELECT |
| SalesPatterns.SalesSqlNormalises | ai/sql_generator.py:106-122 | With `production`, every handler's query embeds the date-cleaning CASE |
| SalesPatterns.SalesSqlPositiveOnly | ai/sql_generator.py:122-256 | With `production`, every handler's query keeps only positive revenue |
| SalesPatterns.SalesSqlStrictDates | ai/sql_generator.py:132-261 | With `production`, every handler's query re-filters on the strict ISO shape |
| SalesPatterns.SalesSqlGroups | ai/sql_generator.py:133-270 | With `production`, every handler's query groups by its bucket (month, week or day) |
| SalesPatterns.SalesSqlOrders | ai/sql_generator.py:149-272 | With `production`, every handler's query has its ordering clause |
| SalesPatterns.SalesSqlLimits | ai/sql_generator.py:150-273 | With `production`, every handler's query ends with its LIMIT clause |
| SalesPatterns.SalesSqlSkipsPlaceholder | ai/sql_generator.py:148 | A handler planned to skip the placeholder month excludes '1900-01' |
| SalesPatterns.SalesSqlTerminated | ai/sql_generator.py:85-274 | Every handler's text ends with ";" and the literal's indentation, or is the error SELECT |
| SalesPatterns.SalesSqlNonEmpty | ai/sql_generator.py:287-290 | A handler never returns an empty text, so the `if sql_query:` test always passes |
| SalesPatterns.DynamicsGroupsByMonth | ai/sql_generator.py:133 | The dynamics query buckets by the year-month prefix |
| SalesPatterns.DynamicsOrdersByMonth | ai/sql_generator.py:149 | The dynamics query orders by month |
| SalesPatterns.DynamicsLimit | ai/sql_generator.py:150 | The dynamics query returns at most 24 months |
| SalesPatterns.DynamicsSkipsPlaceholder | ai/sql_generator.py:148 | The dynamics query drops the placeholder month '1900-01' |
| SalesPatterns.MonthlyOrdersByMonth | ai/sql_generator.py:184 | The monthly query orders by month |
| SalesPatterns.MonthlyLimit | ai/sql_generator.py:185 | The monthly query returns at most 12 months |
| SalesPatterns.WeeklyGroupsByWeek | ai/sql_generator.py:221 | The weekly query groups by `%Y-%W` week |
| SalesPatterns.WeeklyOrdersByWeekStart | ai/sql_generator.py:223 | The weekly query orders by week start |
| SalesPatterns.WeeklyLimit | ai/sql_generator.py:224 | The weekly query returns at most 20 weeks |
| SalesPatterns.DailyGroupsByDay | ai/sql_generator.py:270 | The daily query groups by the cleaned date |
| SalesPatterns.DailyNewestFirst | ai/sql_generator.py:272 | The daily query lists days newest first |
| SalesPatterns.DailyLastWeekLimit | ai/sql_generator.py:233-273 | A request for the last week gets seven days |
| SalesPatterns.DailyDefaultLimit | ai/sql_generator.py:235-273 | Any other daily request, the last month included, gets thirty days |
| TableResolver.DetermineTargetTable | ai/sql_generator.py:311-381 | The scoring loop returns exactly the resolver's specified table |
| TableResolver.HitsZeroIff | ai/sql_generator.py:350 | A table's keyword count is zero exactly when none of its keywords occurs |
| TableResolver.HitsBounded | ai/sql_generator.py:350 | The keyword count never exceeds the number of keywords |
| TableResolver.BestIsCandidate | ai/sql_generator.py:346-363 | The running best is either nothing with score 0, or an available table with its own score |
| TableResolver.BestIsMaximal | ai/sql_generator.py:346-363 | No visited available table scores more than the running best |
| TableResolver.BestMonotone | ai/sql_generator.py:346-363 | The best score only grows as tables are visited |
| TableResolver.BestStays | ai/sql_generator.py:346-363 | Once a table holds the best score, later tables that do not exceed it leave it in place |
| TableResolver.BestIsEarliest | ai/sql_generator.py:346-363 | The first table reaching the top score keeps its place against later ties |
| TableResolver.BestAt | ai/sql_generator.py:346-363 | A table beating every earlier one becomes the best when visited |
| TableResolver.TieKeepsBest | ai/sql_generator.py:361-363 | A table that only ties the best never replaces it (the comparison is strict) |
| TableResolver.ZeroScoreMisses | ai/sql_generator.py:350-359 | A table that scored 0 contains none of its keywords |
| TableResolver.HeuristicNeverPicks | ai/sql_generator.py:366-381 | The heuristic pass runs only after every table scored 0, and its words are all keywords, so it never picks a table |
| TableResolver.Heuristic | ai/sql_generator.py:366-381 | The heuristic pass names only an available table |
| TableResolver.TargetTable | ai/sql_generator.py:311-381 | A named table is always an available one |
| TableResolver.TargetNoneIff | ai/sql_generator.py:346-381 | The resolver answers None exactly when no available table scores |
| TableResolver.TargetIsEarliestBest | ai/sql_generator.py:346-367 | The resolver names the earliest available table with the highest positive score |
| TableResolver.TargetIsMaximal | ai/sql_generator.py:346-367 | The named table's score is at least that of every available table |
| QueryClassifier.Terminate | ai/sql_generator.py:563 | The terminated text ends with ";" |
| QueryClassifier.FirstFiringAt | ai/sql_generator.py:577-604 | The first generic rule whose words occur decides the kind |
| QueryClassifier.FirstFiringMeaning | ai/sql_generator.py:577-604 | A kind comes from a rule that fires with no earlier rule firing; none comes exactly when no rule fires |
| QueryClassifier.GenericKindRange | ai/sql_generator.py:577-604 | The generic rules never yield a production-only kind, the default, or one of the nine unused bank keys |
| QueryClassifier.ProductionKindsFirst | ai/sql_generator.py:567-575 | For `production`, its own kinds are tried first and win over every generic word |
| QueryClassifier.QueryTypeGeneric | ai/sql_generator.py:577-604 | Past the production tests, the first generic rule that fires decides the kind |
| QueryClassifier.QueryType | ai/sql_generator.py:565-604 | The dynamics, monthly, weekly and daily kinds come only for `production`, and nine bank keys (for example 'эффективность', 'активные проекты', 'не решен') are never produced |
| QueryClassifier.FirstFiringRange | ai/sql_generator.py:577-604 | No generic rule yields a production-only kind, the default, or one of the nine unused bank keys |
| QueryClassifier.GeneralIff | ai/sql_generator.py:565-604 | The general kind is the answer exactly when no rule fires |
| QueryClassifier.TopRequestKind | ai/sql_generator.py:567-604 | A request with 'топ' gets a production-only kind, 'сколько' or 'топ' |
| QueryClassifier.EveryBankHasGeneral | ai/sql_generator.py:388-538 | Every table with a bank has a general entry |
| QueryClassifier.SelectTemplate | ai/sql_generator.py:541-553 | A kind missing from a bank gets the bank's general entry, so the listing and plain-SELECT fallbacks are reached only by tables without a bank |
| QueryClassifier.EmployeesTemplate | ai/sql_generator.py:388-397 | The count and top entries of the `employees` bank hold ORDER BY |
| QueryClassifier.ProductionMissingKinds | ai/sql_generator.py:408-553 | `production` has no weekly, daily or count entry, so such requests get its general listing |
| QueryClassifier.TopFixUpKeepsOrdered | ai/sql_generator.py:556 | The 'топ' fix-up leaves alone any SQL that already has ORDER BY |
| QueryClassifier.TopFixUpScope | ai/sql_generator.py:556-561 | The fix-up touches only 'топ' requests on `production` or `employees` |
| QueryClassifier.SalesEntryOrdered | ai/sql_generator.py:420-421 | The sales-handler entries of the bank contain ORDER BY |
| QueryClassifier.ProductionTopOrdered | ai/sql_generator.py:408-519 | Every `production` template a 'топ' request can reach holds ORDER BY |
| QueryClassifier.EmployeesTopOrdered | ai/sql_generator.py:388-397 | Every `employees` template a 'топ' request can reach holds ORDER BY |
| QueryClassifier.TopFixUpNeverFires | ai/sql_generator.py:556-561 | With this bank the fix-up never changes anything: every template a 'топ' request can reach already has ORDER BY |
| QueryClassifier.TerminateMeaning | ai/sql_generator.py:563 | ";" is appended only when the text lacks a final one; terminating twice equals terminating once |
| QueryClassifier.SqlForTable | ai/sql_generator.py:383-563 | Whatever the table, the generated SQL ends with ";" |
| QueryClassifier.NoBankQuery | ai/sql_generator.py:541-563 | Without a bank, or without a table, the answer is the plain ten-row SELECT (`FROM None` for no table) |
| QueryClassifier.TerminateAfterIndent | ai/sql_generator.py:563 | A text ending in ";" plus indentation gets a second ";" |
| QueryClassifier.DynamicsSqlIndented | ai/sql_generator.py:150-151 | The dynamics handler's text ends with ";" and indentation |
| QueryClassifier.DoubleTerminator | ai/sql_generator.py:420-563 | A dynamics request that reaches the bank gets the handler's text followed by a second ";" |
| LlmFallback.ExtractSql | ai/sql_generator.py:641-663 | The early-break loop returns exactly the specified extraction |
| LlmFallback.KeptLinesShape | ai/sql_generator.py:650-655 | Every kept line is stripped, not blank, not a comment, and only the last one may end with ";" |
| LlmFallback.KeptLinesStop | ai/sql_generator.py:654-655 | Lines after the first one ending in ";" are never looked at |
| LlmFallback.ExtractedSql | ai/sql_generator.py:641-663 | The extractor yields the placeholder SELECT or a non-empty text containing SELECT in some letter case, and an extracted query holds no newline |
| LlmFallback.ExtractOfPlainStatement | ai/sql_generator.py:641-663 | A clean one-line SELECT answer comes back unchanged |
| LlmFallback.LlmSql | ai/sql_generator.py:607-639 | A failed model call gives the error SELECT; an answer gives the placeholder or a one-line text containing SELECT |
| SqlGenerator.GenerateSql | ai/sql_generator.py:276-309 | The method returns exactly the specified SQL of the three routes |
| SqlGenerator.PatternShortCircuit | ai/sql_generator.py:285-292 | A matching sales pattern decides the answer alone; the model's answer does not matter |
| SqlGenerator.ModelRouteIff | ai/sql_generator.py:284-301 | The model is asked exactly when no pattern matches, a table exists, and no available table scores |
| SqlGenerator.TableRouteAvailable | ai/sql_generator.py:295-304 | The bank path only ever uses an available table |
| SqlGenerator.NoTablesAnswer | ai/sql_generator.py:276-309 | Without any table the answer is the handlers' error SELECT or "SELECT * FROM None LIMIT 10;" |
| SqlGenerator.GeneratedTerminated | ai/sql_generator.py:276-309 | Pattern answers end in ";" plus indentation (or are the error SELECT); bank answers end in ";" |
| SqlGenerator.ModelFailure | ai/sql_generator.py:607-639 | When the model is asked and fails, the answer is the error SELECT |
| FallbackSql.AnswerSql | ai/fix_sql_generator.py:15-117 | Every branch's constant text contains SELECT |
| FallbackSql.FirstAnswerAt | ai/fix_sql_generator.py:14-109 | The first branch whose test holds decides the answer |
| FallbackSql.FirstAnswerWitness | ai/fix_sql_generator.py:14-109 | The final else is taken exactly when no branch fires; any other answer comes from a branch that fires after none did |
| FallbackSql.SimpleAnswer | ai/fix_sql_generator.py:10-117 | The suggestion is given exactly when no branch fires; any other answer is that of a branch that fires with no earlier branch firing |
| FallbackSql.SimpleSql | ai/fix_sql_generator.py:10-117 | Every input, the empty text included, gets a non-empty text containing SELECT |
| FallbackSql.EmptyQuerySuggestion | ai/fix_sql_generator.py:109-117 | The empty query gets the suggestion answer |
| FallbackSql.TopProductsWins | ai/fix_sql_generator.py:14 | ('топ' or 'лучш') with ('товар' or 'продукт' or 'продаж') gives the top five products, whatever else the text holds |
| FallbackSql.TopRuleMeaning | ai/fix_sql_generator.py:14 | The first test is exactly ('топ' or 'лучш') and ('товар' or 'продукт' or 'продаж') |
| FallbackSql.ProjectRevenueBeforeTotal | ai/fix_sql_generator.py:59-75 | A revenue question mentioning projects gets per-project revenue, never the overall total |
| FallbackSql.TotalRevenueWithoutProject | ai/fix_sql_generator.py:59-75 | The overall total is given only to texts without 'проект' that contain 'общая выручка' or 'общий доход' |
| FallbackSql.TotalRevenueRule | ai/fix_sql_generator.py:59-75 | The overall total comes from its own branch, after the project-revenue branch failed |
| FallbackSql.EmployeesByDepartmentRule | ai/fix_sql_generator.py:45-56 | A text about employees and departments with no earlier branch firing gets the per-department head count |
| FallbackSql.ProjectListRule | ai/fix_sql_generator.py:99-100 | A text asking for all projects or the project list, with no earlier branch firing, gets the project list |
| FallbackSql.TopProductsFromProduction | ai/fix_sql_generator.py:14-27 | The top-products answer reads the `production` table |
| FallbackSql.TopProductsPerProduct | ai/fix_sql_generator.py:14-27 | The top-products answer groups by product name |
| FallbackSql.TopProductsByRevenue | ai/fix_sql_generator.py:14-27 | The top-products answer orders by total revenue, highest first |
| FallbackSql.TopProductsFive | ai/fix_sql_generator.py:14-27 | The top-products answer returns five rows |
| FallbackSql.ProjectListClauses | ai/fix_sql_generator.py:99-100 | The project list reads `projects` ordered by budget, highest first, twenty rows at most |
| FallbackSql.ClarifyDiffers | app.py:50-66 | The web app variant's two answers are different texts |
| FallbackSql.AppFallbackSql | app.py:45-68 | The web app variant answers the top five products exactly when its single test fires, and otherwise the clarification request; both contain SELECT |
| FallbackSql.AppFallbackIff | app.py:45-68 | The web app variant answers the top five products exactly when the first test holds, and otherwise asks for clarification; its top answer equals the script's |
| ChartSelector.FirstChartRuleAt | features/dashboard_viz.py:15-36 | The first rule with a word in the lowercased query decides the chart |
| ChartSelector.FirstChartRuleNone | features/dashboard_viz.py:35-36 | No chart is proposed exactly when no rule has a word in the query |
| ChartSelector.QueryChart | features/dashboard_viz.py:12-36 | No chart is proposed exactly when no rule has a word in the lowercased query |
| ChartSelector.RankingWins | features/dashboard_viz.py:18-19 | A query with 'топ' gets a bar chart even when it has temporal words |
| ChartSelector.TemporalIsLine | features/dashboard_viz.py:20-21 | Without ranking words, a temporal word gives a line chart |
| ChartSelector.QueryChartNeverUnknown | features/dashboard_viz.py:12-36 | The rules propose only the six drawable charts, the map, or nothing |
| ChartSelector.Where | features/dashboard_viz.py:80-84 | The column lists hold exactly the frame's columns of the kind, in the frame's order, and no more columns than the frame |
| ChartSelector.WhereFirst | features/dashboard_viz.py:80-84 | The first column of a kind heads that kind's list |
| ChartSelector.WhereAppend | features/dashboard_viz.py:80-84 | Selecting from two column lists joined is joining the two selections |
| ChartSelector.BestChart | features/dashboard_viz.py:74-106 | An empty frame gets the table; auto-detection never proposes a scatter plot or a map, and what it proposes has the columns its renderer needs |
| ChartSelector.MissingColumnsFallback | features/dashboard_viz.py:169-484 | A renderer without its columns falls back to a chart earlier in the chain, never the map |
| ChartSelector.FailureFallback | features/dashboard_viz.py:255-569 | A renderer whose figure raises falls back to a chart earlier in the chain, never the map |
| ChartSelector.Render | features/dashboard_viz.py:108-570 | A drawn chart fits the frame, has data, did not fail, and lies no later in the fallback chain; a placeholder is the no-data message, or the table error when the table itself fails |
| ChartSelector.RenderDirect | features/dashboard_viz.py:169-570 | A chart with its columns and data that does not fail is drawn as asked |
| ChartSelector.RenderWithWorkingTable | features/dashboard_viz.py:108-570 | When the table works, the outcome is a drawn chart or the no-data placeholder |
| ChartSelector.AutoChart | features/dashboard_viz.py:571-589 | What auto-drawing draws is never a scatter plot or a map, did not fail, fits the frame and has data; a placeholder is the no-data message or the table error |
| ChartSelector.Visualize | features/dashboard_viz.py:38-72 | An empty frame gets the no-data placeholder; a drawn chart is never the map, did not fail, fits the frame and has data; a placeholder is the no-data message or the table error |
| ChartSelector.UnknownNameIsAuto | features/dashboard_viz.py:46-65 | An unknown chart name such as "map" goes to automatic drawing, and "auto" is the same as no name |
| ChartSelector.AutoDrawsDetected | features/dashboard_viz.py:38-72 | Asking for auto-detection draws the detected chart when it has data and does not fail |
| ChartRendering.CellText | features/dashboard_viz.py:121-127 | A table cell is '' for a missing value, the text itself up to 50 characters, else exactly its first 50 characters followed by '...' |
| ChartRendering.CellColumn | features/dashboard_viz.py:118-128 | One shown cell per value |
| ChartRendering.TableCells | features/dashboard_viz.py:116-128 | The nested loop yields one shown column per frame column, each cell rendered by CellText |
| ChartRendering.TableCellsBounded | features/dashboard_viz.py:116-128 | No shown cell exceeds 53 characters |
| ChartRendering.CleanBarData | features/dashboard_viz.py:190-195 | The loop yields exactly the cleaned pairs of the zipped columns |
| ChartRendering.CleanPairs | features/dashboard_viz.py:190-195 | At most one pair per row, each pair made of a row's present label cut to 30 characters and its numeric value |
| ChartRendering.CleanPairsShape | features/dashboard_viz.py:192-195 | One pair per row with both values present, labels cut to 30 characters |
| ChartRendering.NoPairsIff | features/dashboard_viz.py:197-198 | Nothing is left to draw exactly when no row has both values |
| ChartRendering.KeepLabels | features/dashboard_viz.py:208 | Filtering keeps no more pairs than it was given |
| ChartRendering.KeepLabelsSet | features/dashboard_viz.py:208 | The filtered pairs' labels are exactly the given labels that are in the top set |
| ChartRendering.TopTenKept | features/dashboard_viz.py:201-212 | With more than ten labels and a valid top ten, the chart keeps exactly the top ten labels and every pair of theirs |
| ChartRendering.BarData | features/dashboard_viz.py:201-212 | The chart keeps only given pairs, no more of them, and all of them when there are at most ten labels |
| ChartRendering.KeepLabelsHas | features/dashboard_viz.py:208 | A pair whose label is in the top set is kept |
| ChartRendering.FoldPieMeaning | features/dashboard_viz.py:370-377 | At most eight slices; up to eight are kept as they were; otherwise the first seven plus "Другие" holding the rest; the total is unchanged |
| ChartRendering.FoldPie | features/dashboard_viz.py:370-377 | At most eight slices, labels and values of the same number, and the first seven slices are the given ones |
| ChartRendering.TranslateColumn | features/dashboard_viz.py:667-711 | A name is returned unchanged exactly when the table has no heading for it; otherwise the result is the heading the table pairs with it, and a heading is never itself a translated name |
| ChartRendering.TranslateColumnIdempotent | features/dashboard_viz.py:667-711 | Translating a translated name changes nothing |
| ChartRendering.Heading | features/dashboard_viz.py:667-711 | No heading exactly when no entry has the name; otherwise the heading of the last entry with the name, as a dictionary display keeps |
| ReportText.FirstKindAt | features/report_generator.py:39-54 | The first rule with a word in the lowercased query decides the kind |
| ReportText.FirstKindWitness | features/report_generator.py:39-54 | "general" comes exactly when no rule fires; any other kind comes from a rule that fires with no earlier rule firing |
| ReportText.QueryKind | features/report_generator.py:39-54 | The general analysis is chosen exactly when no rule has a word in the lowercased query |
| ReportText.ComparisonIff | features/report_generator.py:43-44 | The comparison analysis is chosen exactly when a comparison word occurs |
| ReportText.DistributionNeedsWord | features/report_generator.py:47-52 | The distribution analysis needs 'распределен', 'частота' or 'distribution': its 'сколько всего' can never be the reason, since 'сколько' is taken earlier |
| ReportText.TextAnalysis | features/report_generator.py:11-37 | The empty response exactly for an empty frame; the simple one exactly when the analysis raises; otherwise the analysis of the query's kind |
| ReportText.FormatResponse | features/report_generator.py:650-662 | The loop with its `continue` returns exactly the specified normal form |
| ReportText.FormatLinesTrimmed | features/report_generator.py:656-661 | Every kept line has no trailing whitespace and no newline |
| ReportText.FormatLinesSingleBlanks | features/report_generator.py:657-658 | No two neighbouring kept lines are blank |
| ReportText.FormatKeepsNonBlank | features/report_generator.py:657-658 | Only blank lines are dropped: the non-blank lines come out unchanged and in order |
| ReportText.FormatLinesFirst | features/report_generator.py:655-661 | The first line is always kept, right-stripped |
| ReportText.FormatLinesFixed | features/report_generator.py:655-661 | Lines already in normal form are kept as they are |
| ReportText.FormattedFirst | features/report_generator.py:653-662 | A non-blank text's normal form starts with its first non-blank character |
| ReportText.FormattedLast | features/report_generator.py:653-662 | A non-blank text's normal form ends with its last non-blank character |
| ReportText.FormattedTrimmed | features/report_generator.py:650-662 | The normal form has no blank at either end |
| ReportText.FormatIdempotent | features/report_generator.py:650-662 | Normalising twice equals normalising once |
| ReportText.DescribeRowForRanking | features/report_generator.py:664-682 | The method returns exactly the specified description |
| ReportText.PresentTextsShape | features/report_generator.py:668-680 | One text per present cell, each within the cut, none when every cell is missing |
| ReportText.DescriptionShape | features/report_generator.py:664-682 | At most two parts, each within 25 characters (20 without categorical columns), taken from the first two cells or first two categorical values; "Запись" when there are none |
| ReportText.SampleValue | features/report_generator.py:579-581 | A sample value of at most 30 characters is kept; a longer one becomes its first 27 characters plus '...', exactly 30 |
| ReportText.SampleEntry | features/report_generator.py:576-582 | A sample entry is the heading, a separator and a value of at most 30 characters |
| ReportText.Title | features/report_generator.py:733 | Title-casing keeps the length |
| ReportText.TitleMeaning | features/report_generator.py:733 | Title-casing keeps which characters are letters, upper-cases a letter exactly when it starts a run of letters, and leaves other characters alone |
| ReportText.TitleIdempotent | features/report_generator.py:733 | Title-casing a title-cased text changes nothing |
| ReportText.UnknownColumnHeading | features/report_generator.py:732-733 | An unknown name keeps its length, turns every '_' into a space, and keeps its non-letters; translating the heading again changes nothing |
| ReportText.KnownColumnHeading | features/report_generator.py:684-734 | A known column gets the heading its table pairs with it, which differs from the name and has no heading of its own |
| ReportText.DashboardHeadingsAgree | features/report_generator.py:686-730 | For every column the dashboard translates, the report gives the same heading |
| AppGuards.Admit | app.py:201-215 | Input is refused with the handler's message exactly when it is all whitespace; otherwise the stripped, non-empty text goes on |
| AppGuards.SqlGuard | app.py:620-654 | A statement is refused as empty exactly when it is blank; a permitted one runs stripped; a forbidden one names a listed keyword that offends it |
| AppGuards.GuardError | app.py:630-652 | There is an error message exactly when the statement is not permitted, and a refusal's message names the keyword |
| AppGuards.CheckSql | app.py:620-654 | The checks return exactly the specified verdict, leaving at the first offending keyword |
| AppGuards.FirstOffendingMeaning | app.py:644-654 | The reported keyword offends and no earlier one does; nothing is reported exactly when no keyword offends |
| AppGuards.PermittedIff | app.py:638-654 | A statement runs exactly when it is not blank and no dangerous keyword stands between spaces or at the start of its upper-cased text, so a keyword right after ';' or a newline is let through |
| AppGuards.ForbiddenMeaning | app.py:644-654 | A refused statement names the first listed keyword that offends it |
| AppGuards.StartingKeywordRefused | app.py:640-646 | A statement starting with a dangerous keyword, in any letter case, is refused |
| AppGuards.Conversation.constructor | app.py:446-448 | A new session history is empty |
| AppGuards.Conversation.Record | app.py:452-470 | Recording appends the exchange and keeps the last twenty |
| AppGuards.CappedShape | app.py:468-470 | The history holds at most twenty entries and ends with the newest; nothing is dropped while there is room; once full, the nineteen latest older entries stay in order |
| AppGuards.CappedIdempotent | app.py:468-470 | Capping twice equals capping once |
| AppGuards.Capped | app.py:468-470 | The capped history is the last min(n, 20) entries of a history of n |
| AppGuards.DepartmentFilter | app.py:823-830 | With departments and no 'all', one IN condition whose parameters are the departments; otherwise no condition and no parameter |
| AppGuards.PlaceholderCount | app.py:828 | n departments give n '?' in a text of length 2n-1 |
| AppGuards.FilterPlaceholdersMatch | app.py:828-830 | The department condition has as many placeholders as parameters |
| AppGuards.PeriodFilter | app.py:833-839 | A period gets a date condition exactly when it is month, quarter or year, and that condition goes back one month, three months or one year respectively |

## Left out

- Network and I/O: the database connection, schema loading, `_get_available_tables` and
  every query execution are left out. The list of available tables is a parameter.
- The language model's prompt and HTTP call are left out. Its reply is a parameter, and
  `None` stands for a call that raised.
- Floating point: cell values, revenues and sums are integers. The report's statistics and
  number formatting (`_format_number`) are not modelled.
- The texts of the report's analysis generators are left out:
  `_generate_comparison_analysis`, `_generate_ranking_analysis`, the aggregation, trend,
  distribution and general analyses, and the empty and simple responses. Their pandas
  statistics go with them. What is modelled is which of them `generate_text_analysis`
  calls (ReportText.TextAnalysis), `_describe_row_for_ranking`, the general analysis's
  sample-value truncation and `_format_response`.
- Dtype detection: whether a column is numeric is data carried by the column. Whether it is
  a date column comes from its name, as in the source.
- ChartSelector.HasData: date parsing is left out. The line chart's
  `pd.to_datetime(errors='coerce')` followed by `dropna` is not modelled, so every present
  cell of a date-named column counts as a date. HasData(Line) can therefore hold for a frame
  on which the source shows the "Нет данных" placeholder.
- Plotly figure building is not modelled. Any figure-building exception is a member of
  the `failing` set.
- ChartRendering.BarData: the tie-breaking of `nlargest(10)` is not modelled. The top ten
  is a parameter, constrained by `TopByTotal`.
- The scatter plot's colour grouping is not modelled. Neither are the histogram's and
  line chart's axis details.
- `Text.Lower` and `Text.Upper` map only ASCII and the Russian alphabet (with 'ё'). Other
  Unicode case mappings are left out. So are `title()` rules for letters outside those
  ranges.
- LlmFallback: that "```" cannot reappear after the fences are removed is not proved. The
  lemmas about the extraction do not depend on it.
- ReportText.TranslateColumn and ChartRendering.TranslateColumn model only string column
  names. The `str(column_name)` branch for other names is left out.
- ReportText.DescribedParts: a categorical column that is absent from the row is treated
  like a missing value. The source treats both the same way, so nothing is lost.
- AppGuards.Conversation: the session is one object. A request without a conversation
  gets a new one (the constructor). The clock's timestamp is a field passed in.
- `generate_real_report`'s per-report SQL and database queries are left out. Only its
  department and period filters are modelled. Also left out: `fix_production_data`,
  `test_generator`, the HTTP routes' JSON wrapping and the static front end.
- Concrete example questions from the scripts' test lists are left out. Some of the
  branches they exercise are stated instead as lemmas over the keywords a question
  contains (TopProductsWins, EmployeesByDepartmentRule, ProjectRevenueBeforeTotal,
  ProjectListRule, RankingWins); the other branches are covered only by the first-rule
  lemmas FirstAnswerAt and FirstAnswerWitness.
