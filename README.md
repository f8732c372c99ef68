# YOLO drift monitoring, modelled in Dafny

This project models the drift-monitoring pipeline of `model-monitoring/evidently/`. A YOLO detection service writes one `yolo_prediction` trace span per request into ClickHouse, with one event per detected object. The pipeline works in four parts:

- **`ClickHouseClient`** (`clickhouse_client.dfy`, over `telemetry.dfy`, `aggregates.dfy` and `query_text.dfy`) extracts those predictions as rows. It produces:
  - recent or offset windows;
  - a curated reference set;
  - the current window of the last N days;
  - summary statistics and a class distribution.
- **`EvidentlyClient`** (`evidently_client.dfy`, over `frames.dfy` and `workspace.dfy`) works against the drift service's workspace. It:
  - resolves the monitoring project;
  - prepares tables for drift analysis;
  - uploads and downloads datasets;
  - files a drift report and returns the report's URL.
- **`Config.validate`** (`config.dfy`) lists every violated setting rule.
- **`YoloDriftAnalyzer` and `main`** (`drift_analyzer.dfy`) chain these with early exits in a fixed order. They map the outcome to printed lines and an exit status.

The trace table is a sequence of `Span` values, and a query is a function of it. The warehouse adds whether it answers and which statements it rejects. The drift service's workspace is a `Store` value held by a `Workspace` object. Each remote call is one method of that object and is logged. A call can be made to fail. Clients whose fields the Python code updates are classes:
- `EvidentlyClient.project` is reassigned by project resolution;
- `Workspace.store` changes with each call.

Each method is proved against a pure function of the old state. The properties are lemmas about those functions. Wall-clock time is a parameter: `now` is in seconds, and `createdAt` and `uploadedAt` are the formatted timestamps. Environment variables become one `Settings` value.

## Model

| member | source | states |
|---|---|---|
| Config.Validate | model-monitoring/evidently/config.py:33-52 | Returns exactly the violated rules, in the order they are checked. Each rule is listed iff its condition holds: empty key, empty dataset id, confidence outside [0,1], limit ≤ 0, days ≤ 0. |
| Config.ValidationFacts | model-monitoring/evidently/config.py:35-52 | Each rule is reported iff violated, in strictly increasing check order, so at most once. At most five messages are reported. The list is empty iff every rule holds. |
| Config.ReportedIffViolated | model-monitoring/evidently/config.py:37-50 | A rule appears in the validation result iff the settings violate it. |
| Config.ViolationsKeepRank | model-monitoring/evidently/config.py:35-52 | Reported rules keep the fixed order: key, dataset id, confidence, limit, days. |
| Config.ViolationsLength | model-monitoring/evidently/config.py:35-52 | Validating against a list of rules reports at most one message per rule. |
| Config.RulesInRankOrder | model-monitoring/evidently/config.py:37-50 | The rule list is in the order `validate` checks the rules. |
| Config.EmptyIffValid | model-monitoring/evidently/config.py:35-52 | Nothing is reported exactly when all five rules hold. |
| Config.DefaultsAreValid | model-monitoring/evidently/config.py:22-30 | With only the API key and the dataset id set, the defaults (0.8, 10, 7) pass validation. |
| Config.UnsetDefaultsReportBothRequired | model-monitoring/evidently/config.py:37-41 | With nothing set, exactly the two "required" messages are reported, API key first. |
| Config.ConfidenceBoundsAccepted | model-monitoring/evidently/config.py:43-44 | A minimum confidence of exactly 0 or exactly 1 is accepted. |
| Telemetry.UnnestRepeatsSpanColumns | model-monitoring/evidently/clickhouse_client.py:41-49 | A span with k events gives exactly k rows. Row i repeats the span's timestamp, prediction id, processing time, filename and model name, and carries event i's class name, confidence and object index. |
| Telemetry.SelectRowIff | model-monitoring/evidently/clickhouse_client.py:40-52 | A row is selected iff it is the unnesting of some event of a `yolo_prediction` span inside the time window. |
| Telemetry.SelectCount | model-monitoring/evidently/clickhouse_client.py:40-52 | The number of selected rows is the number of events of the kept spans; a span without events contributes none. |
| Telemetry.SelectAppend | model-monitoring/evidently/clickhouse_client.py:47-51 | Selection over a concatenated table is the concatenation of the selections. |
| Telemetry.SelectInWindow | model-monitoring/evidently/clickhouse_client.py:55-57 | Every selected row's timestamp satisfies the window predicate. |
| Telemetry.NewestFirstSameRows | model-monitoring/evidently/clickhouse_client.py:60 | Ordering by timestamp keeps exactly the same rows and the row count. |
| Telemetry.CoercionKeepsRows | model-monitoring/evidently/clickhouse_client.py:76-80 | Numeric coercion keeps every row and its text columns. Each numeric cell becomes the parsed value or null, never an error. |
| Telemetry.CoercionKeepsOrder | model-monitoring/evidently/clickhouse_client.py:76-80 | Coercion preserves the newest-first order. |
| Telemetry.PredictionsInOffsetWindow | model-monitoring/evidently/clickhouse_client.py:55-57 | With a truthy `hours_ago` h, every returned row lies in [now − (h+24) h, now − h h]. |
| Telemetry.PredictionsWithoutOffsetAreUnwindowed | model-monitoring/evidently/clickhouse_client.py:54-57 | With `hours_ago` None or 0, no time predicate applies. |
| Telemetry.PredictionsNewestFirst | model-monitoring/evidently/clickhouse_client.py:59-60 | Returned rows have non-increasing timestamps. |
| Telemetry.PredictionsRowCount | model-monitoring/evidently/clickhouse_client.py:62-63 | With a truthy limit n there are at most n rows. Without one, there is one row per event of a matching span. |
| Telemetry.PredictionsFromPredictionSpans | model-monitoring/evidently/clickhouse_client.py:50-51 | Every returned row comes from an event of a span named `yolo_prediction`. |
| Telemetry.ReferenceRowsMatch | model-monitoring/evidently/clickhouse_client.py:126-129 | Every reference row has the configured class and a parsed confidence strictly above the threshold. |
| Telemetry.ReferenceIsFirstMatches | model-monitoring/evidently/clickhouse_client.py:126-129 | The reference set has at most REFERENCE_LIMIT rows and is exactly the first matches of some prefix of the newest-first rows. |
| Telemetry.ReferenceNewestFirst | model-monitoring/evidently/clickhouse_client.py:105-129 | The reference rows stay in descending timestamp order. |
| Telemetry.FilterKeepsOrder | model-monitoring/evidently/clickhouse_client.py:126-128 | Filtering newest-first rows keeps them newest first. |
| Telemetry.CurrentWithinDays | model-monitoring/evidently/clickhouse_client.py:156-158 | Every current row has timestamp ≥ now − CURRENT_DAYS_AGO days. Rows come newest first, one per event in the window. |
| Text.ToNumericOfIntToString | model-monitoring/evidently/clickhouse_client.py:78-80 | Coercion reads an integer numeral back as that integer. |
| Text.ToNumericRejectsForeignChar | model-monitoring/evidently/clickhouse_client.py:78-80 | A cell containing a character that no numeral contains coerces to null. |
| Text.ReadIntOfIntToString | model-monitoring/evidently/clickhouse_client.py:56-57 | An integer formatted into the query text reads back as the same integer, and the rest of the text is returned. |
| Text.DigitsValueOfNatToString | model-monitoring/evidently/clickhouse_client.py:63 | The decimal digits of a natural number denote that number. |
| Ordering.SortDesc | model-monitoring/evidently/clickhouse_client.py:60 | `ORDER BY … DESC` yields a non-increasing permutation of its input. |
| Ordering.Take | model-monitoring/evidently/clickhouse_client.py:63 | `LIMIT n` yields a prefix of length n, or all rows when fewer. |
| Ordering.Head | model-monitoring/evidently/clickhouse_client.py:129 | `head(n)` yields a prefix of length min(n, len). A negative n drops the last −n rows, as pandas does. |
| Ordering.FilterMembers | model-monitoring/evidently/clickhouse_client.py:126-128 | A boolean mask keeps an element iff it is present and satisfies the mask. |
| Ordering.TakeOfFilterIsFilterOfPrefix | model-monitoring/evidently/clickhouse_client.py:126-129 | The first n matches are the matches within some prefix of the input. |
| Aggregates.EarliestOf | model-monitoring/evidently/clickhouse_client.py:194 | `min(Timestamp)` is at most every span's timestamp and is attained. |
| Aggregates.LatestOf | model-monitoring/evidently/clickhouse_client.py:195 | `max(Timestamp)` is at least every span's timestamp and is attained. |
| Aggregates.IdsBound | model-monitoring/evidently/clickhouse_client.py:193 | There are no more distinct prediction ids than spans. |
| Aggregates.IdsMembers | model-monitoring/evidently/clickhouse_client.py:193 | An id is counted iff some prediction span carries it. |
| Aggregates.SummaryFacts | model-monitoring/evidently/clickhouse_client.py:189-197 | unique ≤ total. With spans, earliest ≤ latest and every prediction span lies between them. With no prediction spans, every figure is 0. |
| Aggregates.SummaryIgnoresOtherSpans | model-monitoring/evidently/clickhouse_client.py:197 | Spans not named `yolo_prediction` do not change the summary. |
| Aggregates.Distinct | model-monitoring/evidently/clickhouse_client.py:231 | `GROUP BY class_name` gives each class once, and exactly the classes present. |
| Aggregates.OccurrencesPositive | model-monitoring/evidently/clickhouse_client.py:222 | A class's count is positive iff the class occurs. |
| Aggregates.OccurrencesBound | model-monitoring/evidently/clickhouse_client.py:222 | A class's count is at most the number of rows. |
| Aggregates.DistributionFacts | model-monitoring/evidently/clickhouse_client.py:219-231 | The distribution is sorted by descending count. Each group's count is positive and equals its class's occurrences. Every detected class has a group, and no class has two. |
| Aggregates.GroupsDistinct | model-monitoring/evidently/clickhouse_client.py:231 | The groups are pairwise distinct. |
| QueryText.BuildPredictionsQuery | model-monitoring/evidently/clickhouse_client.py:40-63 | Appending the clauses one by one yields the text of the plan that `hours_ago` and `limit` select, under their truthiness. |
| QueryText.ParseOfRender | model-monitoring/evidently/clickhouse_client.py:40-63 | Reading a rendered query text recovers its plan (round trip). |
| QueryText.ParseWindowOfClauses | model-monitoring/evidently/clickhouse_client.py:55-57 | The two window clauses read back as the offset h, with the lower bound h+24. |
| QueryText.ParseLimitOfClause | model-monitoring/evidently/clickhouse_client.py:62-63 | The LIMIT clause reads back as its count. |
| QueryText.RenderSplits | model-monitoring/evidently/clickhouse_client.py:40-63 | The text is the SELECT, then the window clauses if any, then `ORDER BY Timestamp DESC`, then the LIMIT if any. ORDER BY always precedes LIMIT. |
| QueryText.BuiltQueryEncodesArguments | model-monitoring/evidently/clickhouse_client.py:54-63 | The built text reads back with the window offset iff `hours_ago` is truthy and the LIMIT iff `limit` is truthy, each with its value. |
| ClickHouse.ClickHouseClient.constructor | model-monitoring/evidently/clickhouse_client.py:11-18 | The client keeps the settings and the warehouse; constructing it cannot fail. |
| ClickHouse.ClickHouseClient.TestConnection | model-monitoring/evidently/clickhouse_client.py:20-27 | True iff `SELECT 1` succeeds; a failure gives false and is never raised. |
| ClickHouse.ClickHouseClient.GetYoloPredictionsData | model-monitoring/evidently/clickhouse_client.py:29-86 | The built text, run by the warehouse, gives the coerced rows of its plan. A query failure is re-raised. |
| ClickHouse.ExecuteRendered | model-monitoring/evidently/clickhouse_client.py:65-66 | The warehouse runs the rendered text of a plan as that plan. |
| ClickHouse.ClickHouseClient.GetReferenceDataset | model-monitoring/evidently/clickhouse_client.py:88-137 | Gives the curated newest-first rows; the curation runs only on a non-empty result. A failure is re-raised. |
| ClickHouse.ClickHouseClient.GetCurrentDataset | model-monitoring/evidently/clickhouse_client.py:139-183 | Gives the coerced rows of the last CURRENT_DAYS_AGO days, newest first. A failure is re-raised. |
| ClickHouse.ClickHouseClient.GetPredictionsSummary | model-monitoring/evidently/clickhouse_client.py:185-213 | Gives the summary, or the empty dictionary (None) when the query fails. |
| ClickHouse.ClickHouseClient.GetClassDistribution | model-monitoring/evidently/clickhouse_client.py:215-239 | Gives the distribution, or an empty table when the query fails. |
| ClickHouse.ExtractionsReraise | model-monitoring/evidently/clickhouse_client.py:84-86 | Each extraction query fails iff its statement fails, with the driver's error unchanged. |
| ClickHouse.AggregatesSwallowFailures | model-monitoring/evidently/clickhouse_client.py:211-239 | With the server down, the summary is `{}` and the distribution is empty. A reachable server with no detections also gives an empty distribution. |
| ClickHouse.SummaryOnSuccess | model-monitoring/evidently/clickhouse_client.py:200-210 | A successful summary bounds every prediction span between earliest and latest and has unique ≤ total. |
| Frames.PrepareRejectsEmpty | model-monitoring/evidently/evidently_client.py:55-56 | An empty table is rejected with ValueError naming the dataset. |
| Frames.PrepareAfterDropMayBeEmpty | model-monitoring/evidently/evidently_client.py:55-60 | The emptiness check precedes the null drop. Rows that all lack a class or a confidence yield an empty prepared table, not an error. |
| Frames.PrepareProjects | model-monitoring/evidently/evidently_client.py:59-66 | The prepared table has exactly the columns class_name, confidence, processing_time. Its rows are exactly the projections of input rows with non-null class and confidence. |
| Frames.PreparedRowShape | model-monitoring/evidently/evidently_client.py:60-63 | Every prepared row has exactly the three feature keys, with non-null class and confidence; a null processing time stays. |
| Frames.PreparePredictions | model-monitoring/evidently/evidently_client.py:47-68 | A non-empty table of predictions always prepares. It keeps exactly the rows whose confidence parsed, in order. |
| Frames.FilterCorresponds | model-monitoring/evidently/evidently_client.py:60 | Dropping null rows from a prediction table is filtering the predictions on a parsed confidence. |
| Remote.FindById | model-monitoring/evidently/evidently_client.py:29 | The project fetched by id has that id; None means no project has it. |
| Remote.Workspace.GetProject | model-monitoring/evidently/evidently_client.py:29 | `get_project`: the call is logged and fails or returns the project with that id, if any. |
| Remote.Workspace.ListProjects | model-monitoring/evidently/evidently_client.py:33 | `list_projects`: the call is logged and fails or returns the projects in order. |
| Remote.Workspace.CreateProject | model-monitoring/evidently/evidently_client.py:40 | `create_project`: the call is logged and fails or appends one project, whose id no existing project has. The workspace keeps handing out only new ids. |
| Remote.Workspace.AddDataset | model-monitoring/evidently/evidently_client.py:80-85 | `add_dataset`: the call is logged and fails or stores the dataset under an id no stored dataset has. The workspace keeps handing out only new ids. |
| Remote.Workspace.LoadDataset | model-monitoring/evidently/evidently_client.py:97 | `load_dataset`: the call is logged and fails (also for an unknown id) or returns the stored table. |
| Remote.Workspace.AddRun | model-monitoring/evidently/evidently_client.py:145-149 | `add_run`: the call is logged and fails or appends a run with data included, under an id no earlier run has. The workspace keeps handing out only new ids. |
| Remote.LoadAfterAdd | model-monitoring/evidently/evidently_client.py:80-100 | A stored dataset downloads back as it was uploaded, and every dataset stored before still downloads unchanged. |
| Remote.CreateProjectFresh | model-monitoring/evidently/evidently_client.py:40 | Creating a project keeps every id not yet handed out unused, and the new project's id is no existing project's. |
| Remote.AddDatasetFresh | model-monitoring/evidently/evidently_client.py:80-85 | Storing a dataset keeps every id not yet handed out unused, and its id is no stored dataset's. |
| Remote.AddRunFresh | model-monitoring/evidently/evidently_client.py:145-149 | Adding a run keeps every id not yet handed out unused, and its id is no earlier run's. |
| Remote.GetAfterCreate | model-monitoring/evidently/evidently_client.py:29-40 | After `create_project`, `get_project` with the new id finds that project, and every earlier project is still found under its own id. |
| Remote.CreateThenList | model-monitoring/evidently/evidently_client.py:33-41 | A created project has the requested name and is listed last afterwards. |
| Evidently.Connect | model-monitoring/evidently/evidently_client.py:14-22 | Raises ValueError iff the API key is empty. Otherwise gives a fresh client on the workspace with no project. |
| Evidently.EvidentlyClient.constructor | model-monitoring/evidently/evidently_client.py:18-22 | The client keeps the settings and the workspace and starts with `project` None. |
| Evidently.FirstNamed | model-monitoring/evidently/evidently_client.py:33-37 | Gives the first listed project with the name, or None iff no project has it. |
| Evidently.EvidentlyClient.CreateOrGetProject | model-monitoring/evidently/evidently_client.py:24-45 | The loop's result and new workspace are those of resolution. On success `project` is the result; on failure it is unchanged. |
| Evidently.ResolutionOrder | model-monitoring/evidently/evidently_client.py:28-41 | With an id, only `get_project` is called. Otherwise `list_projects` is called, and `create_project` only when listing succeeds and no name matches. |
| Evidently.ResolvedByName | model-monitoring/evidently/evidently_client.py:32-41 | Without an id, success gives a listed project with the configured name, the first such if any. |
| Evidently.ResolveIdempotent | model-monitoring/evidently/evidently_client.py:24-41 | Resolving again after a success creates nothing, and if it succeeds it gives the same project; its own calls may still fail. One resolution creates at most one project. |
| Evidently.EvidentlyClient.UploadDataset | model-monitoring/evidently/evidently_client.py:70-91 | Behaves as the upload outcome: project guard, preparation, then `add_dataset` with the given or stamped description. |
| Evidently.UploadNeedsProject | model-monitoring/evidently/evidently_client.py:72-73 | Without a project, upload raises ValueError and makes no remote call. |
| Evidently.UploadStoresPrepared | model-monitoring/evidently/evidently_client.py:76-87 | A successful upload stores the prepared table in the client's project, described by the given text or else the stamped default. |
| Evidently.EvidentlyClient.DownloadDataset | model-monitoring/evidently/evidently_client.py:93-106 | Gives the stored table, or re-raises the failed download. |
| Evidently.EvidentlyClient.CreateAndUploadDriftReport | model-monitoring/evidently/evidently_client.py:108-158 | Runs resolve, download, both preparations and `add_run` in this order, returning the run's URL. The project left on the client is that of resolution. |
| Evidently.ReportSequencing | model-monitoring/evidently/evidently_client.py:119-149 | The report succeeds iff resolution found a project, the download and both preparations succeeded and the run was accepted. A failed report adds no run; a successful one adds exactly one. |
| Evidently.ReportTagsAndUrl | model-monitoring/evidently/evidently_client.py:131-152 | The run goes to the resolved project. Its tags are exactly `yolo_monitoring`, `reference_dataset:<id>`, `created:<stamp>`, and it holds the prepared current table. The result is URL + `/projects/` + project id + `/reports/` + run id. |
| Evidently.ReportKeepsProjects | model-monitoring/evidently/evidently_client.py:119-149 | Filing a report creates no project when its own resolution creates none. |
| Evidently.ReportReraises | model-monitoring/evidently/evidently_client.py:119-158 | Failures of resolution, the download and the current preparation are re-raised unchanged. |
| Analyzer.YoloDriftAnalyzer.AnalyzeDrift | model-monitoring/evidently/drift_analyzer.py:22-64 | Performs the analysis steps in order with early exits. The result, workspace and client project are those of the analysis outcome, and the workspace still hands out only new ids. |
| Analyzer.NewAnalyzer | model-monitoring/evidently/drift_analyzer.py:17-20 | Constructing the analyzer raises ValueError iff the API key is empty. Otherwise both clients share the settings and no project is resolved yet. |
| Analyzer.GuardsPrecedeRemoteCalls | model-monitoring/evidently/drift_analyzer.py:31-38 | A missing dataset id, then a failed connection test, raise before any remote call. The dataset-id message wins when both apply. |
| Analyzer.EmptyCurrentFilesNoReport | model-monitoring/evidently/drift_analyzer.py:44-48 | No current rows raises the "Current dataset is empty … N days" error after resolution only: no download, no run. |
| Analyzer.AnalysisReraises | model-monitoring/evidently/drift_analyzer.py:62-64 | Resolution and current-query failures propagate unchanged, and a failed resolution files no run. |
| Analyzer.SuccessPassedGuards | model-monitoring/evidently/drift_analyzer.py:31-60 | A success passed every guard, and its result is exactly the report call's result on the non-empty current window. |
| Analyzer.SuccessReportsResolvedProject | model-monitoring/evidently/drift_analyzer.py:41-60 | The report's resolution gives the same project as the analyzer's own. The run is tagged with the dataset id and holds the prepared current rows, and the URL names that project and run. |
| Analyzer.SuccessFilesOneRun | model-monitoring/evidently/drift_analyzer.py:41-60 | A successful analysis files exactly one run and creates at most one project. |
| Analyzer.ErrorReport | model-monitoring/evidently/drift_analyzer.py:75-76 | The loop prints one bullet line per configuration error, in order. |
| Analyzer.RunMain | model-monitoring/evidently/drift_analyzer.py:66-88 | Prints the banner, then either the configuration errors (exit 1), the analysis error (exit 1), or completion and the report URL (exit 0). |
| Analyzer.MainExitStatus | model-monitoring/evidently/drift_analyzer.py:66-88 | Exit status 0 iff the configuration is valid and the analysis succeeds. The last line is then the report URL; a failed analysis prints its message. |
| Analyzer.MainReportsEveryViolation | model-monitoring/evidently/drift_analyzer.py:72-77 | An invalid configuration exits 1 without any remote call and prints one bullet per violated rule. A missing dataset id is therefore always reported by validation. |
| Analyzer.ErrorLineIffViolated | model-monitoring/evidently/drift_analyzer.py:74-76 | A rule's bullet line is printed iff the rule is violated. |

## Left out

- Logging, `load_dotenv` and `os.getenv` are left out. The settings are one explicit `Settings` value, and `print_config` only prints.
- Wall-clock time is a parameter: `now` is in whole seconds, and the formatted `created:` and upload stamps are strings. `pd.to_datetime` is not modelled, so timestamps stay integers.
- The ClickHouse driver and the SQL engine are not modelled. The warehouse is the span table plus whether it answers and which statements it rejects. Only the predictions query text is built and read back. The other statements are modelled by their meaning, not their text.
- Ties under `ORDER BY Timestamp DESC` and, in the class distribution, groups with equal counts under `ORDER BY count DESC` are left in first-seen order (a stable sort). ClickHouse leaves the order of ties unspecified.
- ClickHouse.ClickHouseClient.GetYoloPredictionsData: `limit` is a natural number. A negative `limit`, which is truthy and yields a LIMIT clause ClickHouse rejects, is not modelled.
- Config.Validate: the minimum confidence is a real, so a NaN setting, which passes both comparisons in Python, is not modelled.
- Text.ToNumeric accepts an optional sign, digits and an optional decimal fraction. Exponents, surrounding whitespace, `inf` and `nan` spellings are not modelled and read as null.
- The averaged columns (`avg_processing_time` of the summary, `avg_confidence` of the distribution) are left out. Both take `avg()` over values of String attribute maps (`SpanAttributes['processing_time_seconds']`, `Events.Attributes[...]['confidence']`), which ClickHouse most likely rejects as an illegal argument type under the standard OpenTelemetry trace schema.
- So a warehouse with the standard schema is a `Warehouse` with `SummaryQuery` and `DistributionQuery` in `rejected`. There `get_predictions_summary` always gives `{}` and `get_class_distribution` always gives an empty table. The success branches of `SummaryOutcome` and `DistributionOutcome` model a schema under which those averages type-check, and give the counts and bounds only.
- The summary's empty-result branch is left out: an aggregate query without GROUP BY always returns one row.
- Remote.GetProjectIn: a missing project id gives "no project", following the workspace API's optional result. The client then holds `project = None`, and the report step later fails at `self.project.id`. The drift service's own error behaviour for unknown ids is not modelled.
- The drift service's identifiers are `id-<n>` from a counter. The workspace invariant `Remote.WellFormed` says no stored project, dataset or run holds an id the counter has yet to hand out, so each id handed out is new. The service's real identifiers (UUIDs) are not modelled.
- Each remote call fails or succeeds on its own: the store names the positions in its call log whose calls fail. A failing call fails with one generic message, whatever the service's own error. A downloaded dataset is the table that was uploaded.
- Evidently.EvidentlyClient.CreateAndUploadDriftReport: the drift statistics of `DataDriftPreset` are not computed. The snapshot holds the two prepared tables and the tags, and `Report.run` is taken never to raise.
- Frames.Prepare: a missing feature column fails with KeyError carrying the column name. The exact wording of pandas' KeyError message is not modelled.
- `sys.exit` is modelled by returning the exit status, and `print` by collecting the printed lines. Python's bare `Exception` is the `RuntimeError` kind.
- The ClickHouse client's connection is lazy, so construction cannot fail. Failures surface at the first query.
