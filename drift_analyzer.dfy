/** `YoloDriftAnalyzer` and the command-line entry point: check the
    configuration and the warehouse, resolve the project, fetch the last
    days of predictions and file a drift report. */
module Analyzer {
  import opened Outcomes
  import opened Text
  import opened Config
  import opened Telemetry
  import opened Frames
  import opened Remote
  import opened ClickHouse
  import opened Evidently

  const DatasetIdMissingMessage := "REFERENCE_DATASET_ID is required. Create reference dataset first."
  const ConnectionFailedMessage := "ClickHouse connection failed"

  function EmptyCurrentMessage(days: int): string
  {
    "Current dataset is empty (no predictions in last " + IntToString(days) + " days)"
  }

  /** `analyze_drift()` against the warehouse `w` and the workspace state
      `st`, with the client's project `project`: the result, the workspace
      state after it and the client's project after it. `now` is the
      warehouse clock and `createdAt` the report's timestamp. */
  function AnalysisOutcome(s: Settings, w: Warehouse, st: Store, project: Option<Project>, now: int, createdAt: string)
    : (Result<string>, Store, Option<Project>)
  {
    if s.referenceDatasetId == "" then (Err(Failure(RuntimeError, DatasetIdMissingMessage)), st, project)
    else if PingFails(w) then (Err(Failure(RuntimeError, ConnectionFailedMessage)), st, project)
    else
      var (resolved, st1) := Resolve(s, st);
      if resolved.Err? then (Err(resolved.error), st1, project)
      else
        var current := CurrentOutcome(w, s, now);
        if current.Err? then (Err(current.error), st1, resolved.value)
        else if IsEmpty(ToFrame(current.value)) then
          (Err(Failure(RuntimeError, EmptyCurrentMessage(s.currentDaysAgo))), st1, resolved.value)
        else ReportOutcome(s, st1, resolved.value, s.referenceDatasetId, ToFrame(current.value), createdAt)
  }

  class YoloDriftAnalyzer {
    const settings: Settings
    const clickhouse: ClickHouseClient
    const evidently: EvidentlyClient

    /** Both clients read the same configuration, and the workspace hands
        out only new identifiers. */
    ghost predicate Valid()
      reads evidently.workspace
    {
      clickhouse.settings == settings && evidently.settings == settings && evidently.workspace.Valid()
    }

    constructor(settings: Settings, clickhouse: ClickHouseClient, evidently: EvidentlyClient)
      ensures this.settings == settings && this.clickhouse == clickhouse && this.evidently == evidently
    {
      this.settings := settings;
      this.clickhouse := clickhouse;
      this.evidently := evidently;
    }

    /** `analyze_drift()`: every failure, its own or a client's, propagates. */
    method AnalyzeDrift(now: int, createdAt: string) returns (r: Result<string>)
      requires Valid()
      modifies evidently, evidently.workspace
      ensures Valid()
      ensures (r, evidently.workspace.store, evidently.project)
              == AnalysisOutcome(settings, clickhouse.warehouse, old(evidently.workspace.store), old(evidently.project), now, createdAt)
    {
      if settings.referenceDatasetId == "" {
        r := Err(Failure(RuntimeError, DatasetIdMissingMessage));
        return;
      }
      var connected := clickhouse.TestConnection();
      if !connected {
        r := Err(Failure(RuntimeError, ConnectionFailedMessage));
        return;
      }
      var project := evidently.CreateOrGetProject();
      if project.Err? {
        r := Err(project.error);
        return;
      }
      var current := clickhouse.GetCurrentDataset(now);
      if current.Err? {
        r := Err(current.error);
        return;
      }
      var currentFrame := ToFrame(current.value);
      if IsEmpty(currentFrame) {
        r := Err(Failure(RuntimeError, EmptyCurrentMessage(settings.currentDaysAgo)));
        return;
      }
      r := evidently.CreateAndUploadDriftReport(settings.referenceDatasetId, currentFrame, createdAt);
    }
  }

  /** `YoloDriftAnalyzer()`: the warehouse client cannot fail to construct;
      the drift-service client raises on an empty API key. */
  method NewAnalyzer(s: Settings, w: Warehouse, workspace: Workspace) returns (r: Result<YoloDriftAnalyzer>)
    requires workspace.Valid()
    ensures r.Err? <==> s.evidentlyApiKey == ""
    ensures r.Err? ==> r.error == Failure(ValueError, ApiKeyMissingMessage)
    ensures r.Ok? ==> fresh(r.value) && fresh(r.value.evidently) && r.value.Valid()
                      && r.value.settings == s && r.value.clickhouse.warehouse == w
                      && r.value.evidently.workspace == workspace && r.value.evidently.project == None
  {
    var clickhouse := new ClickHouseClient(s, w);
    var evidently := Connect(s, workspace);
    if evidently.Err? {
      r := Err(evidently.error);
      return;
    }
    var analyzer := new YoloDriftAnalyzer(s, clickhouse, evidently.value);
    r := Ok(analyzer);
  }

  // ---------------------------------------------------------------------
  // The entry point

  const Banner: seq<string> := ["\U{1F680} YOLO Drift Analysis", "=============================="]
  const ConfigurationErrorsLine := "\U{274C} Configuration errors:"
  const CompletedLine := "\U{2705} Analysis completed!"

  function ErrorLine(r: Rule): string
  {
    "   \U{2022} " + Message(r)
  }

  function ErrorLines(errors: seq<Rule>): seq<string>
  {
    seq(|errors|, i requires 0 <= i < |errors| => ErrorLine(errors[i]))
  }

  function FailureLine(f: Failure): string
  {
    "\U{274C} Error: " + f.message
  }

  function ReportLine(url: string): string
  {
    "\U{1F4CA} Report: " + url
  }

  /** `main()`: the exit status, the printed lines and the workspace state
      after it, given what `analyze_drift()` does from the initial workspace
      state `st`; that outcome matters only once the configuration passes.
      The client constructor's own API-key check cannot fail here, since
      validation has already required the key. */
  function MainOutcome(s: Settings, st: Store, analysis: (Result<string>, Store, Option<Project>)): (int, seq<string>, Store)
  {
    var errors := Violations(s, Rules);
    if errors != [] then (1, Banner + [ConfigurationErrorsLine] + ErrorLines(errors), st)
    else if analysis.0.Err? then (1, Banner + [FailureLine(analysis.0.error)], analysis.1)
    else (0, Banner + [CompletedLine, ReportLine(analysis.0.value)], analysis.1)
  }

  /** The loop printing one bullet line per configuration error. */
  method ErrorReport(errors: seq<Rule>) returns (lines: seq<string>)
    ensures lines == ErrorLines(errors)
  {
    lines := [];
    var i := 0;
    while i < |errors|
      invariant 0 <= i <= |errors|
      invariant lines == ErrorLines(errors[..i])
    {
      assert errors[..i + 1] == errors[..i] + [errors[i]];
      ErrorLinesAppend(errors[..i], errors[i]);
      lines := lines + [ErrorLine(errors[i])];
      i := i + 1;
    }
    assert errors[..i] == errors;
  }

  lemma ErrorLinesAppend(errors: seq<Rule>, r: Rule)
    ensures ErrorLines(errors + [r]) == ErrorLines(errors) + [ErrorLine(r)]
  {
  }

  /** `main()`, with the exit status returned instead of ending the process
      and the printed lines collected in order. */
  method RunMain(s: Settings, w: Warehouse, workspace: Workspace, now: int, createdAt: string)
    returns (exitCode: int, output: seq<string>)
    requires workspace.Valid()
    modifies workspace
    ensures workspace.Valid()
    ensures (exitCode, output, workspace.store)
            == MainOutcome(s, old(workspace.store), AnalysisOutcome(s, w, old(workspace.store), None, now, createdAt))
  {
    output := Banner;
    var errors := Validate(s);
    if errors != [] {
      var lines := ErrorReport(errors);
      exitCode, output := 1, output + [ConfigurationErrorsLine] + lines;
      return;
    }
    // Validation has already required the API key, so the client
    // constructor cannot raise.
    var analyzer := NewAnalyzer(s, w, workspace);
    assert analyzer.Ok?;
    var report := analyzer.value.AnalyzeDrift(now, createdAt);
    if report.Err? {
      exitCode, output := 1, output + [FailureLine(report.error)];
      return;
    }
    exitCode, output := 0, output + [CompletedLine, ReportLine(report.value)];
  }

  // ---------------------------------------------------------------------
  // Properties of the analysis

  /** Nothing is asked of the drift service until the reference dataset id
      is set and the warehouse answers; the missing id is reported first. */
  lemma GuardsPrecedeRemoteCalls(s: Settings, w: Warehouse, st: Store, project: Option<Project>, now: int, createdAt: string)
    requires s.referenceDatasetId == "" || PingFails(w)
    ensures var (r, st1, project1) := AnalysisOutcome(s, w, st, project, now, createdAt);
            && st1 == st && project1 == project && r.Err? && r.error.kind == RuntimeError
            && r.error.message == (if s.referenceDatasetId == "" then "REFERENCE_DATASET_ID is required. Create reference dataset first."
                                   else "ClickHouse connection failed")
  {
  }

  /** With no predictions in the window, no reference is downloaded and no
      run is filed: only the project resolution reaches the service. */
  lemma EmptyCurrentFilesNoReport(s: Settings, w: Warehouse, st: Store, project: Option<Project>, now: int, createdAt: string)
    requires s.referenceDatasetId != "" && !PingFails(w) && Resolve(s, st).0.Ok?
    requires CurrentOutcome(w, s, now) == Ok([])
    ensures var (r, st1, _) := AnalysisOutcome(s, w, st, project, now, createdAt);
            && r == Err(Failure(RuntimeError, "Current dataset is empty (no predictions in last "
                                              + IntToString(s.currentDaysAgo) + " days)"))
            && st1 == Resolve(s, st).1
            && st1.runs == st.runs
            && LoadDatasetCall !in st1.calls[|st.calls|..]
  {
    ResolutionOrder(s, st);
  }

  /** Failures of the resolution and of the current-data query propagate
      unchanged, and neither files a run. */
  lemma AnalysisReraises(s: Settings, w: Warehouse, st: Store, project: Option<Project>, now: int, createdAt: string)
    requires s.referenceDatasetId != "" && !PingFails(w)
    ensures Resolve(s, st).0.Err? ==>
              AnalysisOutcome(s, w, st, project, now, createdAt).0 == Err(Resolve(s, st).0.error)
    ensures Resolve(s, st).0.Ok? && CurrentOutcome(w, s, now).Err? ==>
              AnalysisOutcome(s, w, st, project, now, createdAt).0 == Err(Failure(QueryError, w.fault))
    ensures AnalysisOutcome(s, w, st, project, now, createdAt).0.Err? && Resolve(s, st).0.Err? ==>
              AnalysisOutcome(s, w, st, project, now, createdAt).1.runs == st.runs
  {
    ResolutionOrder(s, st);
  }

  /** A successful analysis passed every guard and handed a non-empty
      current window to the report. */
  lemma SuccessPassedGuards(s: Settings, w: Warehouse, st: Store, project: Option<Project>, now: int, createdAt: string)
    requires AnalysisOutcome(s, w, st, project, now, createdAt).0.Ok?
    ensures s.referenceDatasetId != "" && !PingFails(w) && Resolve(s, st).0.Ok?
    ensures CurrentOutcome(w, s, now) == Ok(CurrentData(w.spans, s.currentDaysAgo, now))
    ensures CurrentData(w.spans, s.currentDaysAgo, now) != []
    ensures AnalysisOutcome(s, w, st, project, now, createdAt)
            == ReportOutcome(s, Resolve(s, st).1, Resolve(s, st).0.value, s.referenceDatasetId,
                             ToFrame(CurrentData(w.spans, s.currentDaysAgo, now)), createdAt)
  {
    if CurrentData(w.spans, s.currentDaysAgo, now) == [] {
      assert IsEmpty(ToFrame(CurrentData(w.spans, s.currentDaysAgo, now)));
    }
  }

  /** The project is resolved twice, once by the analyzer and once by the
      report, and both resolutions agree: a successful analysis files its
      run in the project the first resolution found and returns that run's
      URL. The run carries the prepared current window, which holds at
      least one prediction. */
  lemma SuccessReportsResolvedProject(s: Settings, w: Warehouse, st: Store, project: Option<Project>, now: int, createdAt: string)
    requires AnalysisOutcome(s, w, st, project, now, createdAt).0.Ok?
    ensures var (r, st3, project3) := AnalysisOutcome(s, w, st, project, now, createdAt);
            && Resolve(s, st).0 == Ok(project3) && project3.Some?
            && |st3.runs| > 0
            && var run := st3.runs[|st3.runs| - 1];
            && run.projectId == project3.value.id
            && run.snapshot.tags == ["yolo_monitoring", "reference_dataset:" + s.referenceDatasetId, "created:" + createdAt]
            && CurrentData(w.spans, s.currentDaysAgo, now) != []
            && Prepare(ToFrame(CurrentData(w.spans, s.currentDaysAgo, now)), "current") == Ok(run.snapshot.current)
            && r.value == s.evidentlyUrl + "/projects/" + project3.value.id + "/reports/" + run.id
  {
    SuccessPassedGuards(s, w, st, project, now, createdAt);
    var (resolved, st1) := Resolve(s, st);
    ResolveIdempotent(s, st);
    ReportTagsAndUrl(s, st1, resolved.value, s.referenceDatasetId, ToFrame(CurrentData(w.spans, s.currentDaysAgo, now)), createdAt);
  }

  /** A successful analysis files exactly one run and creates at most one
      project. */
  lemma SuccessFilesOneRun(s: Settings, w: Warehouse, st: Store, project: Option<Project>, now: int, createdAt: string)
    requires AnalysisOutcome(s, w, st, project, now, createdAt).0.Ok?
    ensures |AnalysisOutcome(s, w, st, project, now, createdAt).1.runs| == |st.runs| + 1
    ensures |AnalysisOutcome(s, w, st, project, now, createdAt).1.projects| <= |st.projects| + 1
  {
    SuccessPassedGuards(s, w, st, project, now, createdAt);
    var (resolved, st1) := Resolve(s, st);
    var current := ToFrame(CurrentData(w.spans, s.currentDaysAgo, now));
    ResolutionOrder(s, st);
    ResolveIdempotent(s, st);
    ReportSequencing(s, st1, resolved.value, s.referenceDatasetId, current, createdAt);
    ReportKeepsProjects(s, st1, resolved.value, s.referenceDatasetId, current, createdAt);
  }

  // ---------------------------------------------------------------------
  // Properties of the entry point

  /** The entry point exits with 0 exactly when the configuration is valid
      and the analysis succeeds, and then prints the report URL last; a
      failed analysis prints its message. */
  lemma MainExitStatus(s: Settings, st: Store, analysis: (Result<string>, Store, Option<Project>))
    ensures var (code, lines, _) := MainOutcome(s, st, analysis);
            && (code == 0 || code == 1)
            && (code == 0 <==> IsValid(s) && analysis.0.Ok?)
            && lines[..2] == Banner
            && (code == 0 ==> lines[|lines| - 1] == "\U{1F4CA} Report: " + analysis.0.value)
            && (IsValid(s) && analysis.0.Err? ==> lines[|lines| - 1] == "\U{274C} Error: " + analysis.0.error.message)
  {
    EmptyIffValid(s);
  }

  /** An invalid configuration makes no remote call and prints one line per
      violated rule, in the order the rules are checked. In particular the
      analyzer's own missing-dataset-id error is never what the entry point
      reports: validation catches it first. */
  lemma MainReportsEveryViolation(s: Settings, st: Store, analysis: (Result<string>, Store, Option<Project>))
    requires !IsValid(s)
    ensures var (code, lines, st1) := MainOutcome(s, st, analysis);
            && code == 1 && st1 == st
            && |lines| == 3 + |Violations(s, Rules)|
            && (forall r: Rule :: ErrorLine(r) in lines[3..] <==> Violates(s, r))
            && (s.referenceDatasetId == "" ==> ErrorLine(DatasetIdRequired) in lines)
  {
    EmptyIffValid(s);
    var lines := MainOutcome(s, st, analysis).1;
    assert lines[3..] == ErrorLines(Violations(s, Rules));
    forall r: Rule
      ensures ErrorLine(r) in lines[3..] <==> Violates(s, r)
    {
      ErrorLineIffViolated(s, r);
    }
    if s.referenceDatasetId == "" {
      assert ErrorLine(DatasetIdRequired) in lines[3..];
    }
  }

  /** A rule's bullet line is printed exactly when the rule is violated. */
  lemma ErrorLineIffViolated(s: Settings, r: Rule)
    ensures ErrorLine(r) in ErrorLines(Violations(s, Rules)) <==> Violates(s, r)
  {
    ReportedIffViolated(s, r);
    ErrorLinesMembers(Violations(s, Rules), r);
  }

  /** The bullet lines name exactly the listed rules. */
  lemma ErrorLinesMembers(errors: seq<Rule>, r: Rule)
    ensures ErrorLine(r) in ErrorLines(errors) <==> r in errors
  {
    if ErrorLine(r) in ErrorLines(errors) {
      var i :| 0 <= i < |errors| && ErrorLines(errors)[i] == ErrorLine(r);
      MessageDeterminesRule(errors[i], r);
    }
    if r in errors {
      var i :| 0 <= i < |errors| && errors[i] == r;
      assert ErrorLines(errors)[i] == ErrorLine(r);
    }
  }

  /** Distinct rules print distinct lines. */
  lemma MessageDeterminesRule(a: Rule, b: Rule)
    requires ErrorLine(a) == ErrorLine(b)
    ensures a == b
  {
    MessageLengthDeterminesRule(a, b);
  }
}
