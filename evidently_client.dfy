/** `EvidentlyClient`: resolves the monitoring project, uploads and
    downloads datasets, and files drift reports, over the remote workspace. */
module Evidently {
  import opened Outcomes
  import opened Config
  import opened Frames
  import opened Remote

  const ApiKeyMissingMessage := "EVIDENTLY_API_KEY is required. Please set it in environment variables."
  const ProjectMissingMessage := "Project not initialized. Call create_or_get_project() first"
  /** What Python says when `self.project.id` is read while `self.project` is None. */
  const NoProjectIdMessage := "'NoneType' object has no attribute 'id'"

  /** The first project named `name`, in listing order. */
  function FirstNamed(ps: seq<Project>, name: string): (r: Option<Project>)
    ensures r.Some? ==> exists i :: 0 <= i < |ps| && ps[i] == r.value && r.value.name == name
                                    && forall j :: 0 <= j < i ==> ps[j].name != name
    ensures r.None? ==> forall i :: 0 <= i < |ps| ==> ps[i].name != name
  {
    if ps == [] then None
    else if ps[0].name == name then Some(ps[0])
    else
      var r := FirstNamed(ps[1..], name);
      assert forall i :: 1 <= i < |ps| ==> ps[i] == ps[1..][i - 1];
      if r.Some? then
        var i :| 0 <= i < |ps[1..]| && ps[1..][i] == r.value && r.value.name == name
                 && forall j :: 0 <= j < i ==> ps[1..][j].name != name;
        assert ps[i + 1] == r.value;
        r
      else r
  }

  /** `create_or_get_project()` on the workspace state `st`: the result and
      the workspace state after it. With a configured project id only that
      project is fetched; otherwise the projects are listed, the first with
      the configured name is taken, and a project is created only when none
      has it. Failures propagate. */
  function Resolve(s: Settings, st: Store): (Result<Option<Project>>, Store)
  {
    if s.evidentlyProjectId != "" then GetProjectIn(st, s.evidentlyProjectId)
    else
      var (listed, st1) := ListProjectsIn(st);
      if listed.Err? then (Err(listed.error), st1)
      else
        match FirstNamed(listed.value, s.evidentlyProjectName)
        case Some(p) => (Ok(Some(p)), st1)
        case None =>
          var (created, st2) := CreateProjectIn(st1, s.evidentlyProjectName);
          if created.Err? then (Err(created.error), st2) else (Ok(Some(created.value)), st2)
  }

  /** The default description of an uploaded dataset, stamped with the time
      of the upload. */
  function DefaultDescription(uploadedAt: string): string
  {
    "YOLO predictions dataset uploaded at " + uploadedAt
  }

  /** `upload_dataset(df, dataset_name, description)` with the client's
      project `project`. */
  function UploadOutcome(project: Option<Project>, st: Store, df: Frame, datasetName: string, description: string, uploadedAt: string)
    : (Result<string>, Store)
  {
    if project.None? then (Err(Failure(ValueError, ProjectMissingMessage)), st)
    else
      match Prepare(df, datasetName)
      case Err(e) => (Err(e), st)
      case Ok(dataset) =>
        AddDatasetIn(st, dataset, datasetName, project.value.id,
                     if description != "" then description else DefaultDescription(uploadedAt))
  }

  /** The report's tags. */
  function ReportTags(referenceDatasetId: string, createdAt: string): seq<string>
  {
    ["yolo_monitoring", "reference_dataset:" + referenceDatasetId, "created:" + createdAt]
  }

  /** Where the service shows a run. */
  function ReportUrl(serviceUrl: string, projectId: string, runId: string): string
  {
    serviceUrl + "/projects/" + projectId + "/reports/" + runId
  }

  /** `create_and_upload_drift_report(reference_dataset_id, current_df)`:
      the result, the workspace state after it and the client's project. */
  function ReportOutcome(s: Settings, st: Store, project: Option<Project>, referenceDatasetId: string,
                         current: Frame, createdAt: string): (Result<string>, Store, Option<Project>)
  {
    var (resolved, st1) := Resolve(s, st);
    if resolved.Err? then (Err(resolved.error), st1, project)
    else
      var project1 := resolved.value;
      var (loaded, st2) := LoadDatasetIn(st1, referenceDatasetId);
      if loaded.Err? then (Err(loaded.error), st2, project1)
      else
        match Prepare(loaded.value, "reference")
        case Err(e) => (Err(e), st2, project1)
        case Ok(reference) =>
          match Prepare(current, "current")
          case Err(e) => (Err(e), st2, project1)
          case Ok(currentData) =>
            var snapshot := Snapshot(reference, currentData, ReportTags(referenceDatasetId, createdAt));
            if project1.None? then (Err(Failure(AttributeError, NoProjectIdMessage)), st2, project1)
            else
              var (run, st3) := AddRunIn(st2, project1.value.id, snapshot);
              if run.Err? then (Err(run.error), st3, project1)
              else (Ok(ReportUrl(s.evidentlyUrl, project1.value.id, run.value)), st3, project1)
  }

  class EvidentlyClient {
    const settings: Settings
    const workspace: Workspace
    var project: Option<Project>

    /** The part of `__init__` after the API key check. */
    constructor(settings: Settings, workspace: Workspace)
      requires settings.evidentlyApiKey != ""
      ensures this.settings == settings && this.workspace == workspace && project == None
    {
      this.settings := settings;
      this.workspace := workspace;
      project := None;
    }

    /** `create_or_get_project()`. The project is looked up anew on every
        call; it is stored on success and left as it was on failure. */
    method CreateOrGetProject() returns (r: Result<Option<Project>>)
      requires workspace.Valid()
      modifies this, workspace
      ensures workspace.Valid()
      ensures (r, workspace.store) == Resolve(settings, old(workspace.store))
      ensures r.Ok? ==> project == r.value
      ensures r.Err? ==> project == old(project)
    {
      if settings.evidentlyProjectId != "" {
        r := workspace.GetProject(settings.evidentlyProjectId);
        if r.Ok? {
          project := r.value;
        }
        return;
      }
      var listed := workspace.ListProjects();
      if listed.Err? {
        r := Err(listed.error);
        return;
      }
      var projects := listed.value;
      var name := settings.evidentlyProjectName;
      var i := 0;
      while i < |projects|
        invariant 0 <= i <= |projects|
        invariant workspace.store == ListProjectsIn(old(workspace.store)).1 && workspace.Valid()
        invariant project == old(project)
        invariant FirstNamed(projects, name) == FirstNamed(projects[i..], name)
      {
        if projects[i].name == name {
          project := Some(projects[i]);
          r := Ok(Some(projects[i]));
          return;
        }
        assert projects[i..][1..] == projects[i + 1..];
        i := i + 1;
      }
      var created := workspace.CreateProject(name);
      if created.Err? {
        r := Err(created.error);
        return;
      }
      project := Some(created.value);
      r := Ok(project);
    }

    /** `upload_dataset(df, dataset_name, description)`; `uploadedAt` is the
        time the default description is stamped with. */
    method UploadDataset(df: Frame, datasetName: string, description: string, uploadedAt: string)
      returns (r: Result<string>)
      requires workspace.Valid()
      modifies workspace
      ensures workspace.Valid()
      ensures (r, workspace.store) == UploadOutcome(project, old(workspace.store), df, datasetName, description, uploadedAt)
    {
      if project.None? {
        r := Err(Failure(ValueError, ProjectMissingMessage));
        return;
      }
      var prepared := Prepare(df, datasetName);
      if prepared.Err? {
        r := Err(prepared.error);
        return;
      }
      var text := if description != "" then description else DefaultDescription(uploadedAt);
      r := workspace.AddDataset(prepared.value, datasetName, project.value.id, text);
    }

    /** `download_dataset(dataset_id)`. */
    method DownloadDataset(datasetId: string) returns (r: Result<Frame>)
      requires workspace.Valid()
      modifies workspace
      ensures workspace.Valid()
      ensures (r, workspace.store) == LoadDatasetIn(old(workspace.store), datasetId)
    {
      r := workspace.LoadDataset(datasetId);
    }

    /** `create_and_upload_drift_report(reference_dataset_id, current_df)`;
        `createdAt` is the timestamp of the `created:` tag. */
    method CreateAndUploadDriftReport(referenceDatasetId: string, current: Frame, createdAt: string)
      returns (r: Result<string>)
      requires workspace.Valid()
      modifies this, workspace
      ensures workspace.Valid()
      ensures (r, workspace.store, project)
              == ReportOutcome(settings, old(workspace.store), old(project), referenceDatasetId, current, createdAt)
    {
      var resolved := CreateOrGetProject();
      if resolved.Err? {
        r := Err(resolved.error);
        return;
      }
      var loaded := DownloadDataset(referenceDatasetId);
      if loaded.Err? {
        r := Err(loaded.error);
        return;
      }
      var reference := Prepare(loaded.value, "reference");
      if reference.Err? {
        r := Err(reference.error);
        return;
      }
      var currentData := Prepare(current, "current");
      if currentData.Err? {
        r := Err(currentData.error);
        return;
      }
      var snapshot := Snapshot(reference.value, currentData.value, ReportTags(referenceDatasetId, createdAt));
      if project.None? {
        r := Err(Failure(AttributeError, NoProjectIdMessage));
        return;
      }
      var run := workspace.AddRun(project.value.id, snapshot);
      if run.Err? {
        r := Err(run.error);
        return;
      }
      r := Ok(ReportUrl(settings.evidentlyUrl, project.value.id, run.value));
    }
  }

  /** `EvidentlyClient()`: an empty API key raises before any workspace
      handle is kept; otherwise the client starts without a project. */
  method Connect(settings: Settings, workspace: Workspace) returns (r: Result<EvidentlyClient>)
    ensures r.Err? <==> settings.evidentlyApiKey == ""
    ensures r.Err? ==> r.error == Failure(ValueError, ApiKeyMissingMessage)
    ensures r.Ok? ==> fresh(r.value) && r.value.settings == settings
                      && r.value.workspace == workspace && r.value.project == None
  {
    if settings.evidentlyApiKey == "" {
      r := Err(Failure(ValueError, ApiKeyMissingMessage));
      return;
    }
    var client := new EvidentlyClient(settings, workspace);
    r := Ok(client);
  }

  // ---------------------------------------------------------------------
  // Project resolution

  /** The calls resolution makes: with a project id, one `get_project` and
      nothing else; otherwise `list_projects`, followed by `create_project`
      exactly when listing succeeded and no project has the name. */
  lemma ResolutionOrder(s: Settings, st: Store)
    ensures Resolve(s, st).1.calls
            == st.calls + (if s.evidentlyProjectId != "" then [GetProjectCall]
                           else if !NextFails(st) && FirstNamed(st.projects, s.evidentlyProjectName).None?
                           then [ListProjectsCall, CreateProjectCall]
                           else [ListProjectsCall])
    ensures s.evidentlyProjectId != "" ==> Resolve(s, st).1.projects == st.projects
    ensures Resolve(s, st).1.failing == st.failing
    ensures Resolve(s, st).1.runs == st.runs
  {
  }

  /** With no project id, a successful resolution yields a project with the
      configured name: the first listed one if any, else a new one. */
  lemma ResolvedByName(s: Settings, st: Store)
    requires s.evidentlyProjectId == "" && Resolve(s, st).0.Ok?
    ensures Resolve(s, st).0.value.Some?
    ensures Resolve(s, st).0.value.value.name == s.evidentlyProjectName
    ensures Resolve(s, st).0.value.value in Resolve(s, st).1.projects
    ensures FirstNamed(st.projects, s.evidentlyProjectName).Some? ==>
              Resolve(s, st).0.value == FirstNamed(st.projects, s.evidentlyProjectName)
  {
  }

  /** A project appended after projects that lack its name is the first
      with that name. */
  lemma {:induction false} FirstNamedAppend(ps: seq<Project>, p: Project)
    requires FirstNamed(ps, p.name).None?
    ensures FirstNamed(ps + [p], p.name) == Some(p)
  {
    if ps == [] {
      assert ps + [p] == [p];
    } else {
      assert (ps + [p])[1..] == ps[1..] + [p];
      FirstNamedAppend(ps[1..], p);
    }
  }

  /** Resolution is idempotent: once it succeeds, resolving again against
      the resulting workspace creates nothing and, unless one of its own
      calls fails, yields the same project; the first resolution creates at
      most one project. */
  lemma ResolveIdempotent(s: Settings, st: Store)
    requires Resolve(s, st).0.Ok?
    ensures Resolve(s, Resolve(s, st).1).0.Ok? ==> Resolve(s, Resolve(s, st).1).0 == Resolve(s, st).0
    ensures Resolve(s, Resolve(s, st).1).1.projects == Resolve(s, st).1.projects
    ensures |Resolve(s, st).1.projects| <= |st.projects| + 1
  {
    var (r1, st1) := Resolve(s, st);
    if s.evidentlyProjectId == "" && FirstNamed(st.projects, s.evidentlyProjectName).None? {
      FirstNamedAppend(st.projects, r1.value.value);
    }
  }

  // ---------------------------------------------------------------------
  // Uploads and reports

  /** Without a project, upload raises before preparing or sending anything. */
  lemma UploadNeedsProject(st: Store, df: Frame, datasetName: string, description: string, uploadedAt: string)
    ensures UploadOutcome(None, st, df, datasetName, description, uploadedAt)
            == (Err(Failure(ValueError, "Project not initialized. Call create_or_get_project() first")), st)
  {
  }

  /** With a project, an upload that succeeds stores the prepared frame under
      the returned id, in that project, with the given description or else
      the stamped default one. */
  lemma UploadStoresPrepared(project: Project, st: Store, df: Frame, datasetName: string, description: string, uploadedAt: string)
    requires UploadOutcome(Some(project), st, df, datasetName, description, uploadedAt).0.Ok?
    ensures var (id, st1) := UploadOutcome(Some(project), st, df, datasetName, description, uploadedAt);
            && Prepare(df, datasetName).Ok?
            && id.value in st1.datasets
            && st1.datasets[id.value].data == Prepare(df, datasetName).value
            && st1.datasets[id.value].projectId == project.id
            && st1.datasets[id.value].description
               == (if description == "" then "YOLO predictions dataset uploaded at " + uploadedAt else description)
  {
  }

  /** The run is added only after resolution, the download and both
      preparations have succeeded; a report succeeds exactly when, in
      addition, a project was resolved and the run was accepted; and a
      failed report adds no run. */
  lemma ReportSequencing(s: Settings, st: Store, project: Option<Project>, referenceDatasetId: string,
                         current: Frame, createdAt: string)
    ensures var (r, st3, _) := ReportOutcome(s, st, project, referenceDatasetId, current, createdAt);
            var (resolved, st1) := Resolve(s, st);
            var (loaded, st2) := LoadDatasetIn(st1, referenceDatasetId);
            (r.Ok? <==> resolved.Ok? && resolved.value.Some? && loaded.Ok?
                        && Prepare(loaded.value, "reference").Ok? && Prepare(current, "current").Ok?
                        && !NextFails(st2))
            && (r.Ok? ==> |st3.runs| == |st.runs| + 1)
            && (r.Err? ==> st3.runs == st.runs)
  {
    ResolutionOrder(s, st);
  }

  /** A successful report files one run in the resolved project, tagged
      with the monitoring tag, the reference dataset and the creation time,
      and returns the service URL of that run. */
  lemma ReportTagsAndUrl(s: Settings, st: Store, project: Option<Project>, referenceDatasetId: string,
                         current: Frame, createdAt: string)
    requires ReportOutcome(s, st, project, referenceDatasetId, current, createdAt).0.Ok?
    ensures var (r, st3, project3) := ReportOutcome(s, st, project, referenceDatasetId, current, createdAt);
            && project3 == Resolve(s, st).0.value && project3.Some?
            && |st3.runs| > 0
            && var run := st3.runs[|st3.runs| - 1];
            && run.projectId == project3.value.id
            && run.includeData
            && run.snapshot.tags == ["yolo_monitoring", "reference_dataset:" + referenceDatasetId, "created:" + createdAt]
            && Prepare(current, "current") == Ok(run.snapshot.current)
            && r.value == s.evidentlyUrl + "/projects/" + project3.value.id + "/reports/" + run.id
  {
  }

  /** Filing a report creates no project once resolution has succeeded
      without creating one. */
  lemma ReportKeepsProjects(s: Settings, st: Store, project: Option<Project>, referenceDatasetId: string,
                            current: Frame, createdAt: string)
    requires Resolve(s, st).1.projects == st.projects
    ensures ReportOutcome(s, st, project, referenceDatasetId, current, createdAt).1.projects == st.projects
  {
  }

  /** Every failure of a step is passed on unchanged. */
  lemma ReportReraises(s: Settings, st: Store, project: Option<Project>, referenceDatasetId: string,
                       current: Frame, createdAt: string)
    ensures Resolve(s, st).0.Err? ==>
              ReportOutcome(s, st, project, referenceDatasetId, current, createdAt).0 == Err(Resolve(s, st).0.error)
    ensures Resolve(s, st).0.Ok? && LoadDatasetIn(Resolve(s, st).1, referenceDatasetId).0.Err? ==>
              ReportOutcome(s, st, project, referenceDatasetId, current, createdAt).0
              == Err(LoadDatasetIn(Resolve(s, st).1, referenceDatasetId).0.error)
    ensures Resolve(s, st).0.Ok? && LoadDatasetIn(Resolve(s, st).1, referenceDatasetId).0.Ok?
            && Prepare(LoadDatasetIn(Resolve(s, st).1, referenceDatasetId).0.value, "reference").Ok?
            && Prepare(current, "current").Err? ==>
              ReportOutcome(s, st, project, referenceDatasetId, current, createdAt).0
              == Err(Prepare(current, "current").error)
  {
  }
}
