/** The drift service's workspace as the client reaches it: projects,
    stored datasets and report runs. Every remote call is logged and may
    fail; a failed call changes nothing but the log. */
module Remote {
  import opened Outcomes
  import opened Text
  import opened Frames

  datatype Project = Project(id: string, name: string)

  /** The snapshot `Report.run` produces: the two prepared datasets and the
      report's tags (the drift statistics themselves are not modelled). */
  datatype Snapshot = Snapshot(reference: Frame, current: Frame, tags: seq<string>)

  datatype Run = Run(id: string, projectId: string, snapshot: Snapshot, includeData: bool)

  datatype StoredDataset = StoredDataset(name: string, projectId: string, description: string, data: Frame)

  /** The remote calls the client makes. */
  datatype Endpoint = GetProjectCall | ListProjectsCall | CreateProjectCall | AddDatasetCall | LoadDatasetCall | AddRunCall

  /** The remote state; `issued` numbers the identifiers handed out so far,
      `calls` logs every call made, failed or not, and `failing` holds the
      positions in that log of the calls that fail, so each call fails or
      succeeds on its own. */
  datatype Store = Store(
    projects: seq<Project>,
    datasets: map<string, StoredDataset>,
    runs: seq<Run>,
    issued: nat,
    failing: set<nat>,
    calls: seq<Endpoint>)

  const CallFailed := Failure(RemoteError, "remote call failed")

  /** Whether the next call, the one logged at position `|calls|`, fails. */
  predicate NextFails(st: Store)
  {
    |st.calls| in st.failing
  }

  function Logged(st: Store, e: Endpoint): Store
  {
    st.(calls := st.calls + [e])
  }

  /** The `n`-th identifier the service hands out. */
  function IdFor(n: nat): string
  {
    "id-" + NatToString(n)
  }

  /** A fresh identifier. */
  function NextId(st: Store): string
  {
    IdFor(st.issued)
  }

  /** `id` is none of the identifiers handed out from the `issued`-th on. */
  ghost predicate Unissued(id: string, issued: nat)
  {
    forall n: nat :: issued <= n ==> id != IdFor(n)
  }

  /** No project, dataset or run holds an identifier the service has yet to
      hand out, so every identifier it hands out is new. */
  ghost predicate WellFormed(st: Store)
  {
    && (forall p :: p in st.projects ==> Unissued(p.id, st.issued))
    && (forall id :: id in st.datasets ==> Unissued(id, st.issued))
    && (forall r :: r in st.runs ==> Unissued(r.id, st.issued))
  }

  /** The first project with identifier `id`, if any. */
  function FindById(ps: seq<Project>, id: string): (r: Option<Project>)
    ensures r.Some? ==> r.value in ps && r.value.id == id
    ensures r.None? ==> forall i :: 0 <= i < |ps| ==> ps[i].id != id
  {
    if ps == [] then None
    else if ps[0].id == id then Some(ps[0])
    else FindById(ps[1..], id)
  }

  /** `get_project(id)`: the project with that identifier, or None. */
  function GetProjectIn(st: Store, id: string): (Result<Option<Project>>, Store)
  {
    var logged := Logged(st, GetProjectCall);
    if NextFails(st) then (Err(CallFailed), logged)
    else (Ok(FindById(st.projects, id)), logged)
  }

  /** `list_projects()`: the projects in workspace order. */
  function ListProjectsIn(st: Store): (Result<seq<Project>>, Store)
  {
    var logged := Logged(st, ListProjectsCall);
    if NextFails(st) then (Err(CallFailed), logged)
    else (Ok(st.projects), logged)
  }

  /** `create_project(name)`: a new project, listed after the existing ones. */
  function CreateProjectIn(st: Store, name: string): (Result<Project>, Store)
  {
    var logged := Logged(st, CreateProjectCall);
    if NextFails(st) then (Err(CallFailed), logged)
    else
      var p := Project(NextId(st), name);
      (Ok(p), logged.(projects := st.projects + [p], issued := st.issued + 1))
  }

  /** `add_dataset(...)`: stores the dataset and returns its identifier. */
  function AddDatasetIn(st: Store, data: Frame, name: string, projectId: string, description: string): (Result<string>, Store)
  {
    var logged := Logged(st, AddDatasetCall);
    if NextFails(st) then (Err(CallFailed), logged)
    else
      var id := NextId(st);
      (Ok(id), logged.(datasets := st.datasets[id := StoredDataset(name, projectId, description, data)], issued := st.issued + 1))
  }

  /** `load_dataset(id)`: the stored data; an unknown identifier fails. */
  function LoadDatasetIn(st: Store, id: string): (Result<Frame>, Store)
  {
    var logged := Logged(st, LoadDatasetCall);
    if NextFails(st) || id !in st.datasets then (Err(CallFailed), logged)
    else (Ok(st.datasets[id].data), logged)
  }

  /** `add_run(project_id, snapshot, include_data=True)`. */
  function AddRunIn(st: Store, projectId: string, snapshot: Snapshot): (Result<string>, Store)
  {
    var logged := Logged(st, AddRunCall);
    if NextFails(st) then (Err(CallFailed), logged)
    else
      var id := NextId(st);
      (Ok(id), logged.(runs := st.runs + [Run(id, projectId, snapshot, true)], issued := st.issued + 1))
  }

  // ---------------------------------------------------------------------
  // Fresh identifiers

  /** Distinct counter values give distinct identifiers. */
  lemma IdForInjective(m: nat, n: nat)
    requires IdFor(m) == IdFor(n)
    ensures m == n
  {
    assert NatToString(m) == IdFor(m)[3..];
    assert NatToString(n) == IdFor(n)[3..];
    DigitsValueOfNatToString(m);
    DigitsValueOfNatToString(n);
  }

  /** An identifier handed out is not handed out again. */
  lemma NextIdNotReissued(st: Store)
    ensures Unissued(NextId(st), st.issued + 1)
  {
    forall n: nat | st.issued + 1 <= n
      ensures NextId(st) != IdFor(n)
    {
      if NextId(st) == IdFor(n) {
        IdForInjective(st.issued, n);
      }
    }
  }

  /** Creating a project keeps the identifiers fresh, and the new project's
      identifier is that of no existing project. */
  lemma CreateProjectFresh(st: Store, name: string)
    requires WellFormed(st)
    ensures WellFormed(CreateProjectIn(st, name).1)
    ensures CreateProjectIn(st, name).0.Ok? ==>
              forall p :: p in st.projects ==> p.id != CreateProjectIn(st, name).0.value.id
  {
    NextIdNotReissued(st);
  }

  /** Storing a dataset keeps the identifiers fresh, and its identifier is
      that of no dataset stored before. */
  lemma AddDatasetFresh(st: Store, data: Frame, name: string, projectId: string, description: string)
    requires WellFormed(st)
    ensures WellFormed(AddDatasetIn(st, data, name, projectId, description).1)
    ensures AddDatasetIn(st, data, name, projectId, description).0.Ok? ==>
              AddDatasetIn(st, data, name, projectId, description).0.value !in st.datasets
  {
    NextIdNotReissued(st);
  }

  /** Adding a run keeps the identifiers fresh, and its identifier is that of
      no earlier run. */
  lemma AddRunFresh(st: Store, projectId: string, snapshot: Snapshot)
    requires WellFormed(st)
    ensures WellFormed(AddRunIn(st, projectId, snapshot).1)
    ensures AddRunIn(st, projectId, snapshot).0.Ok? ==>
              forall r :: r in st.runs ==> r.id != AddRunIn(st, projectId, snapshot).0.value
  {
    NextIdNotReissued(st);
  }

  /** The client's handle on the workspace: each method is one remote call. */
  class Workspace {
    var store: Store

    /** The service hands out only new identifiers. */
    ghost predicate Valid()
      reads this
    {
      WellFormed(store)
    }

    constructor(initial: Store)
      requires WellFormed(initial)
      ensures store == initial && Valid()
    {
      store := initial;
    }

    method GetProject(id: string) returns (r: Result<Option<Project>>)
      requires Valid()
      modifies this
      ensures Valid()
      ensures (r, store) == GetProjectIn(old(store), id)
    {
      r, store := GetProjectIn(store, id).0, GetProjectIn(store, id).1;
    }

    method ListProjects() returns (r: Result<seq<Project>>)
      requires Valid()
      modifies this
      ensures Valid()
      ensures (r, store) == ListProjectsIn(old(store))
    {
      r, store := ListProjectsIn(store).0, ListProjectsIn(store).1;
    }

    method CreateProject(name: string) returns (r: Result<Project>)
      requires Valid()
      modifies this
      ensures Valid()
      ensures (r, store) == CreateProjectIn(old(store), name)
      ensures r.Ok? ==> forall p :: p in old(store).projects ==> p.id != r.value.id
    {
      CreateProjectFresh(store, name);
      r, store := CreateProjectIn(store, name).0, CreateProjectIn(store, name).1;
    }

    method AddDataset(data: Frame, name: string, projectId: string, description: string) returns (r: Result<string>)
      requires Valid()
      modifies this
      ensures Valid()
      ensures (r, store) == AddDatasetIn(old(store), data, name, projectId, description)
      ensures r.Ok? ==> r.value !in old(store).datasets
    {
      AddDatasetFresh(store, data, name, projectId, description);
      var outcome := AddDatasetIn(store, data, name, projectId, description);
      r, store := outcome.0, outcome.1;
    }

    method LoadDataset(id: string) returns (r: Result<Frame>)
      requires Valid()
      modifies this
      ensures Valid()
      ensures (r, store) == LoadDatasetIn(old(store), id)
    {
      r, store := LoadDatasetIn(store, id).0, LoadDatasetIn(store, id).1;
    }

    method AddRun(projectId: string, snapshot: Snapshot) returns (r: Result<string>)
      requires Valid()
      modifies this
      ensures Valid()
      ensures (r, store) == AddRunIn(old(store), projectId, snapshot)
      ensures r.Ok? ==> forall run :: run in old(store).runs ==> run.id != r.value
    {
      AddRunFresh(store, projectId, snapshot);
      r, store := AddRunIn(store, projectId, snapshot).0, AddRunIn(store, projectId, snapshot).1;
    }
  }

  /** A stored dataset loads back as it was stored, and every dataset
      stored before loads back unchanged: the upload overwrites nothing. */
  lemma LoadAfterAdd(st: Store, data: Frame, name: string, projectId: string, description: string)
    requires WellFormed(st)
    requires |st.calls| !in st.failing && |st.calls| + 1 !in st.failing
    ensures var (id, st1) := AddDatasetIn(st, data, name, projectId, description);
            && id.Ok? && LoadDatasetIn(st1, id.value).0 == Ok(data)
            && forall k :: k in st.datasets ==> LoadDatasetIn(st1, k).0 == Ok(st.datasets[k].data)
  {
    AddDatasetFresh(st, data, name, projectId, description);
  }

  /** Creating a project appends exactly one project, named as asked, which
      listing then returns last. */
  lemma CreateThenList(st: Store, name: string)
    requires |st.calls| !in st.failing && |st.calls| + 1 !in st.failing
    ensures var (p, st1) := CreateProjectIn(st, name);
            && p.Ok? && p.value.name == name
            && ListProjectsIn(st1).0 == Ok(st.projects + [p.value])
  {
  }

  /** A created project is the one `get_project` then finds under its
      identifier, and every earlier project is still found under its own. */
  lemma GetAfterCreate(st: Store, name: string)
    requires WellFormed(st)
    requires |st.calls| !in st.failing && |st.calls| + 1 !in st.failing
    ensures var (p, st1) := CreateProjectIn(st, name);
            && p.Ok? && GetProjectIn(st1, p.value.id).0 == Ok(Some(p.value))
            && forall id :: FindById(st.projects, id).Some? ==>
                 GetProjectIn(st1, id).0 == Ok(FindById(st.projects, id))
  {
    CreateProjectFresh(st, name);
    var (p, st1) := CreateProjectIn(st, name);
    var found := FindById(st1.projects, p.value.id);
    assert st1.projects[|st1.projects| - 1] == p.value;
    assert found.value in st.projects || found.value == p.value;
    forall id | FindById(st.projects, id).Some?
      ensures FindById(st1.projects, id) == FindById(st.projects, id)
    {
      FindByIdAppend(st.projects, p.value, id);
    }
  }

  /** Appending a project changes the lookup only of an identifier no
      earlier project has. */
  lemma {:induction false} FindByIdAppend(ps: seq<Project>, p: Project, id: string)
    requires FindById(ps, id).Some?
    ensures FindById(ps + [p], id) == FindById(ps, id)
  {
    if ps[0].id != id {
      assert (ps + [p])[1..] == ps[1..] + [p];
      FindByIdAppend(ps[1..], p, id);
    }
  }
}
