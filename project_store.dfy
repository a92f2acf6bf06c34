/** The project store of the frontend (frontend/src/store/useProjectStore.ts):
    the project list and the current project as the create, save, delete and
    duplicate actions change them, the retry with exponential back-off the
    save goes through, and the debounced auto-save switch.  Each request's
    outcome is a parameter; the clock reading a save records is a
    parameter too. */
module ProjectStore {
  import opened Wrappers
  import opened Editor
  import opened ChatStream
  import Retry

  // ---------------------------------------------------------------------------
  // retryRequest

  const MaxRetries: nat := 3
  const RetryDelay: nat := 1000

  /** How a `retryRequest` settled: its result, how many times it called the
      function and the delays it waited between the calls. */
  datatype Retried<T> = Retried(result: Result<T, Thrown>, calls: nat, waits: seq<nat>)

  /** `retryRequest(fn, retries, delay)`, where `outcome(k)` is how the `k`-th
      call of `fn` settles and the first call here is call `first`. */
  function RetryRequest<T>(outcome: nat -> Result<T, Thrown>, first: nat, retries: nat, delay: nat): (r: Retried<T>)
    ensures 1 <= r.calls <= retries + 1
    ensures |r.waits| == r.calls - 1
    decreases retries
  {
    match outcome(first)
    case Success(v) => Retried(Success(v), 1, [])
    case Failure(e) =>
      if retries > 0 then
        var rest := RetryRequest(outcome, first + 1, retries - 1, delay * 2);
        Retried(rest.result, rest.calls + 1, [delay] + rest.waits)
      else Retried(Failure(e), 1, [])
  }

  /** The waits double: delay, 2·delay, 4·delay, ... */
  lemma {:induction false} RetryWaitsDouble<T>(outcome: nat -> Result<T, Thrown>, first: nat, retries: nat, delay: nat)
    ensures var r := RetryRequest(outcome, first, retries, delay);
      forall i :: 0 <= i < |r.waits| ==> r.waits[i] == delay * Retry.Pow2(i)
    decreases retries
  {
    var r := RetryRequest(outcome, first, retries, delay);
    if outcome(first).Failure? && retries > 0 {
      RetryWaitsDouble(outcome, first + 1, retries - 1, delay * 2);
      var rest := RetryRequest(outcome, first + 1, retries - 1, delay * 2);
      assert r.waits == [delay] + rest.waits;
      DoubledWaits(delay, rest.waits);
    }
  }

  /** Waits that double from `2·delay`, preceded by `delay`, double from
      `delay`. */
  lemma DoubledWaits(delay: nat, rest: seq<nat>)
    requires forall i :: 0 <= i < |rest| ==> rest[i] == delay * 2 * Retry.Pow2(i)
    ensures forall i :: 0 <= i < |rest| + 1 ==> ([delay] + rest)[i] == delay * Retry.Pow2(i)
  {
    forall i | 0 < i < |rest| + 1
      ensures ([delay] + rest)[i] == delay * Retry.Pow2(i)
    {
      var p := Retry.Pow2(i - 1);
      assert Retry.Pow2(i) == 2 * p;
      assert ([delay] + rest)[i] == rest[i - 1];
      assert delay * 2 * p == delay * (2 * p);
    }
  }

  /** The result is the first success, every call before it having failed;
      or, when every allowed call fails, the error of the last one. */
  lemma {:induction false} RetryFirstSuccess<T>(outcome: nat -> Result<T, Thrown>, first: nat, retries: nat, delay: nat)
    ensures var r := RetryRequest(outcome, first, retries, delay);
      forall j :: first <= j < first + r.calls - 1 ==> outcome(j).Failure?
    ensures var r := RetryRequest(outcome, first, retries, delay);
      r.result.Success? ==> outcome(first + r.calls - 1) == r.result
    ensures var r := RetryRequest(outcome, first, retries, delay);
      r.result.Failure? ==> r.calls == retries + 1 && r.result == outcome(first + retries)
    decreases retries
  {
    if outcome(first).Failure? && retries > 0 {
      RetryFirstSuccess(outcome, first + 1, retries - 1, delay * 2);
    }
  }

  /** With the defaults the function is called at most four times, and the
      waits are 1000, 2000 and 4000 milliseconds, as far as they go. */
  lemma DefaultRetries<T>(outcome: nat -> Result<T, Thrown>)
    ensures var r := RetryRequest(outcome, 0, MaxRetries, RetryDelay);
      r.calls <= 4 && r.waits == [1000, 2000, 4000][..|r.waits|]
  {
    RetryWaitsDouble(outcome, 0, MaxRetries, RetryDelay);
    var r := RetryRequest(outcome, 0, MaxRetries, RetryDelay);
    assert Retry.Pow2(1) == 2 && Retry.Pow2(2) == 4;
  }

  // ---------------------------------------------------------------------------
  // The project list

  /** A project as the store holds it. */
  datatype Project = Project(id: string, name: string, description: Option<string>, html: string, css: string, js: string)

  /** The fields of a save: `Partial<Project>`, with `None` for a field that is
      `null` or `undefined`. */
  datatype ProjectUpdates = ProjectUpdates(
    name: Option<string>,
    description: Option<string>,
    html: Option<string>,
    css: Option<string>,
    js: Option<string>)

  /** The request body of `saveProject`: the given fields, with html, css and
      js taken from the editor where the updates leave them out. */
  function SaveBody(updates: ProjectUpdates, code: Code): (body: ProjectUpdates)
    ensures body.name == updates.name && body.description == updates.description
    ensures updates.html.Some? ==> body.html == updates.html
    ensures updates.html.None? ==> body.html == Some(code.html)
    ensures updates.css.Some? ==> body.css == updates.css
    ensures updates.css.None? ==> body.css == Some(code.css)
    ensures updates.js.Some? ==> body.js == updates.js
    ensures updates.js.None? ==> body.js == Some(code.js)
  {
    updates.(html := Some(updates.html.GetOr(code.html)),
             css := Some(updates.css.GetOr(code.css)),
             js := Some(updates.js.GetOr(code.js)))
  }

  /** The list with every entry of `p`'s id replaced by `p`. */
  function Replaced(projects: seq<Project>, p: Project): (r: seq<Project>)
    ensures |r| == |projects|
  {
    seq(|projects|, i requires 0 <= i < |projects| => if projects[i].id == p.id then p else projects[i])
  }

  /** A replacement keeps the positions: an entry with another id stays, an
      entry with the saved id becomes the saved project, so the list holds
      no stale copy of it. */
  lemma ReplacedEntries(projects: seq<Project>, p: Project)
    ensures forall i :: 0 <= i < |projects| && projects[i].id != p.id ==> Replaced(projects, p)[i] == projects[i]
    ensures forall i :: 0 <= i < |projects| && projects[i].id == p.id ==> Replaced(projects, p)[i] == p
    ensures forall q :: q in Replaced(projects, p) && q.id == p.id ==> q == p
  {
  }

  /** The list without the entries of an id, in order. */
  function Removed(projects: seq<Project>, id: string): (r: seq<Project>)
    ensures |r| <= |projects|
  {
    if projects == [] then []
    else (if projects[0].id != id then [projects[0]] else []) + Removed(projects[1..], id)
  }

  /** A deletion keeps exactly the entries of other ids. */
  lemma {:induction false} RemovedIff(projects: seq<Project>, id: string, q: Project)
    ensures q in Removed(projects, id) <==> q in projects && q.id != id
  {
    if projects != [] {
      RemovedIff(projects[1..], id, q);
      assert projects == [projects[0]] + projects[1..];
    }
  }

  /** The current project after a deletion: cleared only when it had that id. */
  function AfterDelete(current: Option<Project>, id: string): (r: Option<Project>)
    ensures current.Some? && current.value.id == id ==> r.None?
    ensures current.None? || current.value.id != id ==> r == current
  {
    if current.Some? && current.value.id == id then None else current
  }

  /** The message the store records for a failed action. */
  function ErrorOr(t: Thrown, fallback: string): (m: string)
    ensures t.ErrorValue? ==> m == t.message
    ensures t.OtherValue? ==> m == fallback
  {
    match t
    case ErrorValue(message) => message
    case TypeErrorValue => TypeErrorText
    case OtherValue => fallback
  }

  /** The target and body of a save. */
  datatype SaveRequest = SaveRequest(id: string, body: ProjectUpdates)

  class ProjectStoreState {
    var projects: seq<Project>
    var currentProject: Option<Project>
    var isLoading: bool
    var isSaving: bool
    var lastSaved: Option<int>
    var error: Option<string>

    constructor()
      ensures projects == [] && currentProject.None? && !isLoading && !isSaving && lastSaved.None? && error.None?
    {
      projects := [];
      currentProject := None;
      isLoading := false;
      isSaving := false;
      lastSaved := None;
      error := None;
    }

    /** `createProject`: the created project goes to the front of the list,
        becomes the current project and fills the editor; a failure is
        recorded and thrown again. */
    method CreateProject(response: Result<Project, Thrown>, e: EditorStore) returns (r: Result<Project, Thrown>)
      modifies this, e
      ensures r == response
      ensures response.Success? ==>
        && projects == [response.value] + old(projects)
        && currentProject == Some(response.value)
        && error.None?
        && e.code == Code(response.value.html, response.value.css, response.value.js)
      ensures response.Failure? ==>
        && projects == old(projects) && currentProject == old(currentProject)
        && error == Some(ErrorOr(response.error, "Failed to create project"))
        && e.code == old(e.code)
      ensures !isLoading && isSaving == old(isSaving) && lastSaved == old(lastSaved)
      ensures e.selectedElement == old(e.selectedElement) && e.viewport == old(e.viewport)
    {
      isLoading := true;
      error := None;
      if response.Failure? {
        error := Some(ErrorOr(response.error, "Failed to create project"));
        isLoading := false;
        return response;
      }
      var project := response.value;
      projects := [project] + projects;
      currentProject := Some(project);
      isLoading := false;
      e.SetCode(Code(project.html, project.css, project.js));
      r := response;
    }

    /** `saveProject`: nothing without a current project; otherwise the body
        built from the updates and the editor is sent through the retry, and
        the saved project replaces the current one and its list entries, or
        the last error is recorded. */
    method SaveProject(updates: ProjectUpdates, e: EditorStore, outcome: nat -> Result<Project, Thrown>, now: int)
      returns (request: Option<SaveRequest>)
      modifies this
      ensures old(currentProject).None? ==>
        && request.None?
        && projects == old(projects) && currentProject == old(currentProject)
        && isSaving == old(isSaving) && error == old(error) && lastSaved == old(lastSaved)
      ensures old(currentProject).Some? ==>
        && request == Some(SaveRequest(old(currentProject).value.id, SaveBody(updates, e.code)))
        && !isSaving
        && var r := RetryRequest(outcome, 0, MaxRetries, RetryDelay).result;
        && (r.Success? ==>
              && currentProject == Some(r.value)
              && projects == Replaced(old(projects), r.value)
              && lastSaved == Some(now) && error.None?)
        && (r.Failure? ==>
              && currentProject == old(currentProject) && projects == old(projects)
              && lastSaved == old(lastSaved)
              && error == Some(ErrorOr(r.error, "Failed to save project")))
      ensures isLoading == old(isLoading)
    {
      if currentProject.None? {
        return None;
      }
      var current := currentProject.value;
      isSaving := true;
      error := None;
      var updateData := SaveBody(updates, e.code);
      request := Some(SaveRequest(current.id, updateData));
      var data := RetryRequest(outcome, 0, MaxRetries, RetryDelay).result;
      if data.Success? {
        var updatedProject := data.value;
        currentProject := Some(updatedProject);
        projects := Replaced(projects, updatedProject);
        isSaving := false;
        lastSaved := Some(now);
        error := None;
      } else {
        error := Some(ErrorOr(data.error, "Failed to save project"));
        isSaving := false;
      }
    }

    /** `deleteProject`: the entries of the id leave the list and the current
        project is cleared when it is the one deleted. */
    method DeleteProject(id: string, failure: Option<Thrown>)
      modifies this
      ensures failure.None? ==>
        && projects == Removed(old(projects), id)
        && currentProject == AfterDelete(old(currentProject), id)
        && error.None?
      ensures failure.Some? ==>
        && projects == old(projects) && currentProject == old(currentProject)
        && error == Some(ErrorOr(failure.value, "Failed to delete project"))
      ensures !isLoading && isSaving == old(isSaving) && lastSaved == old(lastSaved)
    {
      isLoading := true;
      error := None;
      if failure.Some? {
        error := Some(ErrorOr(failure.value, "Failed to delete project"));
        isLoading := false;
        return;
      }
      projects := Removed(projects, id);
      currentProject := AfterDelete(currentProject, id);
      isLoading := false;
    }

    /** `duplicateProject`: the copy goes to the front of the list and the
        current project stays; a failure is recorded and thrown again. */
    method DuplicateProject(response: Result<Project, Thrown>) returns (r: Result<Project, Thrown>)
      modifies this
      ensures r == response
      ensures response.Success? ==> projects == [response.value] + old(projects) && error.None?
      ensures response.Failure? ==>
        && projects == old(projects)
        && error == Some(ErrorOr(response.error, "Failed to duplicate project"))
      ensures currentProject == old(currentProject)
      ensures !isLoading && isSaving == old(isSaving) && lastSaved == old(lastSaved)
    {
      isLoading := true;
      error := None;
      if response.Failure? {
        error := Some(ErrorOr(response.error, "Failed to duplicate project"));
        isLoading := false;
        return response;
      }
      projects := [response.value] + projects;
      isLoading := false;
      r := response;
    }
  }

  // ---------------------------------------------------------------------------
  // Auto-save

  /** The module variables `autoSaveEnabled` and `autoSaveTimer`: whether
      auto-save is on and whether a save is scheduled. */
  class AutoSave {
    var enabled: bool
    var pending: bool

    constructor()
      ensures !enabled && !pending
    {
      enabled := false;
      pending := false;
    }

    /** `enableAutoSave` */
    method Enable()
      modifies this
      ensures enabled && pending == old(pending)
    {
      enabled := true;
    }

    /** `disableAutoSave`: also cancels the scheduled save. */
    method Disable()
      modifies this
      ensures !enabled && !pending
    {
      enabled := false;
      pending := false;
    }

    /** `triggerAutoSave`: nothing while disabled; otherwise the scheduled
        save, if any, is replaced by a new one. */
    method Trigger()
      modifies this
      ensures enabled == old(enabled)
      ensures pending == (old(enabled) || old(pending))
    {
      if !enabled {
        return;
      }
      pending := true;
    }

    /** The scheduled save fires: `saveProject()` with no updates when there
        is a current project. */
    method Fire(store: ProjectStoreState, e: EditorStore, outcome: nat -> Result<Project, Thrown>, now: int)
      returns (request: Option<SaveRequest>)
      requires pending
      modifies this, store
      ensures !pending && enabled == old(enabled)
      ensures old(store.currentProject).None? ==>
        && request.None?
        && store.projects == old(store.projects) && store.currentProject == old(store.currentProject)
        && store.isSaving == old(store.isSaving) && store.error == old(store.error)
        && store.lastSaved == old(store.lastSaved)
      ensures old(store.currentProject).Some? ==>
        && request == Some(SaveRequest(old(store.currentProject).value.id, SaveBody(ProjectUpdates(None, None, None, None, None), e.code)))
        && !store.isSaving
        && var r := RetryRequest(outcome, 0, MaxRetries, RetryDelay).result;
        && (r.Success? ==>
              && store.currentProject == Some(r.value)
              && store.projects == Replaced(old(store.projects), r.value)
              && store.lastSaved == Some(now) && store.error.None?)
        && (r.Failure? ==>
              && store.currentProject == old(store.currentProject) && store.projects == old(store.projects)
              && store.lastSaved == old(store.lastSaved)
              && store.error == Some(ErrorOr(r.error, "Failed to save project")))
      ensures store.isLoading == old(store.isLoading)
    {
      pending := false;
      request := None;
      if store.currentProject.Some? {
        request := store.SaveProject(ProjectUpdates(None, None, None, None, None), e, outcome, now);
      }
    }
  }
}
