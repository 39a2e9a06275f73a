/**
 The project store: the application state `{projects, activeProjectId,
 currentView}`, the six action kinds and the pure reducer that applies them.
 */
module Store {
  import opened Wrappers
  import opened Types
  import Keyed

  datatype View = DashboardView | EditorView

  datatype AppState = AppState(
    projects: seq<Project>,
    activeProjectId: Option<string>,
    currentView: View)

  /**
   The actions. `Unrecognised` stands for an action object whose `type` is none
   of the six, which the reducer's default branch returns unchanged.
   */
  datatype Action =
    | LoadProjects(list: seq<Project>)
    | AddProject(project: Project)
    | UpdateProject(project: Project)
    | DeleteProject(id: string)
    | SetActive(target: Option<string>)
    | SetView(view: View)
    | Unrecognised(kind: string)

  /** The state before anything is loaded. */
  function Initial(): (s: AppState)
    ensures s.projects == [] && s.activeProjectId == None && s.currentView == DashboardView
  {
    AppState([], None, DashboardView)
  }

  /** JavaScript truthiness of a `string | null`: null and the empty string are falsy. */
  predicate Truthy(id: Option<string>) {
    id.Some? && id.value != ""
  }

  /** Some project in the list carries this id. */
  predicate HasId(ps: seq<Project>, id: string) {
    exists i :: 0 <= i < |ps| && ps[i].id == id
  }

  function Reduce(s: AppState, a: Action): (r: AppState)
    // LOAD_PROJECTS: the list is the payload; the cursor is untouched.
    ensures a.LoadProjects? ==>
      r.projects == a.list && r.activeProjectId == s.activeProjectId && r.currentView == s.currentView
    // ADD_PROJECT: one more project, at the end; everything earlier in place.
    ensures a.AddProject? ==>
      && |r.projects| == |s.projects| + 1
      && r.projects[|s.projects|] == a.project
      && r.projects[..|s.projects|] == s.projects
      && r.activeProjectId == s.activeProjectId && r.currentView == s.currentView
    // UPDATE_PROJECT: same length; every id match becomes the payload, the others stay.
    ensures a.UpdateProject? ==>
      && |r.projects| == |s.projects|
      && (forall i :: 0 <= i < |s.projects| && s.projects[i].id == a.project.id ==> r.projects[i] == a.project)
      && (forall i :: 0 <= i < |s.projects| && s.projects[i].id != a.project.id ==> r.projects[i] == s.projects[i])
      && (!HasId(s.projects, a.project.id) ==> r.projects == s.projects)
      && r.activeProjectId == s.activeProjectId && r.currentView == s.currentView
    // DELETE_PROJECT: exactly the projects with another id survive; an active victim clears the cursor.
    ensures a.DeleteProject? ==>
      && (forall p :: p in r.projects <==> p in s.projects && p.id != a.id)
      && !HasId(r.projects, a.id)
      && (!HasId(s.projects, a.id) ==> r.projects == s.projects)
      && r.activeProjectId != Some(a.id)
      && (s.activeProjectId == Some(a.id) ==> r.activeProjectId == None && r.currentView == DashboardView)
      && (s.activeProjectId != Some(a.id) ==>
            r.activeProjectId == s.activeProjectId && r.currentView == s.currentView)
    // SET_ACTIVE: the cursor is the payload; a truthy id opens the editor, otherwise the dashboard.
    ensures a.SetActive? ==>
      && r.projects == s.projects && r.activeProjectId == a.target
      && (r.currentView == EditorView <==> Truthy(a.target))
    // SET_VIEW: only the view changes.
    ensures a.SetView? ==> r == s.(currentView := a.view)
    // Anything else: unchanged.
    ensures a.Unrecognised? ==> r == s
  {
    match a
    case LoadProjects(list) => s.(projects := list)
    case AddProject(p) => s.(projects := s.projects + [p])
    case UpdateProject(p) => s.(projects := Keyed.Replace(s.projects, ProjectId, p))
    case DeleteProject(id) =>
      var wasActive := s.activeProjectId == Some(id);
      s.(projects := Keyed.Remove(s.projects, ProjectId, id),
         activeProjectId := if wasActive then None else s.activeProjectId,
         currentView := if wasActive then DashboardView else s.currentView)
    case SetActive(target) =>
      s.(activeProjectId := target, currentView := if Truthy(target) then EditorView else DashboardView)
    case SetView(v) => s.(currentView := v)
    case Unrecognised(_) => s
  }

  /** Dispatches a sequence of actions in order. */
  function ReduceAll(s: AppState, actions: seq<Action>): AppState
    decreases |actions|
  {
    if actions == [] then s else ReduceAll(Reduce(s, actions[0]), actions[1..])
  }

  /** Dispatches a handler's outcome: nothing, or one action. */
  function Dispatch(s: AppState, a: Option<Action>): AppState {
    match a
    case None => s
    case Some(act) => Reduce(s, act)
  }

  /** The survivors of DELETE_PROJECT keep their relative order. */
  lemma {:induction false} DeleteKeepsOrder(s: AppState, id: string, i: nat)
    requires i <= |s.projects|
    ensures Reduce(s, DeleteProject(id)).projects ==
            Reduce(s.(projects := s.projects[..i]), DeleteProject(id)).projects
            + Reduce(s.(projects := s.projects[i..]), DeleteProject(id)).projects
  {
    assert s.projects == s.projects[..i] + s.projects[i..];
    Keyed.RemoveAppend(s.projects[..i], s.projects[i..], ProjectId, id);
  }

  /** The active id, when set, names a project in the list. */
  predicate NoDangling(s: AppState) {
    s.activeProjectId.Some? ==> HasId(s.projects, s.activeProjectId.value)
  }

  /**
   The actions the views can issue from a state: a cursor move only to null or
   to a listed project, and a list load only while the cursor it leaves in place
   still resolves in the new list.
   */
  predicate Issuable(s: AppState, a: Action) {
    match a
    case SetActive(target) => target.None? || HasId(s.projects, target.value)
    case LoadProjects(list) => s.activeProjectId.None? || HasId(list, s.activeProjectId.value)
    case _ => true
  }

  /** The reducer never leaves the active id dangling for an issuable action. */
  lemma ReducePreservesNoDangling(s: AppState, a: Action)
    requires NoDangling(s) && Issuable(s, a)
    ensures NoDangling(Reduce(s, a))
  {
  }

  /** The invariant holds along any run of issuable actions from a state that has it. */
  lemma {:induction false} ReduceAllPreservesNoDangling(s: AppState, actions: seq<Action>)
    requires NoDangling(s)
    requires forall k :: 0 <= k < |actions| ==> Issuable(ReduceAll(s, actions[..k]), actions[k])
    ensures NoDangling(ReduceAll(s, actions))
    decreases |actions|
  {
    if actions != [] {
      assert actions[..0] == [];
      ReducePreservesNoDangling(s, actions[0]);
      var s' := Reduce(s, actions[0]);
      forall k | 0 <= k < |actions[1..]|
        ensures Issuable(ReduceAll(s', actions[1..][..k]), actions[1..][k])
      {
        assert actions[..k + 1][1..] == actions[1..][..k];
        assert actions[..k + 1][0] == actions[0];
      }
      ReduceAllPreservesNoDangling(s', actions[1..]);
    }
  }

  /**
   The actions that keep project ids apart: an added project brings an id not
   yet listed, and a loaded list has unique ids of its own.
   */
  predicate FreshIds(s: AppState, a: Action) {
    match a
    case AddProject(p) => !HasId(s.projects, p.id)
    case LoadProjects(list) => Keyed.UniqueKeys(list, ProjectId)
    case _ => true
  }

  /** Unique project ids stay unique: UPDATE keeps every id in place and DELETE only drops projects. */
  lemma ReducePreservesUniqueIds(s: AppState, a: Action)
    requires Keyed.UniqueKeys(s.projects, ProjectId) && FreshIds(s, a)
    ensures Keyed.UniqueKeys(Reduce(s, a).projects, ProjectId)
  {
    if a.DeleteProject? {
      Keyed.RemoveKeepsUnique(s.projects, ProjectId, a.id);
    }
  }

  /** Unique project ids stay unique along any run whose additions and loads respect them. */
  lemma {:induction false} ReduceAllPreservesUniqueIds(s: AppState, actions: seq<Action>)
    requires Keyed.UniqueKeys(s.projects, ProjectId)
    requires forall k :: 0 <= k < |actions| ==> FreshIds(ReduceAll(s, actions[..k]), actions[k])
    ensures Keyed.UniqueKeys(ReduceAll(s, actions).projects, ProjectId)
    decreases |actions|
  {
    if actions != [] {
      assert actions[..0] == [];
      ReducePreservesUniqueIds(s, actions[0]);
      var s' := Reduce(s, actions[0]);
      forall k | 0 <= k < |actions[1..]|
        ensures FreshIds(ReduceAll(s', actions[1..][..k]), actions[1..][k])
      {
        assert actions[..k + 1][1..] == actions[1..][..k];
        assert actions[..k + 1][0] == actions[0];
      }
      ReduceAllPreservesUniqueIds(s', actions[1..]);
    }
  }

  /** The reducer itself does not keep the invariant: SET_ACTIVE accepts an unknown id. */
  lemma SetActiveCanDangle(s: AppState, id: string)
    requires !HasId(s.projects, id)
    ensures !NoDangling(Reduce(s, SetActive(Some(id))))
  {
  }

  /** Adding a project with a fresh id and then deleting that id restores the list. */
  lemma AddThenDeleteRestores(s: AppState, p: Project)
    requires !HasId(s.projects, p.id)
    requires s.activeProjectId != Some(p.id)
    ensures Reduce(Reduce(s, AddProject(p)), DeleteProject(p.id)) == s
  {
    Keyed.RemoveAppend(s.projects, [p], ProjectId, p.id);
  }

  /** Updating with the same project twice is the same as once. */
  lemma UpdateIdempotent(s: AppState, p: Project)
    ensures Reduce(Reduce(s, UpdateProject(p)), UpdateProject(p)) == Reduce(s, UpdateProject(p))
  {
  }

  /** The initial state satisfies the cursor invariant. */
  lemma InitialNoDangling()
    ensures NoDangling(Initial())
  {
  }
}
