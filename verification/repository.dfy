/**
 Persistence of the project list in one durable slot: the startup load effect
 and the save effect that overwrites the slot whenever the list changes. The
 slot holds the serialized list; serialization is taken as lossless.
 */
module Repository {
  import opened Wrappers
  import opened Types
  import opened Store

  /** The storage slot: absent on first run, else the last saved list. */
  type Slot = Option<seq<Project>>

  /** What the startup load dispatches: LOAD_PROJECTS exactly when a value is stored. */
  function LoadAction(slot: Slot): (r: Option<Action>)
    ensures r.Some? <==> slot.Some?
    ensures r.Some? ==> r.value.LoadProjects? && r.value.list == slot.value
  {
    match slot
    case None => None
    case Some(list) => Some(LoadProjects(list))
  }

  /**
   Whether the reducer hands back a new `projects` list for this action, which
   is what re-runs the save effect. SET_ACTIVE, SET_VIEW and the default branch
   copy the old list over unchanged.
   */
  predicate ChangesList(a: Action) {
    a.LoadProjects? || a.AddProject? || a.UpdateProject? || a.DeleteProject?
  }

  /** A running application: its state and the durable slot. */
  datatype Session = Session(state: AppState, slot: Slot)

  /**
   The values the save effect writes during start-up, in order. The first
   commit runs the load effect and then the save effect, which still sees the
   initial empty list; when the load dispatched, the re-render writes the
   loaded list back.
   */
  function MountWrites(slot: Slot): (w: seq<seq<Project>>)
    ensures slot.None? ==> w == [[]]
    ensures slot.Some? ==> w == [[], slot.value]
  {
    [Initial().projects] +
      match LoadAction(slot)
      case None => []
      case Some(a) => [Reduce(Initial(), a).projects]
  }

  /**
   Start-up: the initial state, then the stored list loaded if there is one;
   the slot is left holding the last value the save effect wrote.
   */
  function Mount(slot: Slot): (m: Session)
    ensures slot.Some? ==> m.state == Initial().(projects := slot.value)
    ensures slot.None? ==> m.state == Initial()
    ensures m.slot == Some(m.state.projects)
  {
    var st := Dispatch(Initial(), LoadAction(slot));
    var w := MountWrites(slot);
    Session(st, Some(w[|w| - 1]))
  }

  /** One dispatched action, followed by the save effect when the list changed. */
  function Step(m: Session, a: Action): (r: Session)
    ensures r.state == Reduce(m.state, a)
    ensures ChangesList(a) ==> r.slot == Some(r.state.projects)
    ensures !ChangesList(a) ==> r.slot == m.slot
  {
    var st := Reduce(m.state, a);
    Session(st, if ChangesList(a) then Some(st.projects) else m.slot)
  }

  function Run(m: Session, actions: seq<Action>): Session
    decreases |actions|
  {
    if actions == [] then m else Run(Step(m, actions[0]), actions[1..])
  }

  /** The slot mirrors the in-memory list. */
  predicate Synced(m: Session) {
    m.slot == Some(m.state.projects)
  }

  /** Every step keeps the slot equal to the list, whether or not the save effect fires. */
  lemma StepKeepsSynced(m: Session, a: Action)
    requires Synced(m)
    ensures Synced(Step(m, a))
  {
  }

  /** After start-up and any sequence of actions, the slot holds exactly the current list. */
  lemma {:induction false} RunKeepsSynced(m: Session, actions: seq<Action>)
    requires Synced(m)
    ensures Synced(Run(m, actions))
    ensures Run(m, actions).state == ReduceAll(m.state, actions)
    decreases |actions|
  {
    if actions != [] {
      StepKeepsSynced(m, actions[0]);
      RunKeepsSynced(Step(m, actions[0]), actions[1..]);
    }
  }

  /** Restarting after any session reproduces the project list in order. */
  lemma RestartRestoresList(slot: Slot, actions: seq<Action>)
    ensures Mount(Run(Mount(slot), actions).slot).state.projects ==
            Run(Mount(slot), actions).state.projects
  {
    RunKeepsSynced(Mount(slot), actions);
  }
}
