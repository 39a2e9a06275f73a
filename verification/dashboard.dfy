/**
 The dashboard's state transitions: creating a project (ADD_PROJECT followed
 by SET_ACTIVE), opening a project card and deleting one after confirmation.
 */
module Dashboard {
  import opened Wrappers
  import opened Types
  import opened Store
  import Editor
  import Keyed

  /** Generation defaults every new project starts with. */
  const DefaultSettings: ProjectSettings := ProjectSettings(
    aiModelPreference := "gemini-3-flash-preview",
    imageModelPreference := "gemini-2.5-flash-image",
    defaultTone := "Regulatory & Professional",
    defaultPromptPrefix := "",
    defaultNegativePrompt := "cartoonish, low-fidelity",
    autoSaveInterval := 60)

  /** A fresh project: given name, description, id and clock; empty concept and collections. */
  function NewProject(name: string, desc: string, id: string, now: int): (p: Project)
    ensures p.id == id && p.name == name && p.description == desc
    ensures p.createdAt == now && p.updatedAt == now
    ensures p.concept.description == "" && p.concept.keyComponents == []
    ensures p.concept.marketOpportunity == "" && p.concept.imageUrl.None?
    ensures p.marketSegments == [] && p.components == [] && p.documents == []
    ensures p.policyEngines == [] && p.interopFrameworks == [] && p.operationalScenarios == []
    ensures p.generationHistory == []
    ensures p.projectSettings.autoSaveInterval == 60
    ensures p.projectSettings.aiModelPreference == "gemini-3-flash-preview"
    ensures p.projectSettings.imageModelPreference == "gemini-2.5-flash-image"
    ensures p.projectSettings.defaultTone == "Regulatory & Professional"
    ensures p.projectSettings.defaultPromptPrefix == ""
    ensures p.projectSettings.defaultNegativePrompt == "cartoonish, low-fidelity"
  {
    Project(
      id := id, name := name, description := desc, createdAt := now, updatedAt := now,
      concept := Concept("", [], "", None),
      marketSegments := [], components := [], documents := [], policyEngines := [],
      interopFrameworks := [], operationalScenarios := [],
      projectSettings := DefaultSettings, generationHistory := [])
  }

  /** The create handler: nothing for an empty name, else ADD_PROJECT then SET_ACTIVE on the new id. */
  function Create(name: string, desc: string, id: string, now: int): (r: seq<Action>)
    ensures name == "" <==> r == []
    ensures name != "" ==>
      && |r| == 2
      && r[0] == AddProject(NewProject(name, desc, id, now))
      && r[1] == SetActive(Some(id))
  {
    if name == "" then []
    else
      var p := NewProject(name, desc, id, now);
      [AddProject(p), SetActive(Some(p.id))]
  }

  /**
   After creation the list is one longer and ends with the new project, which
   is active in the editor; a fresh id makes it the project the editor shows.
   */
  lemma CreateOpensNewProject(s: AppState, name: string, desc: string, id: string, now: int)
    requires name != "" && id != ""
    ensures var t := ReduceAll(s, Create(name, desc, id, now));
      && t.projects == s.projects + [NewProject(name, desc, id, now)]
      && t.activeProjectId == Some(id)
      && t.currentView == EditorView
      && NoDangling(t)
    ensures !HasId(s.projects, id) ==>
      Editor.ActiveProject(ReduceAll(s, Create(name, desc, id, now))) == Some(NewProject(name, desc, id, now))
  {
    var p := NewProject(name, desc, id, now);
    var acts := Create(name, desc, id, now);
    var s1 := Reduce(s, acts[0]);
    assert ReduceAll(s, acts) == ReduceAll(s1, acts[1..]);
    assert acts[1..][0] == acts[1] && acts[1..][1..] == [];
    assert ReduceAll(s1, acts[1..]) == ReduceAll(Reduce(s1, acts[1]), []);
    var t := Reduce(s1, acts[1]);
    assert t.projects[|s.projects|] == p;
    if !HasId(s.projects, id) {
      var r := Editor.ActiveProject(t).value;
      var i :| 0 <= i < |t.projects| && t.projects[i] == r
               && forall j :: 0 <= j < i ==> t.projects[j].id != r.id;
    }
  }

  /** Creation with an empty name changes nothing. */
  lemma CreateEmptyNameIsNoop(s: AppState, desc: string, id: string, now: int)
    ensures ReduceAll(s, Create("", desc, id, now)) == s
  {
  }

  /** Clicking a project card. */
  function SelectCard(p: Project): (a: Action)
    ensures a.SetActive? && a.target == Some(p.id)
  {
    SetActive(Some(p.id))
  }

  /** Opening a listed card with a non-empty id shows that card in the editor, when ids are unique. */
  lemma SelectCardOpensIt(s: AppState, i: int)
    requires 0 <= i < |s.projects| && s.projects[i].id != ""
    requires Keyed.UniqueKeys(s.projects, ProjectId)
    ensures Issuable(s, SelectCard(s.projects[i]))
    ensures var t := Reduce(s, SelectCard(s.projects[i]));
      Editor.ActiveProject(t) == Some(s.projects[i]) && t.currentView == EditorView
  {
  }

  /** The delete button: DELETE_PROJECT on the card's id, only once the user confirms. */
  function ConfirmDelete(p: Project, confirmed: bool): (r: Option<Action>)
    ensures r.Some? <==> confirmed
    ensures r.Some? ==> r.value.DeleteProject? && r.value.id == p.id
  {
    if confirmed then Some(DeleteProject(p.id)) else None
  }

  /** A confirmed delete leaves no project with the card's id and never leaves it active. */
  lemma ConfirmedDeleteRemovesCard(s: AppState, p: Project)
    ensures var t := Dispatch(s, ConfirmDelete(p, true));
      !HasId(t.projects, p.id) && t.activeProjectId != Some(p.id)
      && (forall q :: q in s.projects && q.id != p.id ==> q in t.projects)
    ensures Dispatch(s, ConfirmDelete(p, false)) == s
  {
  }
}
