/**
 An end-to-end session: create a project, refine its concept, generate one
 Data Feed component, then delete the project.
 */
module Scenario {
  import opened Wrappers
  import opened Types
  import opened Store
  import opened Service
  import Editor
  import Dashboard

  /** The store holds exactly one project, and it is the active one. */
  predicate Single(s: AppState, p: Project) {
    s.projects == [p] && s.activeProjectId == Some(p.id)
  }

  lemma CreateStep(name: string, id: string, t: int)
    requires name != "" && id != ""
    ensures var s := ReduceAll(Initial(), Dashboard.Create(name, "", id, t));
      Single(s, Dashboard.NewProject(name, "", id, t)) && s.currentView == EditorView
  {
    Dashboard.CreateOpensNewProject(Initial(), name, "", id, t);
  }

  lemma RefineStep(s: AppState, p: Project, prompt: string, t: int, o: Oracle)
    requires Single(s, p) && prompt != "" && GenerateConcept(prompt, o).Some?
    ensures var g := GenerateConcept(prompt, o).value;
      Single(Dispatch(s, Editor.RefineConcept(s, prompt, t, o)),
             p.(concept := g.payload.(imageUrl := Some(g.imageUrl)), updatedAt := t))
  {
  }

  lemma AddStep(s: AppState, p: Project, tag: ComponentType, prompt: string, id: string, t: int, o: Oracle)
    requires Single(s, p)
    requires GenerateComponent(Editor.ComponentContext(p), tag, Editor.ComponentPrompt(tag, prompt), o).Some?
    ensures var g := GenerateComponent(Editor.ComponentContext(p), tag, Editor.ComponentPrompt(tag, prompt), o).value;
      Single(Dispatch(s, Editor.AddComponent(s, tag, prompt, id, t, o)),
             p.(components := p.components + [Editor.Stamp(g.payload, tag, id, g.imageUrl, t)], updatedAt := t))
  {
  }

  /** The template prompt for a Data Feed. */
  lemma DataFeedTemplate()
    ensures Editor.ComponentPrompt(DataFeed, "") == "Create a secure Data Feed for the infrastructure."
  {
  }

  /**
   Create "Rail A", refine its concept to description "X", add a Data Feed,
   delete the project: one project, then the concept, then exactly one Data Feed
   with an id distinct from the project's, then an empty store with no active id.
   */
  lemma {:induction false} RailSession(o: Oracle, projectId: string, componentId: string, t0: int, t1: int, t2: int)
    returns (s1: AppState, s2: AppState, s3: AppState, s4: AppState)
    requires projectId != "" && componentId != projectId
    requires GenerateConcept("cross-border settlement", o).Some?
    requires GenerateConcept("cross-border settlement", o).value.payload == Concept("X", ["a", "b"], "Y", None)
    requires GenerateComponent("X", DataFeed, "Create a secure Data Feed for the infrastructure.", o).Some?
    ensures s1 == ReduceAll(Initial(), Dashboard.Create("Rail A", "", projectId, t0))
    ensures s2 == Dispatch(s1, Editor.RefineConcept(s1, "cross-border settlement", t1, o))
    ensures s3 == Dispatch(s2, Editor.AddComponent(s2, DataFeed, "", componentId, t2, o))
    ensures s4 == Reduce(s3, DeleteProject(projectId))
    ensures |s1.projects| == 1 && s1.activeProjectId == Some(projectId) && s1.currentView == EditorView
    ensures |s2.projects| == 1 && s2.projects[0].concept.description == "X"
    ensures |s3.projects| == 1 && |s3.projects[0].components| == 1
    ensures s3.projects[0].components[0].kind == DataFeed
    ensures s3.projects[0].components[0].id == componentId != s3.projects[0].id
    ensures s4.projects == [] && s4.activeProjectId == None
  {
    CreateStep("Rail A", projectId, t0);
    s1 := ReduceAll(Initial(), Dashboard.Create("Rail A", "", projectId, t0));
    var p1 := Dashboard.NewProject("Rail A", "", projectId, t0);

    RefineStep(s1, p1, "cross-border settlement", t1, o);
    s2 := Dispatch(s1, Editor.RefineConcept(s1, "cross-border settlement", t1, o));
    var g := GenerateConcept("cross-border settlement", o).value;
    var p2 := p1.(concept := g.payload.(imageUrl := Some(g.imageUrl)), updatedAt := t1);

    DataFeedTemplate();
    AddStep(s2, p2, DataFeed, "", componentId, t2, o);
    s3 := Dispatch(s2, Editor.AddComponent(s2, DataFeed, "", componentId, t2, o));
    s4 := Reduce(s3, DeleteProject(projectId));
  }
}
