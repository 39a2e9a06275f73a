/**
 The project editor's state transitions: which project it acts on, concept
 refinement, component generation and component deletion. Each handler maps
 the current state (plus the generator's answers, a fresh id and the clock)
 to the single action it dispatches, or to nothing.
 */
module Editor {
  import opened Wrappers
  import opened Types
  import opened Store
  import opened Service
  import Keyed

  /** The project the editor shows: the first one whose id is the active id. */
  function ActiveProject(s: AppState): (r: Option<Project>)
    ensures r.Some? ==> r.value in s.projects && s.activeProjectId == Some(r.value.id)
    ensures r.None? <==> s.activeProjectId.None? || !HasId(s.projects, s.activeProjectId.value)
    ensures r.Some? ==> exists i :: 0 <= i < |s.projects| && s.projects[i] == r.value
                                    && forall j :: 0 <= j < i ==> s.projects[j].id != r.value.id
  {
    match s.activeProjectId
    case None => None
    case Some(id) => Keyed.Find(s.projects, ProjectId, id)
  }

  /** After an update carrying the active project's id, the editor shows exactly that update. */
  lemma UpdateShowsInEditor(s: AppState, q: Project)
    requires ActiveProject(s).Some? && q.id == ActiveProject(s).value.id
    ensures ActiveProject(Reduce(s, UpdateProject(q))) == Some(q)
  {
  }

  /**
   Concept refinement: with an active project and a non-empty prompt, a
   successful generation replaces the concept wholesale (with the image
   reference) and stamps the clock; anything else dispatches nothing.
   */
  function RefineConcept(s: AppState, prompt: string, now: int, o: Oracle): (r: Option<Action>)
    ensures r.Some? <==> ActiveProject(s).Some? && prompt != "" && GenerateConcept(prompt, o).Some?
    ensures r.Some? ==>
      var p := ActiveProject(s).value;
      var g := GenerateConcept(prompt, o).value;
      && r.value.UpdateProject?
      && r.value.project.id == p.id
      && r.value.project.concept.description == g.payload.description
      && r.value.project.concept.keyComponents == g.payload.keyComponents
      && r.value.project.concept.marketOpportunity == g.payload.marketOpportunity
      && r.value.project.concept.imageUrl == Some(g.imageUrl)
      && r.value.project.updatedAt == now
      && r.value.project.(concept := p.concept, updatedAt := p.updatedAt) == p
  {
    match ActiveProject(s)
    case None => None
    case Some(p) =>
      if prompt == "" then None
      else
        match GenerateConcept(prompt, o)
        case None => None
        case Some(g) =>
          Some(UpdateProject(p.(concept := g.payload.(imageUrl := Some(g.imageUrl)), updatedAt := now)))
  }

  /** The context text for component generation: the concept description, else the project name. */
  function ComponentContext(p: Project): (ctx: string)
    ensures p.concept.description != "" ==> ctx == p.concept.description
    ensures p.concept.description == "" ==> ctx == p.name
  {
    if p.concept.description != "" then p.concept.description else p.name
  }

  /** The prompt for component generation: the user's, or a template naming the type. */
  function ComponentPrompt(tag: ComponentType, prompt: string): (r: string)
    ensures prompt != "" ==> r == prompt
    ensures prompt == "" ==> r == "Create a secure " + TagName(tag) + " for the infrastructure."
  {
    if prompt != "" then prompt else "Create a secure " + TagName(tag) + " for the infrastructure."
  }

  /**
   The new component: the generated payload with the fresh id, the requested
   type, the image reference and the timestamps written over it.
   */
  function Stamp(payload: Component, tag: ComponentType, id: string, imageUrl: string, now: int)
    : (c: Component)
    ensures c.id == id && c.kind == tag && c.imageUrl == Some(imageUrl)
    ensures c.createdAt == now && c.updatedAt == now
    ensures c.name == payload.name && c.description == payload.description
    ensures c.criticality == payload.criticality && c.tags == payload.tags
    ensures c.details == payload.details
    ensures WellTagged(c) <==> DetailsTag(payload.details) == tag
  {
    payload.(id := id, kind := tag, imageUrl := Some(imageUrl), createdAt := now, updatedAt := now)
  }

  /**
   Component generation: with an active project, a successful generation
   appends exactly one stamped component and refreshes the project's clock;
   a failed one dispatches nothing.
   */
  function AddComponent(s: AppState, tag: ComponentType, prompt: string, freshId: string, now: int, o: Oracle)
    : (r: Option<Action>)
    ensures r.Some? <==>
      && ActiveProject(s).Some?
      && GenerateComponent(ComponentContext(ActiveProject(s).value), tag, ComponentPrompt(tag, prompt), o).Some?
    ensures r.Some? ==>
      var p := ActiveProject(s).value;
      var g := GenerateComponent(ComponentContext(p), tag, ComponentPrompt(tag, prompt), o).value;
      && r.value.UpdateProject?
      && r.value.project.id == p.id
      && |r.value.project.components| == |p.components| + 1
      && r.value.project.components[..|p.components|] == p.components
      && r.value.project.components[|p.components|] == Stamp(g.payload, tag, freshId, g.imageUrl, now)
      && r.value.project.updatedAt == now
      && r.value.project.(components := p.components, updatedAt := p.updatedAt) == p
  {
    match ActiveProject(s)
    case None => None
    case Some(p) =>
      match GenerateComponent(ComponentContext(p), tag, ComponentPrompt(tag, prompt), o)
      case None => None
      case Some(g) =>
        var c := Stamp(g.payload, tag, freshId, g.imageUrl, now);
        Some(UpdateProject(p.(components := p.components + [c], updatedAt := now)))
  }

  /** The appended component always carries the requested type and the fresh id. */
  lemma AddedComponentHasRequestedType(s: AppState, tag: ComponentType, prompt: string,
                                       freshId: string, now: int, o: Oracle)
    requires AddComponent(s, tag, prompt, freshId, now, o).Some?
    ensures var cs := AddComponent(s, tag, prompt, freshId, now, o).value.project.components;
            |cs| > 0 && cs[|cs| - 1].kind == tag && cs[|cs| - 1].id == freshId
  {
  }

  /** A fresh id keeps component ids unique. */
  lemma AddComponentKeepsIdsUnique(s: AppState, tag: ComponentType, prompt: string,
                                   freshId: string, now: int, o: Oracle)
    requires ActiveProject(s).Some?
    requires Keyed.UniqueKeys(ActiveProject(s).value.components, ComponentId)
    requires forall c :: c in ActiveProject(s).value.components ==> c.id != freshId
    requires AddComponent(s, tag, prompt, freshId, now, o).Some?
    ensures Keyed.UniqueKeys(AddComponent(s, tag, prompt, freshId, now, o).value.project.components, ComponentId)
  {
  }

  /**
   Component deletion: removes exactly the components with that id, keeps the
   others, and changes nothing else (the project's clock is not refreshed).
   */
  function DeleteComponent(s: AppState, componentId: string): (r: Option<Action>)
    ensures r.Some? <==> ActiveProject(s).Some?
    ensures r.Some? ==>
      var p := ActiveProject(s).value;
      && r.value.UpdateProject?
      && (forall c :: c in r.value.project.components <==> c in p.components && c.id != componentId)
      && r.value.project.updatedAt == p.updatedAt
      && r.value.project.(components := p.components) == p
  {
    match ActiveProject(s)
    case None => None
    case Some(p) =>
      Some(UpdateProject(p.(components := Keyed.Remove(p.components, ComponentId, componentId))))
  }

  /** Deletion keeps the surviving components in their original order and ids unique. */
  lemma DeleteComponentKeepsOrder(s: AppState, componentId: string, i: nat)
    requires ActiveProject(s).Some?
    requires i <= |ActiveProject(s).value.components|
    ensures var cs := ActiveProject(s).value.components;
            DeleteComponent(s, componentId).value.project.components
            == Keyed.Remove(cs[..i], ComponentId, componentId) + Keyed.Remove(cs[i..], ComponentId, componentId)
    ensures Keyed.UniqueKeys(ActiveProject(s).value.components, ComponentId) ==>
            Keyed.UniqueKeys(DeleteComponent(s, componentId).value.project.components, ComponentId)
  {
    var cs := ActiveProject(s).value.components;
    assert cs == cs[..i] + cs[i..];
    Keyed.RemoveAppend(cs[..i], cs[i..], ComponentId, componentId);
    if Keyed.UniqueKeys(cs, ComponentId) {
      Keyed.RemoveKeepsUnique(cs, ComponentId, componentId);
    }
  }

  /** The component types the editor offers a generate button for. */
  function OfferedTypes(): (ts: seq<ComponentType>)
    ensures |ts| == 6
    ensures forall i, j :: 0 <= i < j < |ts| ==> ts[i] != ts[j]
    ensures ProtocolIntegration !in ts && CryptographicSecurityModule !in ts
    ensures forall t :: t in ts ==> t in AllComponentTypes
  {
    [ProgrammableAsset, AutomatedAgent, DataFeed, NetworkNode, DigitalIdentityRole, ValueTransferMechanism]
  }
}
