/** Optional values, standing for the source's `T | null` and optional (`?:`) fields. */
module Wrappers {

  datatype Option<+T> = None | Some(value: T)
}

/**
 The project data model: the closed set of infrastructure-component variants,
 the concept, generation tasks, settings and the blueprint project record that
 owns all of its collections. Timestamps are milliseconds since the epoch.
 */
module Types {
  import opened Wrappers

  /** The eight infrastructure-component tags. */
  datatype ComponentType =
    | ProgrammableAsset
    | AutomatedAgent
    | DataFeed
    | NetworkNode
    | DigitalIdentityRole
    | ValueTransferMechanism
    | ProtocolIntegration
    | CryptographicSecurityModule

  /** The string literal each tag is written as. */
  function TagName(t: ComponentType): string {
    match t
    case ProgrammableAsset => "Programmable Asset"
    case AutomatedAgent => "Automated Agent"
    case DataFeed => "Data Feed"
    case NetworkNode => "Network Node"
    case DigitalIdentityRole => "Digital Identity Role"
    case ValueTransferMechanism => "Value Transfer Mechanism"
    case ProtocolIntegration => "Protocol Integration"
    case CryptographicSecurityModule => "Cryptographic Security Module"
  }

  /** Reads a tag literal back; any other string is not a component type. */
  function ParseTag(s: string): (r: Option<ComponentType>)
    ensures r.Some? ==> TagName(r.value) == s
    ensures forall t :: TagName(t) == s ==> r == Some(t)
  {
    if s == "Programmable Asset" then Some(ProgrammableAsset)
    else if s == "Automated Agent" then Some(AutomatedAgent)
    else if s == "Data Feed" then Some(DataFeed)
    else if s == "Network Node" then Some(NetworkNode)
    else if s == "Digital Identity Role" then Some(DigitalIdentityRole)
    else if s == "Value Transfer Mechanism" then Some(ValueTransferMechanism)
    else if s == "Protocol Integration" then Some(ProtocolIntegration)
    else if s == "Cryptographic Security Module" then Some(CryptographicSecurityModule)
    else None
  }

  /** Every tag, once, in declaration order. */
  const AllComponentTypes: seq<ComponentType> := [
    ProgrammableAsset, AutomatedAgent, DataFeed, NetworkNode,
    DigitalIdentityRole, ValueTransferMechanism, ProtocolIntegration, CryptographicSecurityModule
  ]

  /** The component type is one of exactly eight tags, each with its own literal. */
  lemma ExactlyEightTags()
    ensures |AllComponentTypes| == 8
    ensures forall t: ComponentType :: t in AllComponentTypes
    ensures forall i, j :: 0 <= i < j < |AllComponentTypes| ==>
      TagName(AllComponentTypes[i]) != TagName(AllComponentTypes[j])
  {
    forall t: ComponentType ensures t in AllComponentTypes {
      match t
      case ProgrammableAsset => assert AllComponentTypes[0] == t;
      case AutomatedAgent => assert AllComponentTypes[1] == t;
      case DataFeed => assert AllComponentTypes[2] == t;
      case NetworkNode => assert AllComponentTypes[3] == t;
      case DigitalIdentityRole => assert AllComponentTypes[4] == t;
      case ValueTransferMechanism => assert AllComponentTypes[5] == t;
      case ProtocolIntegration => assert AllComponentTypes[6] == t;
      case CryptographicSecurityModule => assert AllComponentTypes[7] == t;
    }
  }

  /** Criticality of a component. */
  datatype Criticality = Low | Medium | High | MissionCritical

  function CriticalityName(c: Criticality): string {
    match c
    case Low => "Low"
    case Medium => "Medium"
    case High => "High"
    case MissionCritical => "Mission-Critical"
  }

  function ParseCriticality(s: string): (r: Option<Criticality>)
    ensures r.Some? ==> CriticalityName(r.value) == s
    ensures forall c :: CriticalityName(c) == s ==> r == Some(c)
  {
    if s == "Low" then Some(Low)
    else if s == "Medium" then Some(Medium)
    else if s == "High" then Some(High)
    else if s == "Mission-Critical" then Some(MissionCritical)
    else None
  }

  /** Lifecycle status of a generation task. */
  datatype TaskStatus = Pending | InProgress | Completed | Failed

  function StatusName(st: TaskStatus): string {
    match st
    case Pending => "Pending"
    case InProgress => "InProgress"
    case Completed => "Completed"
    case Failed => "Failed"
  }

  function ParseStatus(s: string): (r: Option<TaskStatus>)
    ensures r.Some? ==> StatusName(r.value) == s
    ensures forall st :: StatusName(st) == s ==> r == Some(st)
  {
    if s == "Pending" then Some(Pending)
    else if s == "InProgress" then Some(InProgress)
    else if s == "Completed" then Some(Completed)
    else if s == "Failed" then Some(Failed)
    else None
  }

  /** An untyped parsed value, for the task's free-form generated content. */
  datatype Json =
    | JNull
    | JBool(b: bool)
    | JNumber(n: int)
    | JString(s: string)
    | JArray(items: seq<Json>)
    | JObject(members: seq<(string, Json)>)

  /** The product concept: description, ordered key components, market opportunity, optional image. */
  datatype Concept = Concept(
    description: string,
    keyComponents: seq<string>,
    marketOpportunity: string,
    imageUrl: Option<string>)

  /**
   The variant-specific fields of a component; each constructor belongs to
   exactly one tag (see DetailsTag).
   */
  datatype Details =
    | AssetFields(assetClass: string, issuanceMechanism: string,
                  transferRestrictions: seq<string>, settlementLayer: string)
    | AgentFields(agentRole: string, operationalScope: string,
                  decisionLogic: seq<string>, communicationProtocols: seq<string>)
    | FeedFields(dataType: string, sourceProvider: string,
                 updateFrequency: string, validationMechanisms: seq<string>)
    | NodeFields(nodeFunction: string, networkType: string,
                 hostingEnvironment: string, securityProtocols: seq<string>)
    | IdentityFields(roleCategory: string, authenticationMethod: seq<string>,
                     authorizationPolicies: seq<string>, dataPrivacyStandards: string,
                     verificationLevel: string)
    | TransferFields(propulsionMechanism: string, interoperabilityScope: string,
                     transactionCapacity: string, resilienceMeasures: seq<string>)
    | ProtocolFields(protocolStandard: string, applicationLayer: string,
                     complexityRating: string, securityConsiderations: seq<string>)
    | CryptoFields(attestationMechanism: string, functionality: seq<string>,
                   securityAssuranceLevel: string, threatMitigation: seq<string>)

  /** The tag literal each variant pins its `type` field to. */
  function DetailsTag(d: Details): ComponentType {
    match d
    case AssetFields(_, _, _, _) => ProgrammableAsset
    case AgentFields(_, _, _, _) => AutomatedAgent
    case FeedFields(_, _, _, _) => DataFeed
    case NodeFields(_, _, _, _) => NetworkNode
    case IdentityFields(_, _, _, _, _) => DigitalIdentityRole
    case TransferFields(_, _, _, _) => ValueTransferMechanism
    case ProtocolFields(_, _, _, _) => ProtocolIntegration
    case CryptoFields(_, _, _, _) => CryptographicSecurityModule
  }

  /** Two details values are built by the same variant constructor. */
  predicate SameVariant(d1: Details, d2: Details) {
    || (d1.AssetFields? && d2.AssetFields?)
    || (d1.AgentFields? && d2.AgentFields?)
    || (d1.FeedFields? && d2.FeedFields?)
    || (d1.NodeFields? && d2.NodeFields?)
    || (d1.IdentityFields? && d2.IdentityFields?)
    || (d1.TransferFields? && d2.TransferFields?)
    || (d1.ProtocolFields? && d2.ProtocolFields?)
    || (d1.CryptoFields? && d2.CryptoFields?)
  }

  /** A variant is determined by its tag, and each variant has its own tag. */
  lemma TagDeterminesVariant(d1: Details, d2: Details)
    ensures DetailsTag(d1) == DetailsTag(d2) <==> SameVariant(d1, d2)
  {
  }

  /** The variant of a tag with every field empty: there is one variant per tag. */
  function BlankDetails(t: ComponentType): (d: Details)
    ensures DetailsTag(d) == t
  {
    match t
    case ProgrammableAsset => AssetFields("", "", [], "")
    case AutomatedAgent => AgentFields("", "", [], [])
    case DataFeed => FeedFields("", "", "", [])
    case NetworkNode => NodeFields("", "", "", [])
    case DigitalIdentityRole => IdentityFields("", [], [], "", "")
    case ValueTransferMechanism => TransferFields("", "", "", [])
    case ProtocolIntegration => ProtocolFields("", "", "", [])
    case CryptographicSecurityModule => CryptoFields("", [], "", [])
  }

  /**
   An infrastructure component: the shared base fields, the `type` tag (here `kind`) and the
   variant-specific details.
   */
  datatype Component = Component(
    id: string,
    name: string,
    kind: ComponentType,
    description: string,
    criticality: Criticality,
    tags: seq<string>,
    imageUrl: Option<string>,
    createdAt: int,
    updatedAt: int,
    details: Details)

  /** The `type` field agrees with the variant that filled the details. */
  predicate WellTagged(c: Component) {
    c.kind == DetailsTag(c.details)
  }

  datatype MarketSegment = MarketSegment(
    id: string, name: string, segmentType: string, regulatoryEnvironment: string,
    targetDemographics: string, keyComplianceRequirements: seq<string>,
    associatedProtocols: seq<string>, uniqueMarketDynamics: seq<string>,
    description: string, imageUrl: Option<string>, createdAt: int, updatedAt: int)

  datatype Importance = Minor | Standard | Major | Pivotal

  datatype ComplianceDocument = ComplianceDocument(
    id: string, title: string, docType: string, content: string,
    relatedEntities: seq<string>, importance: Importance,
    imageUrl: Option<string>, createdAt: int, updatedAt: int)

  datatype PolicyEngine = PolicyEngine(
    id: string, name: string, description: string, executionEnvironment: string,
    policyRules: seq<string>, exampleScenarios: seq<string>, limitations: seq<string>,
    integrationWithPlatform: string, createdAt: int, updatedAt: int)

  datatype InteropFramework = InteropFramework(
    id: string, name: string, description: string, keyStandards: seq<string>,
    dataExchangeFormats: seq<string>, securityMechanisms: seq<string>,
    impactOnLatency: string, createdAt: int, updatedAt: int)

  datatype OperationalScenario = OperationalScenario(
    id: string, title: string, summary: string, scenarioType: string,
    initiator: string, goal: string, expectedOutcomes: seq<string>,
    potentialChallenges: seq<string>, relatedDocumentIds: seq<string>,
    createdAt: int, updatedAt: int)

  datatype ProjectSettings = ProjectSettings(
    aiModelPreference: string,
    imageModelPreference: string,
    defaultTone: string,
    defaultPromptPrefix: string,
    defaultNegativePrompt: string,
    autoSaveInterval: int)

  /** One recorded generation attempt. */
  datatype GenerationTask = GenerationTask(
    id: string,
    projectId: string,
    taskType: string,
    status: TaskStatus,
    prompt: string,
    generatedContent: Option<Json>,
    error: Option<string>,
    startTime: int,
    endTime: Option<int>,
    visualizationUrl: Option<string>)

  /** A blueprint project: the record that owns every collection. */
  datatype Project = Project(
    id: string,
    name: string,
    description: string,
    createdAt: int,
    updatedAt: int,
    concept: Concept,
    marketSegments: seq<MarketSegment>,
    components: seq<Component>,
    documents: seq<ComplianceDocument>,
    policyEngines: seq<PolicyEngine>,
    interopFrameworks: seq<InteropFramework>,
    operationalScenarios: seq<OperationalScenario>,
    projectSettings: ProjectSettings,
    generationHistory: seq<GenerationTask>)

  /** Identity keys, passed to the id-keyed sequence operations. */
  function ProjectId(p: Project): string { p.id }

  function ComponentId(c: Component): string { c.id }
}
