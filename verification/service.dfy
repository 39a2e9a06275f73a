/**
 The generation service's own logic, around the external model calls: the
 empty-body fallback before parsing and the extraction of the first inline
 image as a data URL. The model calls and the JSON parser are an `Oracle`.
 */
module Service {
  import opened Wrappers
  import opened Types

  /** The structured text request each flow sends (the literal prompt wording is not modelled). */
  datatype TextRequest =
    | ConceptBrief(prompt: string)
    | ComponentBrief(context: string, tag: ComponentType, prompt: string)

  /** The image request each flow sends, keyed off the text result. */
  datatype ImageRequest =
    | ConceptVisual(description: string)
    | ComponentIcon(tag: ComponentType, subject: string)

  /** A text response; its `text` may be absent. */
  datatype TextResponse = TextResponse(text: Option<string>)

  /** The shape of an image response, every level optional as in the client library. */
  datatype InlineData = InlineData(data: Option<string>)
  datatype Part = Part(inlineData: Option<InlineData>)
  datatype Content = Content(parts: Option<seq<Part>>)
  datatype Candidate = Candidate(content: Option<Content>)
  datatype ImageResponse = ImageResponse(candidates: Option<seq<Candidate>>)

  /**
   The external collaborators: the two model calls (None when the call is
   rejected) and JSON parsing of each payload (None when parsing throws).
   */
  datatype Oracle = Oracle(
    text: TextRequest -> Option<TextResponse>,
    image: ImageRequest -> Option<ImageResponse>,
    parseConcept: string -> Option<Concept>,
    parseComponent: string -> Option<Component>)

  /** A parsed payload together with the image reference found for it. */
  datatype Generated<T> = Generated(payload: T, imageUrl: string)

  const EmptyObject: string := "{}"
  const ImagePrefix: string := "data:image/png;base64,"

  /** The text handed to the parser: the response text, or `{}` when it is absent or empty. */
  function BodyText(text: Option<string>): (r: string)
    ensures r != ""
    ensures text.Some? && text.value != "" ==> r == text.value
    ensures text.None? || text.value == "" ==> r == EmptyObject
  {
    if text.Some? && text.value != "" then text.value else EmptyObject
  }

  /** The body the parser sees for a text request, when the request succeeds. */
  function Body(o: Oracle, req: TextRequest): Option<string> {
    match o.text(req)
    case None => None
    case Some(resp) => Some(BodyText(resp.text))
  }

  /** The parts of the first candidate; none when any level is missing. */
  function CandidateParts(resp: ImageResponse): seq<Part> {
    match resp.candidates
    case None => []
    case Some(cs) =>
      if cs == [] then []
      else match cs[0].content
        case None => []
        case Some(c) => if c.parts.Some? then c.parts.value else []
  }

  /** The index of the first part that carries inline data. */
  function FirstInline(parts: seq<Part>): (r: Option<nat>)
    ensures r.None? <==> forall j :: 0 <= j < |parts| ==> parts[j].inlineData.None?
    ensures r.Some? ==> r.value < |parts| && parts[r.value].inlineData.Some?
    ensures r.Some? ==> forall j :: 0 <= j < r.value ==> parts[j].inlineData.None?
  {
    if parts == [] then None
    else if parts[0].inlineData.Some? then Some(0)
    else
      var rest := FirstInline(parts[1..]);
      assert forall j :: 1 <= j < |parts| ==> parts[j] == parts[1..][j - 1];
      if rest.None? then None else Some(rest.value + 1)
  }

  /** Template interpolation of the inline data: an absent value prints as `undefined`. */
  function DataText(d: InlineData): string {
    if d.data.Some? then d.data.value else "undefined"
  }

  /** The image reference of a response: the data URL of the first inline part, or empty. */
  function ImageUrl(resp: ImageResponse): (url: string)
    ensures FirstInline(CandidateParts(resp)).None? <==> url == ""
    ensures FirstInline(CandidateParts(resp)).Some? ==>
      var parts := CandidateParts(resp);
      url == ImagePrefix + DataText(parts[FirstInline(parts).value].inlineData.value)
  {
    var parts := CandidateParts(resp);
    match FirstInline(parts)
    case None => ""
    case Some(k) => ImagePrefix + DataText(parts[k].inlineData.value)
  }

  /** Parts after the first inline part do not affect the image reference. */
  lemma LaterPartsIgnored(ps: seq<Part>, qs: seq<Part>)
    requires FirstInline(ps).Some?
    ensures FirstInline(ps + qs) == FirstInline(ps)
  {
    var k := FirstInline(ps).value;
    assert (ps + qs)[k] == ps[k];
  }

  /** The scan over the first candidate's parts, stopping at the first inline part. */
  method ExtractImageUrl(resp: ImageResponse) returns (url: string)
    ensures url == ImageUrl(resp)
  {
    url := "";
    var parts := CandidateParts(resp);
    var i := 0;
    while i < |parts|
      invariant 0 <= i <= |parts|
      invariant forall j :: 0 <= j < i ==> parts[j].inlineData.None?
      invariant url == ""
    {
      if parts[i].inlineData.Some? {
        url := ImagePrefix + DataText(parts[i].inlineData.value);
        break;
      }
      i := i + 1;
    }
  }

  /**
   Concept generation: the brief, the fallback body parsed as a concept, then a
   visual of its description. Any rejected call or parse failure fails the whole flow.
   */
  function GenerateConcept(prompt: string, o: Oracle): (r: Option<Generated<Concept>>)
    ensures Body(o, ConceptBrief(prompt)).None? ==> r.None?
    ensures r.Some? ==> o.parseConcept(Body(o, ConceptBrief(prompt)).value) == Some(r.value.payload)
    ensures r.Some? ==>
      && o.image(ConceptVisual(r.value.payload.description)).Some?
      && r.value.imageUrl == ImageUrl(o.image(ConceptVisual(r.value.payload.description)).value)
    ensures r.None? ==>
      || Body(o, ConceptBrief(prompt)).None?
      || o.parseConcept(Body(o, ConceptBrief(prompt)).value).None?
      || o.image(ConceptVisual(o.parseConcept(Body(o, ConceptBrief(prompt)).value).value.description)).None?
  {
    match Body(o, ConceptBrief(prompt))
    case None => None
    case Some(body) =>
      match o.parseConcept(body)
      case None => None
      case Some(concept) =>
        match o.image(ConceptVisual(concept.description))
        case None => None
        case Some(img) => Some(Generated(concept, ImageUrl(img)))
  }

  /** The icon subject: the generated name when it is non-empty, else the caller's prompt. */
  function IconSubject(name: string, prompt: string): string {
    if name != "" then name else prompt
  }

  /**
   Component generation: the brief for the requested type, the fallback body
   parsed as a component payload, then an icon for the type and subject.
   */
  function GenerateComponent(context: string, tag: ComponentType, prompt: string, o: Oracle)
    : (r: Option<Generated<Component>>)
    ensures Body(o, ComponentBrief(context, tag, prompt)).None? ==> r.None?
    ensures r.Some? ==>
      o.parseComponent(Body(o, ComponentBrief(context, tag, prompt)).value) == Some(r.value.payload)
    ensures r.Some? ==>
      var req := ComponentIcon(tag, IconSubject(r.value.payload.name, prompt));
      o.image(req).Some? && r.value.imageUrl == ImageUrl(o.image(req).value)
    ensures r.None? ==>
      || Body(o, ComponentBrief(context, tag, prompt)).None?
      || o.parseComponent(Body(o, ComponentBrief(context, tag, prompt)).value).None?
      || o.image(ComponentIcon(tag, IconSubject(
           o.parseComponent(Body(o, ComponentBrief(context, tag, prompt)).value).value.name, prompt))).None?
  {
    match Body(o, ComponentBrief(context, tag, prompt))
    case None => None
    case Some(body) =>
      match o.parseComponent(body)
      case None => None
      case Some(payload) =>
        match o.image(ComponentIcon(tag, IconSubject(payload.name, prompt)))
        case None => None
        case Some(img) => Some(Generated(payload, ImageUrl(img)))
  }
}
