/**
 * The manifest tree the builder produces, in the two shapes of the IIIF
 * Presentation API (2.1 and 3.0), and its rendering as the nested mapping of
 * strings, integers, lists and dicts that is serialised to manifest.json.
 */
module Presentation {
  import opened Wrappers

  /** A JSON value; an object keeps its members in insertion order, as a Python dict does. */
  datatype Json =
    | JString(str: string)
    | JInt(num: int)
    | JArray(elems: seq<Json>)
    | JObject(members: seq<(string, Json)>)

  function LookupMember(members: seq<(string, Json)>, key: string): (r: Option<Json>)
    ensures r.Some? ==> (key, r.value) in members
    ensures r.None? <==> forall i :: 0 <= i < |members| ==> members[i].0 != key
    decreases |members|
  {
    if members == [] then None
    else if members[0].0 == key then Some(members[0].1)
    else LookupMember(members[1..], key)
  }

  /** A dict lookup finds the first member with the key. */
  lemma {:induction false} LookupFindsFirst(members: seq<(string, Json)>, key: string, i: nat)
    requires i < |members| && members[i].0 == key
    requires forall j :: 0 <= j < i ==> members[j].0 != key
    ensures LookupMember(members, key) == Some(members[i].1)
    decreases i
  {
    if i > 0 {
      LookupFindsFirst(members[1..], key, i - 1);
    }
  }

  /** `j[key]` on a dict, or None when `j` is not a dict or has no such key. */
  function Lookup(j: Json, key: string): Option<Json> {
    if j.JObject? then LookupMember(j.members, key) else None
  }

  /** A manifest label. */
  datatype Label =
    | LanguageMap(language: string, values: seq<string>)  // {"ja": [title]} (3.0)
    | LanguageValue(value: string, language: string)      // {"@value": title, "@language": "ja"} (2.1)

  /** The image service of an image resource. */
  datatype ImageService =
    | ServiceV3(id: string, serviceType: string, profile: string)  // [{"id", "type", "profile"}]
    | ServiceV2(context: string, id: string, profile: string)      // {"@context", "@id", "profile"}

  datatype ImageResource = ImageResource(id: string, format: string, service: ImageService)

  /** How a canvas carries its image. */
  datatype Painting =
    // 3.0: canvas "items" holds one AnnotationPage holding one painting Annotation
    | AnnotationPage(pageId: string, annotationId: string, body: ImageResource, target: string)
    // 2.1: canvas "images" holds one oa:Annotation
    | ImageAnnotation(resource: ImageResource, on: string)

  datatype Canvas = Canvas(id: string, height: int, width: int, painting: Painting)

  /** Where the canvases sit: manifest "items" (3.0) or the "canvases" of each "sequences" entry (2.1). */
  datatype CanvasContainer =
    | Items(canvases: seq<Canvas>)
    | Sequences(sequences: seq<seq<Canvas>>)

  datatype Manifest = Manifest(context: string, id: string, manifestLabel: Label, container: CanvasContainer)

  /** The canvases of a manifest: its items, or those of its first sequence. */
  function Canvases(m: Manifest): seq<Canvas> {
    match m.container
    case Items(cs) => cs
    case Sequences(ss) => if ss == [] then [] else ss[0]
  }

  function StringsJson(vs: seq<string>): Json {
    JArray(seq(|vs|, i requires 0 <= i < |vs| => JString(vs[i])))
  }

  function LabelJson(l: Label): Json {
    match l
    case LanguageMap(language, values) => JObject([(language, StringsJson(values))])
    case LanguageValue(value, language) =>
      JObject([("@value", JString(value)), ("@language", JString(language))])
  }

  function ServiceJson(s: ImageService): Json {
    match s
    case ServiceV3(id, serviceType, profile) =>
      JArray([JObject([("id", JString(id)), ("type", JString(serviceType)), ("profile", JString(profile))])])
    case ServiceV2(context, id, profile) =>
      JObject([("@context", JString(context)), ("@id", JString(id)), ("profile", JString(profile))])
  }

  /** The value stored under the canvas's "items" (3.0) or "images" (2.1) key. */
  function PaintingJson(p: Painting): Json {
    match p
    case AnnotationPage(pageId, annotationId, body, target) =>
      var bodyJson := JObject([("id", JString(body.id)), ("type", JString("Image")),
                               ("format", JString(body.format)), ("service", ServiceJson(body.service))]);
      var annotation := JObject([("id", JString(annotationId)), ("type", JString("Annotation")),
                                 ("motivation", JString("painting")), ("body", bodyJson),
                                 ("target", JString(target))]);
      JArray([JObject([("id", JString(pageId)), ("type", JString("AnnotationPage")),
                       ("items", JArray([annotation]))])])
    case ImageAnnotation(resource, on) =>
      var resourceJson := JObject([("@id", JString(resource.id)), ("@type", JString("dctypes:Image")),
                                   ("format", JString(resource.format)),
                                   ("service", ServiceJson(resource.service))]);
      JArray([JObject([("@type", JString("oa:Annotation")), ("motivation", JString("sc:painting")),
                       ("resource", resourceJson), ("on", JString(on))])])
  }

  function CanvasJson(c: Canvas): Json {
    JObject([("id", JString(c.id)), ("type", JString("Canvas")),
             ("height", JInt(c.height)), ("width", JInt(c.width)),
             (if c.painting.AnnotationPage? then "items" else "images", PaintingJson(c.painting))])
  }

  function CanvasesJson(cs: seq<Canvas>): Json {
    JArray(seq(|cs|, i requires 0 <= i < |cs| => CanvasJson(cs[i])))
  }

  function SequenceJson(cs: seq<Canvas>): Json {
    JObject([("@type", JString("sc:Sequence")), ("canvases", CanvasesJson(cs))])
  }

  function ContainerMember(c: CanvasContainer): (string, Json) {
    match c
    case Items(cs) => ("items", CanvasesJson(cs))
    case Sequences(ss) => ("sequences", JArray(seq(|ss|, i requires 0 <= i < |ss| => SequenceJson(ss[i]))))
  }

  /** The manifest as the dict that is dumped to manifest.json. */
  function ManifestJson(m: Manifest): Json {
    JObject([("@context", JString(m.context)), ("id", JString(m.id)), ("type", JString("Manifest")),
             ("label", LabelJson(m.manifestLabel)), ContainerMember(m.container)])
  }

  /**
   * Both shapes render the manifest's identity under "id" and "type", never
   * under "@id" or "@type".
   */
  lemma RenderedManifestIdentity(m: Manifest)
    ensures Lookup(ManifestJson(m), "id") == Some(JString(m.id))
    ensures Lookup(ManifestJson(m), "type") == Some(JString("Manifest"))
    ensures Lookup(ManifestJson(m), "@id").None? && Lookup(ManifestJson(m), "@type").None?
  {
    var ms := ManifestJson(m).members;
    assert ms[4].0 == "items" || ms[4].0 == "sequences";
    assert forall i :: 0 <= i < |ms| ==> ms[i].0 != "@id" && ms[i].0 != "@type";
    LookupFindsFirst(ms, "id", 1);
    LookupFindsFirst(ms, "type", 2);
  }

  /**
   * The canvases are found under "items" for an Items holding and under
   * "sequences" for a Sequences holding, and the other key is absent.
   */
  lemma RenderedContainer(m: Manifest)
    ensures Lookup(ManifestJson(m), ContainerMember(m.container).0) == Some(ContainerMember(m.container).1)
    ensures m.container.Items? ==> Lookup(ManifestJson(m), "sequences").None?
    ensures m.container.Sequences? ==> Lookup(ManifestJson(m), "items").None?
  {
    var ms := ManifestJson(m).members;
    var key := ContainerMember(m.container).0;
    assert key[0] == 'i' || key[0] == 's';
    assert ms[0].0[0] == '@' && ms[1].0[0] == 'i' && ms[1].0[1] == 'd' && ms[2].0[0] == 't' && ms[3].0[0] == 'l';
    LookupFindsFirst(ms, key, 4);
  }

  /** A holding of one sequence renders as a one-element "sequences" array. */
  lemma RenderedSingleSequence(cs: seq<Canvas>)
    ensures ContainerMember(Sequences([cs])) == ("sequences", JArray([SequenceJson(cs)]))
  {
    var ss := [cs];
    assert seq(|ss|, i requires 0 <= i < |ss| => SequenceJson(ss[i])) == [SequenceJson(cs)];
  }

  /** A canvas, in both shapes, renders its identity under "id", never under "@id". */
  lemma RenderedCanvasIdentity(c: Canvas)
    ensures Lookup(CanvasJson(c), "id") == Some(JString(c.id))
    ensures Lookup(CanvasJson(c), "@id").None?
  {
  }

  /** The rendered canvas list has one entry per canvas, in order. */
  lemma RenderedCanvases(cs: seq<Canvas>)
    ensures CanvasesJson(cs).JArray? && |CanvasesJson(cs).elems| == |cs|
    ensures forall i :: 0 <= i < |cs| ==> Lookup(CanvasesJson(cs).elems[i], "id") == Some(JString(cs[i].id))
  {
  }
}
