/**
 * create_manifest: from the item rows and media rows of one field id, build
 * the IIIF manifest of the requested Presentation API version ("2" or "3").
 *
 * The host, which the program reads from the HOST environment variable, is a
 * parameter. The image-info request is the parameter `fetch`: what the request
 * and JSON parse of a URL yield, None for any failure.
 */
module ManifestBuilder {
  import opened Wrappers
  import opened Decimal
  import opened ServiceUrl
  import opened ImageInfo
  import opened Tables
  import opened Presentation

  const DEFAULT_HOST: string := "https://example.org"
  const CONTEXT_V3: string := "http://iiif.io/api/presentation/3/context.json"
  const CONTEXT_V2: string := "http://iiif.io/api/presentation/2/context.json"
  const IMAGE_CONTEXT_V2: string := "http://iiif.io/api/image/2/context.json"
  const PROFILE_V3: string := "level2"
  const PROFILE_V2: string := "http://iiif.io/api/image/2/level2.json"
  const IMAGE_FORMAT: string := "image/jpeg"
  const LABEL_LANGUAGE: string := "ja"
  const IIIF_TYPE: string := "iiif"

  /** The two ValueErrors create_manifest raises. */
  datatype BuildError =
    | ItemNotFound(fieldId: string)
    | MediaNotFound(fieldId: string)

  /** The versions the program builds; any other crashes when the first canvas is appended. */
  predicate SupportedVersion(version: string) {
    version == "2" || version == "3"
  }

  /** `os.getenv('HOST', 'https://example.org')`: a set variable wins, even when empty. */
  function Host(env: Option<string>): (host: string)
    ensures env.None? ==> host == DEFAULT_HOST
    ensures env.Some? ==> host == env.value
  {
    match env
    case None => DEFAULT_HOST
    case Some(value) => value
  }

  // Version-driven choices; everything but "3" takes the 2.1 branch.

  function Context(version: string): string {
    if version == "3" then CONTEXT_V3 else CONTEXT_V2
  }

  function ServiceType(version: string): string {
    if version == "3" then "ImageService3" else "ImageService2"
  }

  function ManifestLabel(version: string, title: string): Label {
    if version == "3" then LanguageMap(LABEL_LANGUAGE, [title]) else LanguageValue(title, LABEL_LANGUAGE)
  }

  // Identifiers; `rowLabel + 1` is the page number of the `p{index + 1}` f-strings.

  function IiifBase(host: string, version: string, fieldId: string): string {
    host + "/iiif/" + version + "/" + fieldId
  }

  function ManifestId(host: string, version: string, fieldId: string): string {
    IiifBase(host, version, fieldId) + "/manifest.json"
  }

  function CanvasId(host: string, version: string, fieldId: string, rowLabel: RowLabel): string {
    IiifBase(host, version, fieldId) + "/canvas/p" + NatToString(rowLabel + 1)
  }

  function PageId(host: string, version: string, fieldId: string, rowLabel: RowLabel): string {
    IiifBase(host, version, fieldId) + "/page/p" + NatToString(rowLabel + 1) + "/1"
  }

  function AnnotationId(host: string, version: string, fieldId: string, rowLabel: RowLabel): string {
    IiifBase(host, version, fieldId) + "/annotation/p" + NatToString(rowLabel + 1) + "-image"
  }

  /** The canvas size of a media row: asked of the image service only for "iiif" rows. */
  function MediaDimensions(row: MediaRow, fetch: string -> Option<InfoJson>): Dimensions {
    if row.fieldType == IIIF_TYPE then GetImageInfo(fetch(row.fieldUrl)) else DEFAULT_DIMENSIONS
  }

  /** The canvas built for the media row with label `rowLabel`, URL `url` and size `dims`. */
  function MakeCanvas(host: string, version: string, fieldId: string, rowLabel: RowLabel,
                      url: string, dims: Dimensions): Canvas
  {
    var id := CanvasId(host, version, fieldId, rowLabel);
    if version == "3" then
      var body := ImageResource(url, IMAGE_FORMAT, ServiceV3(ServiceId(url), ServiceType(version), PROFILE_V3));
      Canvas(id, dims.height, dims.width,
             AnnotationPage(PageId(host, version, fieldId, rowLabel),
                            AnnotationId(host, version, fieldId, rowLabel), body, id))
    else
      var resource := ImageResource(url, IMAGE_FORMAT, ServiceV2(IMAGE_CONTEXT_V2, ServiceId(url), PROFILE_V2));
      Canvas(id, dims.height, dims.width, ImageAnnotation(resource, id))
  }

  function CanvasFor(host: string, version: string, fieldId: string, media: seq<MediaRow>,
                     rowLabel: RowLabel, fetch: string -> Option<InfoJson>): Canvas
    requires rowLabel < |media|
  {
    MakeCanvas(host, version, fieldId, rowLabel, media[rowLabel].fieldUrl,
               MediaDimensions(media[rowLabel], fetch))
  }

  /** The canvases of the first `count` labels' rows, one per label, in the order of the labels. */
  function CanvasesFor(host: string, version: string, fieldId: string, media: seq<MediaRow>,
                       labels: seq<RowLabel>, count: nat, fetch: string -> Option<InfoJson>): (canvases: seq<Canvas>)
    requires LabelsWithin(media, labels) && count <= |labels|
    ensures |canvases| == count
  {
    if count == 0 then []
    else
      CanvasesFor(host, version, fieldId, media, labels, count - 1, fetch)
      + [CanvasFor(host, version, fieldId, media, labels[count - 1], fetch)]
  }

  /** Canvas k is the canvas of label k's row. */
  lemma {:induction false} CanvasesForAt(host: string, version: string, fieldId: string, media: seq<MediaRow>,
                                         labels: seq<RowLabel>, count: nat, fetch: string -> Option<InfoJson>)
    requires LabelsWithin(media, labels) && count <= |labels|
    ensures forall k :: 0 <= k < count ==>
              CanvasesFor(host, version, fieldId, media, labels, count, fetch)[k]
              == CanvasFor(host, version, fieldId, media, labels[k], fetch)
  {
    if count > 0 {
      var n := count - 1;
      CanvasesForAt(host, version, fieldId, media, labels, n, fetch);
      var prev := CanvasesFor(host, version, fieldId, media, labels, n, fetch);
      var last := CanvasFor(host, version, fieldId, media, labels[n], fetch);
      var all := CanvasesFor(host, version, fieldId, media, labels, count, fetch);
      assert all == prev + [last];
      forall k | 0 <= k < count
        ensures all[k] == CanvasFor(host, version, fieldId, media, labels[k], fetch)
      {
        if k < n {
          assert all[k] == prev[k];
        }
      }
    }
  }

  /** Where the canvases go: "items" (version "3"), or the canvases of the one sc:Sequence. */
  function Holding(inItems: bool, canvases: seq<Canvas>): CanvasContainer {
    if inItems then Items(canvases) else Sequences([canvases])
  }

  /** A manifest holding `canvases`. */
  function Assemble(host: string, version: string, fieldId: string, title: string,
                    canvases: seq<Canvas>): Manifest
  {
    Manifest(Context(version), ManifestId(host, version, fieldId), ManifestLabel(version, title),
             Holding(version == "3", canvases))
  }

  /**
   * The manifest create_manifest returns, or the error it raises: the
   * declarative reference the loop in CreateManifest is proved against.
   */
  function Build(host: string, fieldId: string, items: seq<ItemRow>, media: seq<MediaRow>,
                 version: string, fetch: string -> Option<InfoJson>): Result<Manifest, BuildError>
    requires SupportedVersion(version)
  {
    match FirstItem(items, fieldId)
    case None => Err(ItemNotFound(fieldId))
    case Some(i) =>
      var labels := MatchingLabels(media, fieldId);
      if labels == [] then Err(MediaNotFound(fieldId))
      else Ok(Assemble(host, version, fieldId, items[i].title,
                       CanvasesFor(host, version, fieldId, media, labels, |labels|, fetch)))
  }

  /** The URL handed to the image-info request for one media row: only an "iiif" row's. */
  function RowRequests(row: MediaRow): seq<string> {
    if row.fieldType == IIIF_TYPE then [row.fieldUrl] else []
  }

  /** The URLs handed to the image-info request for the first `count` labels' rows, in order. */
  function FetchedUrls(media: seq<MediaRow>, labels: seq<RowLabel>, count: nat): (urls: seq<string>)
    requires LabelsWithin(media, labels) && count <= |labels|
    ensures |urls| <= count
  {
    if count == 0 then []
    else
      FetchedUrls(media, labels, count - 1) + RowRequests(media[labels[count - 1]])
  }

  /**
   * Every URL requested is the URL of an "iiif" row, and every "iiif" row's
   * URL is requested; without such a row nothing is requested.
   */
  lemma {:induction false} FetchedUrlsFromIiifRows(media: seq<MediaRow>, labels: seq<RowLabel>, count: nat)
    requires LabelsWithin(media, labels) && count <= |labels|
    ensures forall u :: u in FetchedUrls(media, labels, count) ==>
              exists k :: 0 <= k < count && media[labels[k]].fieldType == IIIF_TYPE && media[labels[k]].fieldUrl == u
    ensures (forall k :: 0 <= k < count ==> media[labels[k]].fieldType != IIIF_TYPE)
            ==> FetchedUrls(media, labels, count) == []
    ensures forall k :: 0 <= k < count && media[labels[k]].fieldType == IIIF_TYPE ==>
              media[labels[k]].fieldUrl in FetchedUrls(media, labels, count)
  {
    if count > 0 {
      FetchedUrlsFromIiifRows(media, labels, count - 1);
    }
  }

  /**
   * The labels, among the first `count`, of the rows typed "iiif", in the
   * order of the labels: exactly those labels.
   */
  function IiifRows(media: seq<MediaRow>, labels: seq<RowLabel>, count: nat): (rows: seq<RowLabel>)
    requires LabelsWithin(media, labels) && count <= |labels|
    ensures forall j :: 0 <= j < |rows| ==>
              rows[j] < |media| && media[rows[j]].fieldType == IIIF_TYPE && rows[j] in labels[..count]
    ensures forall k :: 0 <= k < count && media[labels[k]].fieldType == IIIF_TYPE ==> labels[k] in rows
  {
    if count == 0 then []
    else
      var n := count - 1;
      assert labels[..count] == labels[..n] + [labels[n]];
      IiifRows(media, labels, n) + (if media[labels[n]].fieldType == IIIF_TYPE then [labels[n]] else [])
  }

  /** When the labels ascend, so do the labels of the "iiif" rows among them. */
  lemma {:induction false} IiifRowsAscend(media: seq<MediaRow>, labels: seq<RowLabel>, count: nat)
    requires LabelsWithin(media, labels) && count <= |labels|
    requires forall k, l :: 0 <= k < l < |labels| ==> labels[k] < labels[l]
    ensures forall j, j' :: 0 <= j < j' < |IiifRows(media, labels, count)| ==>
              IiifRows(media, labels, count)[j] < IiifRows(media, labels, count)[j']
  {
    if count > 0 {
      var n := count - 1;
      IiifRowsAscend(media, labels, n);
      var prev := IiifRows(media, labels, n);
      forall j | 0 <= j < |prev|
        ensures prev[j] < labels[n]
      {
        var k :| 0 <= k < n && labels[..n][k] == prev[j];
      }
      var rows := IiifRows(media, labels, count);
      if media[labels[n]].fieldType == IIIF_TYPE {
        assert rows == prev + [labels[n]];
        forall j, j' | 0 <= j < j' < |rows|
          ensures rows[j] < rows[j']
        {
          assert rows[j] == prev[j];
          if j' < |prev| {
            assert rows[j'] == prev[j'];
          }
        }
      } else {
        assert rows == prev;
      }
    }
  }

  /**
   * The requests are the URLs of the "iiif" rows among the first `count`
   * labels, one per such row, in the order of the labels.
   */
  lemma {:induction false} FetchedUrlsInOrder(media: seq<MediaRow>, labels: seq<RowLabel>, count: nat)
    requires LabelsWithin(media, labels) && count <= |labels|
    ensures |FetchedUrls(media, labels, count)| == |IiifRows(media, labels, count)|
    ensures forall j :: 0 <= j < |IiifRows(media, labels, count)| ==>
              FetchedUrls(media, labels, count)[j] == media[IiifRows(media, labels, count)[j]].fieldUrl
  {
    if count > 0 {
      FetchedUrlsInOrder(media, labels, count - 1);
    }
  }

  /** The image-info requests one create_manifest call makes, in order. */
  function Requests(fieldId: string, items: seq<ItemRow>, media: seq<MediaRow>): seq<string> {
    if FirstItem(items, fieldId).None? then []
    else
      var labels := MatchingLabels(media, fieldId);
      FetchedUrls(media, labels, |labels|)
  }

  /** Appending a canvas: to "items", or to the canvases of "sequences"[0]. */
  function AppendCanvas(m: Manifest, c: Canvas): Manifest
    requires m.container.Items? || m.container.sequences != []
  {
    match m.container
    case Items(cs) => m.(container := Items(cs + [c]))
    case Sequences(ss) => m.(container := Sequences(ss[0 := ss[0] + [c]]))
  }

  lemma AppendToHolding(inItems: bool, canvases: seq<Canvas>, c: Canvas, m: Manifest)
    requires m.container == Holding(inItems, canvases)
    ensures m.container.Items? || m.container.sequences != []
    ensures AppendCanvas(m, c) == m.(container := Holding(inItems, canvases + [c]))
  {
    if !inItems {
      assert [canvases][0 := canvases + [c]] == [canvases + [c]];
    }
  }

  /**
   * create_manifest. Returns the manifest or the error, and the URLs it asked
   * the image-info request for, in order.
   */
  method CreateManifest(host: string, fieldId: string, items: seq<ItemRow>, media: seq<MediaRow>,
                        version: string, fetch: string -> Option<InfoJson>)
    returns (result: Result<Manifest, BuildError>, calls: seq<string>)
    requires SupportedVersion(version)
    ensures result == Build(host, fieldId, items, media, version, fetch)
    ensures calls == Requests(fieldId, items, media)
  {
    calls := [];
    var first := FirstItem(items, fieldId);
    if first.None? {
      return Err(ItemNotFound(fieldId)), calls;
    }
    var title := items[first.value].title;

    var labels := MatchingLabels(media, fieldId);
    if labels == [] {
      return Err(MediaNotFound(fieldId)), calls;
    }

    var manifest := Manifest(Context(version), ManifestId(host, version, fieldId),
                             ManifestLabel(version, title),
                             if version == "3" then Items([]) else Sequences([]));
    if version == "2" {
      manifest := manifest.(container := Sequences([[]]));
    }
    manifest, calls := AppendCanvases(manifest, version == "3", host, version, fieldId, media, labels, fetch);
    result := Ok(manifest);
  }

  /**
   * The canvas loop of create_manifest: appends one canvas per label, in
   * order, to the empty holding of `header`, and returns the URLs it asked
   * the image-info request for.
   */
  method AppendCanvases(header: Manifest, inItems: bool, host: string, version: string, fieldId: string,
                        media: seq<MediaRow>, labels: seq<RowLabel>, fetch: string -> Option<InfoJson>)
    returns (manifest: Manifest, calls: seq<string>)
    requires LabelsWithin(media, labels)
    requires header.container == Holding(inItems, [])
    ensures manifest == header.(container := Holding(inItems, CanvasesFor(host, version, fieldId, media, labels, |labels|, fetch)))
    ensures calls == FetchedUrls(media, labels, |labels|)
  {
    manifest := header;
    calls := [];
    for k := 0 to |labels|
      invariant manifest == header.(container := Holding(inItems, CanvasesFor(host, version, fieldId, media, labels, k, fetch)))
      invariant calls == FetchedUrls(media, labels, k)
    {
      var canvas, requested := RowCanvas(host, version, fieldId, media, labels[k], fetch);
      AppendNextCanvas(header, inItems, host, version, fieldId, media, labels, fetch, k, manifest, canvas, calls, requested);
      calls := calls + requested;
      manifest := AppendCanvas(manifest, canvas);
    }
  }

  /**
   * One step of the canvas loop: appending the next label's canvas extends
   * the held prefix by it, and its request extends the requests made so far.
   */
  lemma AppendNextCanvas(header: Manifest, inItems: bool, host: string, version: string, fieldId: string,
                         media: seq<MediaRow>, labels: seq<RowLabel>, fetch: string -> Option<InfoJson>,
                         k: nat, manifest: Manifest, canvas: Canvas, calls: seq<string>, requested: seq<string>)
    requires LabelsWithin(media, labels) && k < |labels|
    requires manifest == header.(container := Holding(inItems, CanvasesFor(host, version, fieldId, media, labels, k, fetch)))
    requires canvas == CanvasFor(host, version, fieldId, media, labels[k], fetch)
    requires calls == FetchedUrls(media, labels, k) && requested == RowRequests(media[labels[k]])
    ensures manifest.container.Items? || manifest.container.sequences != []
    ensures AppendCanvas(manifest, canvas)
            == header.(container := Holding(inItems, CanvasesFor(host, version, fieldId, media, labels, k + 1, fetch)))
    ensures calls + requested == FetchedUrls(media, labels, k + 1)
  {
    var built := CanvasesFor(host, version, fieldId, media, labels, k, fetch);
    assert CanvasesFor(host, version, fieldId, media, labels, k + 1, fetch) == built + [canvas];
    AppendToHolding(inItems, built, canvas, manifest);
  }

  /**
   * The body of the canvas loop for the media row with label `rowLabel`: its
   * size (looked up only for an "iiif" row) and its canvas.
   */
  method RowCanvas(host: string, version: string, fieldId: string, media: seq<MediaRow>, rowLabel: RowLabel,
                   fetch: string -> Option<InfoJson>)
    returns (canvas: Canvas, requested: seq<string>)
    requires rowLabel < |media|
    ensures canvas == CanvasFor(host, version, fieldId, media, rowLabel, fetch)
    ensures requested == RowRequests(media[rowLabel])
  {
    var row := media[rowLabel];
    var dims := DEFAULT_DIMENSIONS;
    requested := [];
    if row.fieldType == IIIF_TYPE {
      dims := GetImageInfo(fetch(row.fieldUrl));
      requested := [row.fieldUrl];
    }
    canvas := MakeCanvas(host, version, fieldId, rowLabel, row.fieldUrl, dims);
  }
}
