/**
 * What create_manifest promises, stated over Build, the reference the
 * CreateManifest loop is proved against.
 */
module ManifestProperties {
  import opened Wrappers
  import opened Decimal
  import opened ServiceUrl
  import opened ImageInfo
  import opened Tables
  import opened Presentation
  import opened ManifestBuilder

  // ---------------------------------------------------------------- errors

  /**
   * The build fails with the item error exactly when no item row has the
   * field id, whatever the media rows are, and then makes no request.
   */
  lemma MissingItemFailsFirst(host: string, fieldId: string, items: seq<ItemRow>, media: seq<MediaRow>,
                              version: string, fetch: string -> Option<InfoJson>)
    requires SupportedVersion(version)
    ensures Build(host, fieldId, items, media, version, fetch) == Err(ItemNotFound(fieldId))
            <==> forall i :: 0 <= i < |items| ==> items[i].fieldId != fieldId
    ensures (forall i :: 0 <= i < |items| ==> items[i].fieldId != fieldId)
            ==> Requests(fieldId, items, media) == []
  {
  }

  /**
   * The build fails with the (distinct) media error exactly when an item row
   * has the field id and no media row does, and then makes no request.
   */
  lemma MissingMediaFails(host: string, fieldId: string, items: seq<ItemRow>, media: seq<MediaRow>,
                          version: string, fetch: string -> Option<InfoJson>)
    requires SupportedVersion(version)
    ensures Build(host, fieldId, items, media, version, fetch) == Err(MediaNotFound(fieldId))
            <==> (exists i :: 0 <= i < |items| && items[i].fieldId == fieldId)
                 && (forall j :: 0 <= j < |media| ==> media[j].fieldId != fieldId)
    ensures Build(host, fieldId, items, media, version, fetch) == Err(MediaNotFound(fieldId))
            ==> Requests(fieldId, items, media) == []
  {
    NoLabelsIff(media, fieldId);
  }

  /** The build succeeds exactly when both an item row and a media row have the field id. */
  lemma BuildSucceedsIff(host: string, fieldId: string, items: seq<ItemRow>, media: seq<MediaRow>,
                         version: string, fetch: string -> Option<InfoJson>)
    requires SupportedVersion(version)
    ensures Build(host, fieldId, items, media, version, fetch).Ok?
            <==> (exists i :: 0 <= i < |items| && items[i].fieldId == fieldId)
                 && (exists j :: 0 <= j < |media| && media[j].fieldId == fieldId)
  {
    NoLabelsIff(media, fieldId);
  }

  // ------------------------------------------------------ manifest shape

  /**
   * Canvas k is the canvas of the k-th matching media row, so there is one
   * canvas per matching row, in table order.
   */
  lemma OneCanvasPerMatchingRow(host: string, fieldId: string, items: seq<ItemRow>, media: seq<MediaRow>,
                                version: string, fetch: string -> Option<InfoJson>, m: Manifest)
    requires SupportedVersion(version)
    requires Build(host, fieldId, items, media, version, fetch) == Ok(m)
    ensures |Canvases(m)| == |MatchingLabels(media, fieldId)|
    ensures forall k :: 0 <= k < |Canvases(m)| ==>
              Canvases(m)[k] == CanvasFor(host, version, fieldId, media, MatchingLabels(media, fieldId)[k], fetch)
  {
    var labels := MatchingLabels(media, fieldId);
    CanvasesForAt(host, version, fieldId, media, labels, |labels|, fetch);
  }

  /**
   * The version selects the shape: "3" puts the canvases directly in
   * "items" with a language-map label; "2" puts them all in the canvases of
   * exactly one sequence, with a @value/@language label. The manifest id and
   * the label's title come from the field id and the first matching item row.
   */
  lemma ShapeFollowsVersion(host: string, fieldId: string, items: seq<ItemRow>, media: seq<MediaRow>,
                            version: string, fetch: string -> Option<InfoJson>, m: Manifest)
    requires SupportedVersion(version)
    requires Build(host, fieldId, items, media, version, fetch) == Ok(m)
    ensures FirstItem(items, fieldId).Some?
    ensures var title := items[FirstItem(items, fieldId).value].title;
            && (version == "3" ==>
                  && m.context == "http://iiif.io/api/presentation/3/context.json"
                  && m.container == Items(Canvases(m))
                  && m.manifestLabel == LanguageMap("ja", [title]))
            && (version == "2" ==>
                  && m.context == "http://iiif.io/api/presentation/2/context.json"
                  && m.container.Sequences? && |m.container.sequences| == 1
                  && m.container.sequences[0] == Canvases(m)
                  && m.manifestLabel == LanguageValue(title, "ja"))
    ensures m.id == host + "/iiif/" + version + "/" + fieldId + "/manifest.json"
  {
  }

  // ------------------------------------------------------------ canvases

  /**
   * Canvas k is numbered by the table label of its media row plus one, and
   * its annotation points back at it: "target" in 3.0, "on" in 2.1.
   */
  lemma CanvasIdentifiers(host: string, fieldId: string, items: seq<ItemRow>, media: seq<MediaRow>,
                          version: string, fetch: string -> Option<InfoJson>, m: Manifest)
    requires SupportedVersion(version)
    requires Build(host, fieldId, items, media, version, fetch) == Ok(m)
    ensures |Canvases(m)| == |MatchingLabels(media, fieldId)|
    ensures forall k :: 0 <= k < |Canvases(m)| ==>
              var n := NatToString(MatchingLabels(media, fieldId)[k] + 1);
              var c := Canvases(m)[k];
              && c.id == host + "/iiif/" + version + "/" + fieldId + "/canvas/p" + n
              && (version == "3" ==>
                    && c.painting.AnnotationPage?
                    && c.painting.target == c.id
                    && c.painting.pageId == host + "/iiif/" + version + "/" + fieldId + "/page/p" + n + "/1"
                    && c.painting.annotationId == host + "/iiif/" + version + "/" + fieldId + "/annotation/p" + n + "-image")
              && (version == "2" ==> c.painting.ImageAnnotation? && c.painting.on == c.id)
  {
    OneCanvasPerMatchingRow(host, fieldId, items, media, version, fetch, m);
  }

  /**
   * A canvas's size is 1000 x 1000 for a media row not typed "iiif", and
   * what the image-info lookup of the row's URL gives for an "iiif" row.
   */
  lemma CanvasDimensions(host: string, fieldId: string, items: seq<ItemRow>, media: seq<MediaRow>,
                         version: string, fetch: string -> Option<InfoJson>, m: Manifest)
    requires SupportedVersion(version)
    requires Build(host, fieldId, items, media, version, fetch) == Ok(m)
    ensures |Canvases(m)| == |MatchingLabels(media, fieldId)|
    ensures forall k :: 0 <= k < |Canvases(m)| ==>
              var row := media[MatchingLabels(media, fieldId)[k]];
              var c := Canvases(m)[k];
              && (row.fieldType != "iiif" ==> c.width == 1000 && c.height == 1000)
              && (row.fieldType == "iiif" ==> Dimensions(c.width, c.height) == GetImageInfo(fetch(row.fieldUrl)))
  {
    OneCanvasPerMatchingRow(host, fieldId, items, media, version, fetch, m);
  }

  /** The image resource of a canvas, in both shapes. */
  function ResourceOf(c: Canvas): ImageResource {
    match c.painting
    case AnnotationPage(_, _, body, _) => body
    case ImageAnnotation(resource, _) => resource
  }

  /**
   * The image resource is the media row's URL, always as image/jpeg; its
   * service id is the URL's part before the first "/info.json". The service
   * is an ImageService3 with profile "level2" in 3.0, and carries the Image
   * API 2 context and level2.json profile in 2.1.
   */
  lemma CanvasImageResource(host: string, fieldId: string, items: seq<ItemRow>, media: seq<MediaRow>,
                            version: string, fetch: string -> Option<InfoJson>, m: Manifest)
    requires SupportedVersion(version)
    requires Build(host, fieldId, items, media, version, fetch) == Ok(m)
    ensures |Canvases(m)| == |MatchingLabels(media, fieldId)|
    ensures forall k :: 0 <= k < |Canvases(m)| ==>
              var url := media[MatchingLabels(media, fieldId)[k]].fieldUrl;
              var r := ResourceOf(Canvases(m)[k]);
              && r.id == url
              && r.format == "image/jpeg"
              && r.service.id == SplitFirst(url, "/info.json")
              && (version == "3" ==> r.service == ServiceV3(r.service.id, "ImageService3", "level2"))
              && (version == "2" ==> r.service == ServiceV2("http://iiif.io/api/image/2/context.json", r.service.id,
                                                            "http://iiif.io/api/image/2/level2.json"))
  {
    OneCanvasPerMatchingRow(host, fieldId, items, media, version, fetch, m);
  }

  /** The canvas id determines the row label it was built from. */
  lemma CanvasIdInjective(host: string, version: string, fieldId: string, a: RowLabel, b: RowLabel)
    requires CanvasId(host, version, fieldId, a) == CanvasId(host, version, fieldId, b)
    ensures a == b
  {
    var p := IiifBase(host, version, fieldId) + "/canvas/p";
    assert (p + NatToString(a + 1))[|p|..] == NatToString(a + 1);
    assert (p + NatToString(b + 1))[|p|..] == NatToString(b + 1);
    NatToStringInjective(a + 1, b + 1);
  }

  /** No two canvases of a manifest share an id. */
  lemma CanvasIdsDistinct(host: string, fieldId: string, items: seq<ItemRow>, media: seq<MediaRow>,
                          version: string, fetch: string -> Option<InfoJson>, m: Manifest)
    requires SupportedVersion(version)
    requires Build(host, fieldId, items, media, version, fetch) == Ok(m)
    ensures forall j, k :: 0 <= j < k < |Canvases(m)| ==> Canvases(m)[j].id != Canvases(m)[k].id
  {
    OneCanvasPerMatchingRow(host, fieldId, items, media, version, fetch, m);
    var labels := MatchingLabels(media, fieldId);
    forall j, k | 0 <= j < k < |Canvases(m)|
      ensures Canvases(m)[j].id != Canvases(m)[k].id
    {
      if Canvases(m)[j].id == Canvases(m)[k].id {
        CanvasIdInjective(host, version, fieldId, labels[j], labels[k]);
      }
    }
  }

  /**
   * When every media row has the field id, the canvases are numbered
   * p1 .. pN, N being the number of media rows.
   */
  lemma CanvasNumbersWhenAllRowsMatch(host: string, fieldId: string, items: seq<ItemRow>, media: seq<MediaRow>,
                                      version: string, fetch: string -> Option<InfoJson>, m: Manifest)
    requires SupportedVersion(version)
    requires Build(host, fieldId, items, media, version, fetch) == Ok(m)
    requires forall i :: 0 <= i < |media| ==> media[i].fieldId == fieldId
    ensures |Canvases(m)| == |media|
    ensures forall k :: 0 <= k < |media| ==>
              Canvases(m)[k].id == host + "/iiif/" + version + "/" + fieldId + "/canvas/p" + NatToString(k + 1)
  {
    AllRowsMatch(media, fieldId);
    OneCanvasPerMatchingRow(host, fieldId, items, media, version, fetch, m);
  }

  // ------------------------------------------------------------ requests

  /**
   * Only media rows typed "iiif" are looked up, at most one request per
   * canvas; without such a row no request is made.
   */
  lemma RequestsOnlyForIiifRows(host: string, fieldId: string, items: seq<ItemRow>, media: seq<MediaRow>,
                                version: string, fetch: string -> Option<InfoJson>, m: Manifest)
    requires SupportedVersion(version)
    requires Build(host, fieldId, items, media, version, fetch) == Ok(m)
    ensures |Requests(fieldId, items, media)| <= |Canvases(m)|
    ensures forall u :: u in Requests(fieldId, items, media) ==>
              exists i :: 0 <= i < |media| && media[i].fieldId == fieldId
                          && media[i].fieldType == "iiif" && media[i].fieldUrl == u
    ensures (forall i :: 0 <= i < |media| && media[i].fieldId == fieldId ==> media[i].fieldType != "iiif")
            ==> Requests(fieldId, items, media) == []
    ensures forall i :: 0 <= i < |media| && media[i].fieldId == fieldId && media[i].fieldType == "iiif"
              ==> media[i].fieldUrl in Requests(fieldId, items, media)
  {
    OneCanvasPerMatchingRow(host, fieldId, items, media, version, fetch, m);
    var labels := MatchingLabels(media, fieldId);
    FetchedUrlsFromIiifRows(media, labels, |labels|);
    forall i | 0 <= i < |media| && media[i].fieldId == fieldId && media[i].fieldType == "iiif"
      ensures media[i].fieldUrl in Requests(fieldId, items, media)
    {
      var k :| 0 <= k < |labels| && labels[k] == i;
    }
    forall u | u in Requests(fieldId, items, media)
      ensures exists i :: 0 <= i < |media| && media[i].fieldId == fieldId
                          && media[i].fieldType == "iiif" && media[i].fieldUrl == u
    {
      var k :| 0 <= k < |labels| && media[labels[k]].fieldType == IIIF_TYPE && media[labels[k]].fieldUrl == u;
      assert media[labels[k]].fieldId == fieldId;
    }
  }

  /**
   * Once the item row exists, the requests are exactly one per media row with
   * the field id typed "iiif", for that row's URL, in table order: request j
   * is for row `rows[j]`, and the rows ascend.
   */
  lemma RequestsInTableOrder(fieldId: string, items: seq<ItemRow>, media: seq<MediaRow>)
    requires FirstItem(items, fieldId).Some?
    ensures var rows := IiifRows(media, MatchingLabels(media, fieldId), |MatchingLabels(media, fieldId)|);
            && |Requests(fieldId, items, media)| == |rows|
            && (forall j :: 0 <= j < |rows| ==>
                  && rows[j] < |media|
                  && media[rows[j]].fieldId == fieldId && media[rows[j]].fieldType == "iiif"
                  && Requests(fieldId, items, media)[j] == media[rows[j]].fieldUrl)
            && (forall i :: 0 <= i < |media| && media[i].fieldId == fieldId && media[i].fieldType == "iiif"
                  ==> i in rows)
            && (forall j, j' :: 0 <= j < j' < |rows| ==> rows[j] < rows[j'])
  {
    var labels := MatchingLabels(media, fieldId);
    var rows := IiifRows(media, labels, |labels|);
    FetchedUrlsInOrder(media, labels, |labels|);
    IiifRowsAscend(media, labels, |labels|);
    assert labels[..|labels|] == labels;
    forall i | 0 <= i < |media| && media[i].fieldId == fieldId && media[i].fieldType == "iiif"
      ensures i in rows
    {
      var k :| 0 <= k < |labels| && labels[k] == i;
    }
  }

  // ----------------------------------------------------------- rendering

  /**
   * The rendered 2.1 manifest keeps "id" and "type": "Manifest" at the top
   * and holds one sc:Sequence whose "canvases" render the canvases in order.
   */
  lemma RenderedVersion2(host: string, fieldId: string, items: seq<ItemRow>, media: seq<MediaRow>,
                         fetch: string -> Option<InfoJson>, m: Manifest)
    requires Build(host, fieldId, items, media, "2", fetch) == Ok(m)
    ensures Lookup(ManifestJson(m), "id") == Some(JString(m.id))
    ensures Lookup(ManifestJson(m), "type") == Some(JString("Manifest"))
    ensures Lookup(ManifestJson(m), "@id").None? && Lookup(ManifestJson(m), "items").None?
    ensures Lookup(ManifestJson(m), "sequences")
            == Some(JArray([JObject([("@type", JString("sc:Sequence")), ("canvases", CanvasesJson(Canvases(m)))])]))
  {
    ShapeFollowsVersion(host, fieldId, items, media, "2", fetch, m);
    RenderedManifestIdentity(m);
    RenderedContainer(m);
    assert m.container == Sequences([Canvases(m)]);
    RenderedSingleSequence(Canvases(m));
  }

  /** The rendered 3.0 manifest holds its canvases, rendered in order, directly under "items". */
  lemma RenderedVersion3(host: string, fieldId: string, items: seq<ItemRow>, media: seq<MediaRow>,
                         fetch: string -> Option<InfoJson>, m: Manifest)
    requires Build(host, fieldId, items, media, "3", fetch) == Ok(m)
    ensures Lookup(ManifestJson(m), "items") == Some(CanvasesJson(Canvases(m)))
    ensures Lookup(ManifestJson(m), "sequences").None?
  {
    ShapeFollowsVersion(host, fieldId, items, media, "3", fetch, m);
    RenderedContainer(m);
  }

  // ------------------------------------------------------------ examples

  lemma SampleManifestId()
    ensures ManifestId(DEFAULT_HOST, "3", "X") == "https://example.org/iiif/3/X/manifest.json"
  {
  }

  lemma SampleFirstCanvasId()
    ensures CanvasId(DEFAULT_HOST, "3", "X", 0) == "https://example.org/iiif/3/X/canvas/p1"
  {
  }

  lemma SampleSecondRowCanvasId()
    ensures CanvasId(DEFAULT_HOST, "2", "X", 1) == "https://example.org/iiif/2/X/canvas/p2"
  {
  }

  /**
   * Title "Sample", one media row typed "image": with the default host and
   * version "3", the manifest and its one canvas get the ids below, the
   * canvas is 1000 wide and no request is made.
   */
  lemma SampleItemVersion3(url: string, fetch: string -> Option<InfoJson>)
    ensures var items := [ItemRow("X", "Sample")];
            var media := [MediaRow("X", "image", url)];
            var r := Build(Host(None), "X", items, media, "3", fetch);
            && r.Ok?
            && r.value.id == "https://example.org/iiif/3/X/manifest.json"
            && |Canvases(r.value)| == 1
            && Canvases(r.value)[0].id == "https://example.org/iiif/3/X/canvas/p1"
            && Canvases(r.value)[0].width == 1000
            && Requests("X", items, media) == []
  {
    var items := [ItemRow("X", "Sample")];
    var media := [MediaRow("X", "image", url)];
    var r := Build(DEFAULT_HOST, "X", items, media, "3", fetch);
    assert r.Ok? by {
      assert items[0].fieldId == "X" && media[0].fieldId == "X";
      BuildSucceedsIff(DEFAULT_HOST, "X", items, media, "3", fetch);
    }
    var m := r.value;
    assert MatchingLabels(media, "X") == [0] by {
      AllRowsMatch(media, "X");
    }
    OneCanvasPerMatchingRow(DEFAULT_HOST, "X", items, media, "3", fetch, m);
    assert m.id == ManifestId(DEFAULT_HOST, "3", "X");
    assert Canvases(m)[0].id == CanvasId(DEFAULT_HOST, "3", "X", 0) && Canvases(m)[0].width == 1000;
    SampleManifestId();
    SampleFirstCanvasId();
  }

  /** With a non-matching row first, the one matching row carries label 1. */
  lemma SecondRowLabel(urlA: string, urlB: string)
    ensures MatchingLabels([MediaRow("Y", "image", urlA), MediaRow("X", "image", urlB)], "X") == [1]
  {
    var media := [MediaRow("Y", "image", urlA), MediaRow("X", "image", urlB)];
    assert media[..1] == [MediaRow("Y", "image", urlA)];
    assert MatchingLabels(media[..1], "X") == [];
  }

  /**
   * A media row of another field id before the matching one still takes a
   * number: the only canvas is p2, not p1.
   */
  lemma CanvasNumberCountsOtherRows(urlA: string, urlB: string, fetch: string -> Option<InfoJson>)
    ensures var items := [ItemRow("X", "Sample")];
            var media := [MediaRow("Y", "image", urlA), MediaRow("X", "image", urlB)];
            var r := Build(DEFAULT_HOST, "X", items, media, "2", fetch);
            && r.Ok?
            && |Canvases(r.value)| == 1
            && Canvases(r.value)[0].id == "https://example.org/iiif/2/X/canvas/p2"
  {
    var items := [ItemRow("X", "Sample")];
    var media := [MediaRow("Y", "image", urlA), MediaRow("X", "image", urlB)];
    SecondRowLabel(urlA, urlB);
    var r := Build(DEFAULT_HOST, "X", items, media, "2", fetch);
    assert r.Ok? by {
      assert items[0].fieldId == "X" && media[1].fieldId == "X";
      BuildSucceedsIff(DEFAULT_HOST, "X", items, media, "2", fetch);
    }
    OneCanvasPerMatchingRow(DEFAULT_HOST, "X", items, media, "2", fetch, r.value);
    assert Canvases(r.value)[0].id == CanvasId(DEFAULT_HOST, "2", "X", 1);
    SampleSecondRowCanvasId();
  }
}
