# easy_iiif manifest builder, in Dafny

A model of the IIIF manifest builder of easy_iiif (`src/create_manifest.py`).
`create_manifest` takes one field id, the item table and the media table. It
builds a IIIF Presentation manifest for version "3" or "2". For each media row
with that field id it adds one canvas, in table order. Canvases of rows typed
"iiif" are sized from the image's `info.json`. Every other canvas is
1000 x 1000.

The model is split into these modules:

- `Wrappers`: `Option` and `Result`.
- `Decimal`: `str()` of a natural number, used for the `p{index + 1}` page numbers.
- `ServiceUrl`: `url.split('/info.json')[0]`, the image service id.
- `ImageInfo`: the defaulting in `get_image_info`. The HTTP request and JSON
  parse appear only through their outcome.
- `Tables`: the item and media rows, and the two pandas filters by field id.
  A media row's label is its position in the whole media table.
- `Presentation`: the manifest tree in its two shapes, and its rendering to a
  JSON tree with the keys and literal values the program writes.
- `ManifestBuilder`: the `CreateManifest` method. Its canvas loop is
  `AppendCanvases` and the loop body is `RowCanvas`. All three are proved
  against the declarative reference `Build`, and against `Requests`, the
  sequence of image-info requests.
- `ManifestProperties`: what the program promises, proved about `Build`.

The image-info request is the parameter `fetch: string -> Option<InfoJson>`.
`None` stands for any failure of the request, of `raise_for_status` or of the
JSON parse. The `HOST` environment variable is the parameter `host`, and
`Host` states how `os.getenv` defaults it.

## Model

| member | source | states |
|---|---|---|
| ManifestBuilder.CreateManifest | src/create_manifest.py:28-124 | the result is the manifest `Build` describes, or the same error, and the URLs it requests are exactly `Requests`, in order |
| ManifestBuilder.AppendCanvases | src/create_manifest.py:68-122 | starting from an empty holding, the loop leaves the header untouched, holds the canvases of the matching rows in order, and requests the URLs of their "iiif" rows in order |
| ManifestBuilder.RowCanvas | src/create_manifest.py:69-117 | the canvas of the media row with a given label is `CanvasFor` that row: sized by the image-info lookup for an "iiif" row and 1000 x 1000 otherwise; it requests the row's URL exactly when the row is "iiif" |
| ManifestBuilder.Host | src/create_manifest.py:31-32 | the host is the HOST variable when set, even when empty, and "https://example.org" otherwise |
| ManifestBuilder.CanvasesForAt | src/create_manifest.py:68-122 | canvas k of the built list is the canvas of the k-th label's row |
| ManifestBuilder.FetchedUrlsFromIiifRows | src/create_manifest.py:71-72 | every requested URL is the URL of an "iiif" row among those visited, every visited "iiif" row's URL is requested, and no request is made when no visited row is "iiif" |
| ManifestBuilder.IiifRows | src/create_manifest.py:71 | the labels of the visited rows typed exactly "iiif", in visiting order: each is such a row and every such row is among them |
| ManifestBuilder.IiifRowsAscend | src/create_manifest.py:68-71 | when the labels ascend (table order), so do the labels of the "iiif" rows among them |
| ManifestBuilder.FetchedUrlsInOrder | src/create_manifest.py:68-72 | the requests are one per visited "iiif" row, the j-th being the URL of the j-th such row |
| ManifestBuilder.AppendNextCanvas | src/create_manifest.py:68-122 | one loop step: appending the next row's canvas extends the held canvases by exactly it, and its request extends the requests so far |
| ManifestBuilder.Build | src/create_manifest.py:28-124 | the declarative result: the item error when no item row matches, else the media error when no media row matches, else the manifest with the version's context, id and label and one canvas per matching row in table order; its promises are the ManifestProperties lemmas |
| ManifestBuilder.MakeCanvas | src/create_manifest.py:74-117 | a canvas with the p{label+1} id and the given size; in 3 an AnnotationPage with page and annotation ids and target = the canvas id, in 2 an image annotation with on = the canvas id; the image resource and service as in CanvasImageResource |
| ManifestBuilder.AppendToHolding | src/create_manifest.py:119-122 | appending to "items" (3) or to the canvases of sequences[0] (2) extends the held canvas list by one at the end and changes nothing else |
| ImageInfo.MemberOr | src/create_manifest.py:23 | `info.get(key, 1000)`: the entry when the key is present, 1000 otherwise |
| ImageInfo.GetImageInfo | src/create_manifest.py:17-26 | a failed fetch gives 1000 x 1000; otherwise width and height are the descriptor's values, each defaulting to 1000 on its own |
| ImageInfo.FailureLooksLikeEmptyDescriptor | src/create_manifest.py:23-26 | a failed fetch and a descriptor with neither width nor height give the same size |
| ImageInfo.SidesDefaultIndependently | src/create_manifest.py:23 | the width depends only on the "width" entry and the height only on the "height" entry |
| ServiceUrl.ServiceId | src/create_manifest.py:94 | the service id is a prefix of the URL, never holds "/info.json", and is the whole URL exactly when the URL holds no "/info.json" (also line 112) |
| ServiceUrl.SplitFirst | src/create_manifest.py:94 | the result is a prefix of the URL, holds no occurrence of the separator, and is either the whole URL or stops where the separator first occurs |
| ServiceUrl.SplitFirstHasNoSeparator | src/create_manifest.py:94 | the service id never contains "/info.json" |
| ServiceUrl.SplitFirstUnchangedIff | src/create_manifest.py:94 | the URL is left unchanged exactly when it does not contain "/info.json" |
| ServiceUrl.SplitFirstIsFirstOccurrence | src/create_manifest.py:94 | the cut is at the first occurrence: any prefix followed by the separator and free of it is the result |
| ServiceUrl.ServiceIdIdempotent | src/create_manifest.py:112 | taking the service id of a service id changes nothing |
| ServiceUrl.ServiceIdOfDescriptor | src/create_manifest.py:94 | the service id of `base + "/info.json"` is `base` when base holds no "/info.json" |
| Decimal.NatToString | src/create_manifest.py:75 | the page number is a non-empty string of decimal digits with no leading zero, except for 0 itself |
| Decimal.StringToNatInverts | src/create_manifest.py:75 | reading the page number back as a decimal gives the number |
| Decimal.NatToStringInjective | src/create_manifest.py:75 | different numbers give different page-number strings |
| Tables.FirstItem | src/create_manifest.py:35-39 | None exactly when no item row has the field id; otherwise the first row that has it |
| Tables.MatchingLabels | src/create_manifest.py:42 | exactly the labels of the media rows with the field id, strictly ascending, so in table order |
| Tables.AllRowsMatch | src/create_manifest.py:42 | when every media row has the field id, the labels are 0 .. N-1 |
| Tables.NoLabelsIff | src/create_manifest.py:42-43 | the filtered media table is empty exactly when no media row has the field id |
| Presentation.ManifestJson | src/create_manifest.py:53-65 | the manifest renders as "@context", "id", "type": "Manifest", "label" ({"ja": [title]} or {"@value", "@language": "ja"}), then "items" or "sequences" holding one {"@type": "sc:Sequence", "canvases"}; the partner lemmas are RenderedManifestIdentity, RenderedContainer and RenderedVersion2/3 |
| Presentation.CanvasJson | src/create_manifest.py:74-79 | a canvas renders as "id", "type": "Canvas", "height", "width", then its painting under "items" (3) or "images" (2) |
| Presentation.PaintingJson | src/create_manifest.py:81-117 | in 3 an AnnotationPage holding one painting Annotation whose body is an image/jpeg Image with a one-element service list (id, type, profile); in 2 one oa:Annotation with sc:painting motivation, a dctypes:Image resource and a service with @context, @id and profile but no type |
| Presentation.RenderedManifestIdentity | src/create_manifest.py:55-56 | the rendered manifest, in both versions, has "id" and "type": "Manifest" and neither "@id" nor "@type" |
| Presentation.RenderedContainer | src/create_manifest.py:58 | the canvases sit under "items" or "sequences", and the other key is absent |
| Presentation.RenderedSingleSequence | src/create_manifest.py:62-65 | one sequence renders as a one-element "sequences" array |
| Presentation.RenderedCanvasIdentity | src/create_manifest.py:75-76 | a rendered canvas has "id" and no "@id" in both versions |
| Presentation.RenderedCanvases | src/create_manifest.py:120-122 | the rendered canvas list has one entry per canvas, in order, with the canvas's id |
| ManifestProperties.MissingItemFailsFirst | src/create_manifest.py:35-37 | the item error is raised exactly when no item row has the field id, whatever the media rows, and no request is made |
| ManifestProperties.MissingMediaFails | src/create_manifest.py:42-44 | the media error is raised exactly when an item row but no media row has the field id, and no request is made |
| ManifestProperties.BuildSucceedsIff | src/create_manifest.py:35-44 | the build succeeds exactly when both an item row and a media row have the field id |
| ManifestProperties.OneCanvasPerMatchingRow | src/create_manifest.py:68-122 | there is one canvas per matching media row, in table order |
| ManifestProperties.ShapeFollowsVersion | src/create_manifest.py:46-65 | "3" gives the 3 context, canvases in "items" and a language-map label; "2" gives the 2 context, exactly one sequence holding all canvases and an @value/@language label; the manifest id is host/iiif/version/field_id/manifest.json with the first item's title |
| ManifestProperties.CanvasIdentifiers | src/create_manifest.py:75-116 | canvas k's id is host/iiif/version/field_id/canvas/p{label+1}; in 3 the annotation target is the canvas id and the page and annotation ids follow the same pattern; in 2 "on" is the canvas id |
| ManifestProperties.CanvasDimensions | src/create_manifest.py:70-78 | a row not typed exactly "iiif" gets 1000 x 1000; an "iiif" row gets the image-info result |
| ManifestProperties.CanvasImageResource | src/create_manifest.py:89-113 | the resource id is the row's URL, always image/jpeg, the service id is the URL before the first "/info.json"; in 3 an ImageService3 with profile level2, in 2 the Image API 2 context and level2.json profile |
| ManifestProperties.CanvasIdInjective | src/create_manifest.py:75 | the canvas id determines the row label |
| ManifestProperties.CanvasIdsDistinct | src/create_manifest.py:75 | no two canvases of a manifest share an id |
| ManifestProperties.CanvasNumbersWhenAllRowsMatch | src/create_manifest.py:68-75 | when every media row has the field id, the canvases are p1 .. pN |
| ManifestProperties.RequestsOnlyForIiifRows | src/create_manifest.py:71-72 | at most one request per canvas, each for the URL of a matching "iiif" row, the URL of every matching "iiif" row requested, and none when no matching row is "iiif" |
| ManifestProperties.RequestsInTableOrder | src/create_manifest.py:68-72 | once the item exists, request j is the URL of the j-th matching "iiif" row: exactly one request per such row, in ascending table order |
| ManifestProperties.RenderedVersion2 | src/create_manifest.py:53-65 | the rendered 2 manifest keeps "id" and "type": "Manifest", has no "items", and has one sc:Sequence whose "canvases" are the rendered canvases |
| ManifestProperties.RenderedVersion3 | src/create_manifest.py:53-59 | the rendered 3 manifest holds its rendered canvases under "items" and has no "sequences" |
| ManifestProperties.SampleItemVersion3 | src/create_manifest.py:28-124 | one "image" row with the default host and version 3 gives manifest id https://example.org/iiif/3/X/manifest.json, one canvas p1, 1000 wide, and no request |
| ManifestProperties.CanvasNumberCountsOtherRows | src/create_manifest.py:68-75 | with a row of another field id first, the only canvas is p2, not p1 |

## Left out

- `load_data` (CSV reading through pandas) and `main` (argument parsing, directory creation, `json.dump`, exit codes): file-system and command-line plumbing. The tables are inputs.
- The HTTP request, `raise_for_status` and `response.json()`: only their outcome is modelled, as an optional map from keys to integers. `None` covers a failed request, an error status, a body that is not JSON, and a body that parses to something other than an object (a list or a number), where `info.get` raises and the fallback applies. The request is assumed to give the same answer for the same URL within one build.
- `info.json` values that are not integers (strings, floats, null): the map holds integers only.
- The printed warning, the error message texts and the `tqdm` progress bar: console output. The two errors are told apart by constructor.
- `load_dotenv`: reading the `.env` file is environment I/O. `host` is a parameter.
- pandas type inference and missing values: field ids, types and URLs are compared as strings, as they are when the CSV columns read as text.
- The default argument `version="3"` of `create_manifest`: the version is always passed explicitly (`main` passes "2" then "3").
- Versions other than "2" and "3": the program crashes at line 122 on the empty "sequences" list, so `SupportedVersion` is a precondition.
- The JSON serialisation of the manifest: the model stops at a JSON tree.
- ServiceType: the program computes "ImageService2" for version 2 but never writes it. The 2 service has no type in the model, as in the program.
- ManifestBuilder.CreateManifest: the dictionary is rebuilt as a value at each append rather than mutated in place; the manifest has no other alias, so nothing observable is lost.
