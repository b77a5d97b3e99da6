/**
 * get_image_info with the HTTP request abstracted away: the outcome of the
 * request, the status check and the JSON parse arrives as an optional parsed
 * info.json object, `None` standing for any failure among the three.
 */
module ImageInfo {
  import opened Wrappers

  const DEFAULT_SIZE: int := 1000

  /** The integer-valued members of a parsed Image API info.json object. */
  type InfoJson = map<string, int>

  datatype Dimensions = Dimensions(width: int, height: int)

  const DEFAULT_DIMENSIONS: Dimensions := Dimensions(DEFAULT_SIZE, DEFAULT_SIZE)

  /** `info.get(key, 1000)`. */
  function MemberOr(info: InfoJson, key: string): (v: int)
    ensures key in info ==> v == info[key]
    ensures key !in info ==> v == DEFAULT_SIZE
  {
    if key in info then info[key] else DEFAULT_SIZE
  }

  /**
   * Width and height of an image: a failed fetch gives 1000 x 1000; otherwise
   * each side is the descriptor's value when present and 1000 when absent.
   */
  function GetImageInfo(fetched: Option<InfoJson>): (d: Dimensions)
    ensures fetched.None? ==> d == DEFAULT_DIMENSIONS
    ensures fetched.Some? && "width" in fetched.value ==> d.width == fetched.value["width"]
    ensures fetched.Some? && "height" in fetched.value ==> d.height == fetched.value["height"]
    ensures fetched.Some? && "width" !in fetched.value ==> d.width == DEFAULT_SIZE
    ensures fetched.Some? && "height" !in fetched.value ==> d.height == DEFAULT_SIZE
  {
    match fetched
    case None => DEFAULT_DIMENSIONS
    case Some(info) => Dimensions(MemberOr(info, "width"), MemberOr(info, "height"))
  }

  /** A failed fetch looks exactly like a descriptor that gives no size at all. */
  lemma FailureLooksLikeEmptyDescriptor()
    ensures GetImageInfo(None) == GetImageInfo(Some(map[]))
  {
  }

  /**
   * The two sides default independently: the width depends only on the
   * "width" member and the height only on the "height" member.
   */
  lemma SidesDefaultIndependently(info: InfoJson, other: InfoJson)
    ensures ("width" in info <==> "width" in other) && ("width" in info ==> info["width"] == other["width"])
            ==> GetImageInfo(Some(info)).width == GetImageInfo(Some(other)).width
    ensures ("height" in info <==> "height" in other) && ("height" in info ==> info["height"] == other["height"])
            ==> GetImageInfo(Some(info)).height == GetImageInfo(Some(other)).height
  {
  }
}
