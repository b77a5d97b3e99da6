/**
 * The image-service identifier the builder derives from a media URL:
 * `field_url.split('/info.json')[0]`, the part of the URL before the first
 * occurrence of "/info.json", or the whole URL when it has none.
 */
module ServiceUrl {

  const INFO_JSON_PATH: string := "/info.json"

  /** `sep` occurs in `s` starting at position `i`. */
  predicate OccursAt(s: string, sep: string, i: nat) {
    i + |sep| <= |s| && s[i..i + |sep|] == sep
  }

  predicate Contains(s: string, sep: string) {
    exists i: nat | i <= |s| :: OccursAt(s, sep, i)
  }

  /** An occurrence in `s[1..]` is an occurrence in `s`, one position later. */
  lemma OccursInTail(s: string, sep: string)
    requires |s| > 0
    ensures forall i: nat | 0 < i :: OccursAt(s, sep, i) <==> OccursAt(s[1..], sep, i - 1)
  {
    forall i: nat | 0 < i
      ensures OccursAt(s, sep, i) <==> OccursAt(s[1..], sep, i - 1)
    {
      if i + |sep| <= |s| {
        assert s[1..][i - 1..i - 1 + |sep|] == s[i..i + |sep|];
      }
    }
  }

  /**
   * The first piece of Python's `s.split(sep)`: the prefix of `s` that ends
   * where the first occurrence of `sep` begins, or all of `s` if there is none.
   */
  function SplitFirst(s: string, sep: string): (r: string)
    requires sep != []
    ensures |r| <= |s| && r == s[..|r|]
    ensures forall i: nat :: i < |r| ==> !OccursAt(s, sep, i)
    ensures r == s || OccursAt(s, sep, |r|)
    decreases |s|
  {
    if |s| < |sep| then s
    else if s[..|sep|] == sep then []
    else
      var rest := SplitFirst(s[1..], sep);
      OccursInTail(s, sep);
      [s[0]] + rest
  }

  /**
   * The service identifier of a media URL: a prefix of it that never holds
   * "/info.json", the whole URL exactly when the URL holds none.
   */
  function ServiceId(url: string): (id: string)
    ensures |id| <= |url| && id == url[..|id|]
    ensures !Contains(id, INFO_JSON_PATH)
    ensures id == url <==> !Contains(url, INFO_JSON_PATH)
  {
    SplitFirstHasNoSeparator(url, INFO_JSON_PATH);
    SplitFirstUnchangedIff(url, INFO_JSON_PATH);
    SplitFirst(url, INFO_JSON_PATH)
  }

  /** The piece before the separator never contains the separator. */
  lemma SplitFirstHasNoSeparator(s: string, sep: string)
    requires sep != []
    ensures !Contains(SplitFirst(s, sep), sep)
  {
    var r := SplitFirst(s, sep);
    forall i: nat | i <= |r|
      ensures !OccursAt(r, sep, i)
    {
      if i + |sep| <= |r| {
        assert r[i..i + |sep|] == s[i..i + |sep|];
        assert !OccursAt(s, sep, i);
      }
    }
  }

  /** `s` comes back unchanged exactly when it does not contain the separator. */
  lemma SplitFirstUnchangedIff(s: string, sep: string)
    requires sep != []
    ensures SplitFirst(s, sep) == s <==> !Contains(s, sep)
  {
  }

  /**
   * SplitFirst is the only prefix that ends at the first occurrence of the
   * separator (or at the end of a string without one).
   */
  lemma SplitFirstIsFirstOccurrence(s: string, sep: string, p: string)
    requires sep != []
    requires |p| <= |s| && p == s[..|p|]
    requires forall i: nat :: i < |p| ==> !OccursAt(s, sep, i)
    requires p == s || OccursAt(s, sep, |p|)
    ensures SplitFirst(s, sep) == p
  {
  }

  /** Deriving the service id twice changes nothing. */
  lemma ServiceIdIdempotent(url: string)
    ensures ServiceId(ServiceId(url)) == ServiceId(url)
  {
    SplitFirstHasNoSeparator(url, INFO_JSON_PATH);
    SplitFirstUnchangedIff(ServiceId(url), INFO_JSON_PATH);
  }

  /**
   * The service id of an Image API descriptor URL `{base}/info.json` is `base`,
   * provided `base` itself does not contain "/info.json".
   */
  lemma ServiceIdOfDescriptor(base: string)
    requires !Contains(base, INFO_JSON_PATH)
    ensures ServiceId(base + INFO_JSON_PATH) == base
  {
    var s := base + INFO_JSON_PATH;
    var n := |INFO_JSON_PATH|;
    forall i: nat | i < |base|
      ensures !OccursAt(s, INFO_JSON_PATH, i)
    {
      if i + n <= |base| {
        assert base[i..i + n] == s[i..i + n];
        assert !OccursAt(base, INFO_JSON_PATH, i);
      } else if i + n <= |s| {
        assert s[|base|] == '/';
        assert s[i..i + n][|base| - i] == s[|base|];
        assert forall j :: 0 < j < n ==> INFO_JSON_PATH[j] != '/';
        assert s[i..i + n][|base| - i] != INFO_JSON_PATH[|base| - i];
      }
    }
    assert s[|base|..|base| + n] == INFO_JSON_PATH;
    SplitFirstIsFirstOccurrence(s, INFO_JSON_PATH, base);
  }
}
