/**
 * `WebcamImage`: one captured frame as a data URL, its MIME type and an
 * optional pixel buffer, with the base64 payload derived on first read and
 * cached. The payload is the data URL with the prefix `data:<mime>;base64,`
 * (the data-URL syntax of section 3 of RFC 2397) removed, by
 * `String.prototype.replace` with a string pattern, which removes only the
 * first occurrence.
 */
module Image {
  import opened Wrappers

  /** The `ImageData` read back from the canvas: its size and its RGBA bytes. */
  datatype PixelBuffer = PixelBuffer(width: int, height: int, data: seq<int>)

  /** Whether `pat` occurs in `s` at position `k`. */
  predicate OccursAt(s: string, pat: string, k: int) {
    0 <= k && k + |pat| <= |s| && s[k..k + |pat|] == pat
  }

  /** An occurrence at `j >= 1` is an occurrence at `j - 1` in the tail, and the other way round. */
  lemma OccursAtTail(s: string, pat: string)
    requires s != []
    ensures forall j :: 1 <= j <= |s| ==> (OccursAt(s, pat, j) <==> OccursAt(s[1..], pat, j - 1))
  {
    forall j | 1 <= j <= |s|
      ensures OccursAt(s, pat, j) <==> OccursAt(s[1..], pat, j - 1)
    {
      if j + |pat| <= |s| {
        assert s[1..][j - 1..j - 1 + |pat|] == s[j..j + |pat|];
      }
    }
  }

  /** `s.indexOf(pat)`: the first position where `pat` occurs, or -1. */
  function FirstIndexOf(s: string, pat: string): (r: int)
    ensures -1 <= r <= |s|
    ensures r >= 0 ==> OccursAt(s, pat, r)
    ensures forall k :: 0 <= k < |s| + 1 && (r == -1 || k < r) ==> !OccursAt(s, pat, k)
    decreases |s|
  {
    if |pat| <= |s| && s[..|pat|] == pat then 0
    else if s == [] then -1
    else
      var k := FirstIndexOf(s[1..], pat);
      OccursAtTail(s, pat);
      if k < 0 then -1 else k + 1
  }

  /**
   * `s.replace(pat, '')` with a string pattern: the first occurrence is cut
   * out, so putting `pat` back at that position restores `s`; without an
   * occurrence `s` is returned.
   */
  function RemoveFirst(s: string, pat: string): (r: string)
    ensures FirstIndexOf(s, pat) == -1 ==> r == s
    ensures FirstIndexOf(s, pat) >= 0 ==> |r| == |s| - |pat|
    ensures var k := FirstIndexOf(s, pat); k >= 0 ==> k <= |r| && s == r[..k] + pat + r[k..]
  {
    var k := FirstIndexOf(s, pat);
    if k < 0 then s
    else
      var r := s[..k] + s[k + |pat|..];
      assert r[..k] == s[..k] && r[k..] == s[k + |pat|..];
      assert s == s[..k] + s[k..k + |pat|] + s[k + |pat|..];
      r
  }

  /** The data-URL header `data:<mimeType>;base64,`. */
  function DataUrlPrefix(mimeType: string): string {
    "data:" + mimeType + ";base64,"
  }

  /**
   * `WebcamImage.getDataFromDataUrl`: a data URL that starts with the header
   * for `mimeType` gives what follows the header; a string without the header
   * anywhere comes back unchanged.
   */
  function GetDataFromDataUrl(dataUrl: string, mimeType: string): (r: string)
    ensures var h := DataUrlPrefix(mimeType);
      |h| <= |dataUrl| && dataUrl[..|h|] == h ==> r == dataUrl[|h|..]
    ensures FirstIndexOf(dataUrl, DataUrlPrefix(mimeType)) == -1 ==> r == dataUrl
  {
    RemoveFirst(dataUrl, DataUrlPrefix(mimeType))
  }

  /** A data URL built from the header and a payload gives the payload back. */
  lemma Base64OfDataUrl(mimeType: string, payload: string)
    ensures GetDataFromDataUrl(DataUrlPrefix(mimeType) + payload, mimeType) == payload
  {
    var pat := DataUrlPrefix(mimeType);
    assert (pat + payload)[..|pat|] == pat;
  }

  /** Where the header occurs inside the string, only its first occurrence is removed. */
  lemma RemoveFirstSplits(pre: string, pat: string, post: string)
    requires forall k :: 0 <= k < |pre| ==> !OccursAt(pre + pat, pat, k)
    ensures RemoveFirst(pre + pat + post, pat) == pre + post
  {
    var s := pre + pat + post;
    assert s[|pre|..|pre| + |pat|] == pat;
    var k := FirstIndexOf(s, pat);
    assert OccursAt(s, pat, |pre|);
    assert 0 <= k <= |pre|;
    if k < |pre| {
      assert s[k..k + |pat|] == (pre + pat)[k..k + |pat|];
      assert OccursAt(pre + pat, pat, k);
      assert false;
    }
    assert s[..|pre|] == pre;
    assert s[|pre| + |pat|..] == post;
  }

  /** A doubled header loses only its first copy. */
  lemma RemovesOnlyFirstHeader(mimeType: string, payload: string)
    ensures GetDataFromDataUrl(DataUrlPrefix(mimeType) + DataUrlPrefix(mimeType) + payload, mimeType)
            == DataUrlPrefix(mimeType) + payload
  {
    var pat := DataUrlPrefix(mimeType);
    assert pat + pat + payload == pat + (pat + payload);
    Base64OfDataUrl(mimeType, pat + payload);
  }

  /** A captured image; the getters `imageAsDataUrl` and `imageData` are its constant fields. */
  class WebcamImage {
    const imageAsDataUrl: string
    const mimeType: string
    const imageData: Option<PixelBuffer>
    /** `_imageAsBase64`: `None` until the payload is first read. */
    var cachedBase64: Option<string>

    /** The cache, once filled, holds the payload of the data URL. */
    ghost predicate Valid()
      reads this
    {
      cachedBase64.Some? ==> cachedBase64.value == GetDataFromDataUrl(imageAsDataUrl, mimeType)
    }

    constructor (imageAsDataUrl: string, mimeType: string, imageData: Option<PixelBuffer>)
      ensures Valid()
      ensures this.imageAsDataUrl == imageAsDataUrl && this.mimeType == mimeType && this.imageData == imageData
      ensures cachedBase64 == None
    {
      this.imageAsDataUrl := imageAsDataUrl;
      this.mimeType := mimeType;
      this.imageData := imageData;
      cachedBase64 := None;
    }

    /**
     * The `imageAsBase64` getter: the payload of the data URL. A truthy
     * cached value is returned as is; otherwise the payload is computed and
     * stored, so every read returns the same string.
     */
    method ImageAsBase64() returns (r: string)
      requires Valid()
      modifies this
      ensures Valid()
      ensures r == GetDataFromDataUrl(imageAsDataUrl, mimeType)
      ensures cachedBase64 == Some(r)
    {
      if cachedBase64.Some? && cachedBase64.value != "" {
        r := cachedBase64.value;
      } else {
        r := GetDataFromDataUrl(imageAsDataUrl, mimeType);
        cachedBase64 := Some(r);
      }
    }
  }

  /** Two reads of `imageAsBase64` return the same value, and it is the payload of a well-formed data URL. */
  method ReadTwice(mimeType: string, payload: string) returns (first: string, second: string)
    ensures first == second == payload
  {
    var image := new WebcamImage(DataUrlPrefix(mimeType) + payload, mimeType, None);
    first := image.ImageAsBase64();
    second := image.ImageAsBase64();
    Base64OfDataUrl(mimeType, payload);
  }
}
