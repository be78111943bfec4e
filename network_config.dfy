/** The client's network configuration: the server addresses and the helper
    that completes an image path returned by the server into a full URL. */
module NetworkConfig {
  import opened Values
  import opened Text

  const BaseUrl: string := "http://192.168.137.1:3000/api/v1/"
  const ImageBaseUrl: string := "http://192.168.137.1:3000"
  const TimeoutSeconds: nat := 120

  /** Kotlin `removeSuffix`: the suffix is cut off once when `s` ends with
      it, and `s` is returned unchanged otherwise. */
  function RemoveSuffix(s: string, suffix: string): (r: string)
    ensures |suffix| <= |s| && s[|s| - |suffix|..] == suffix ==> r == s[..|s| - |suffix|] && s == r + suffix
    ensures !(|suffix| <= |s| && s[|s| - |suffix|..] == suffix) ==> r == s
  {
    if |suffix| <= |s| && s[|s| - |suffix|..] == suffix then s[..|s| - |suffix|] else s
  }

  /** Appending a suffix and removing it gives the text back. */
  lemma RemoveSuffixAppended(s: string, suffix: string)
    ensures RemoveSuffix(s + suffix, suffix) == s
  {
    assert (s + suffix)[|s + suffix| - |suffix|..] == suffix;
    assert (s + suffix)[..|s + suffix| - |suffix|] == s;
  }

  /** `getFullImageUrl`: nothing for a missing or empty path, an absolute URL
      unchanged, and otherwise the image host followed by the path, with a
      slash put in front when the path lacks one. */
  function FullImageUrl(partialUrl: Option<string>): (r: string)
    ensures r == "" <==> partialUrl.None? || partialUrl.value == ""
  {
    if partialUrl.None? || partialUrl.value == "" then ""
    else if StartsWith(partialUrl.value, "http") then partialUrl.value
    else
      var cleanBase := RemoveSuffix(ImageBaseUrl, "/");
      var cleanPath := if StartsWith(partialUrl.value, "/") then partialUrl.value else "/" + partialUrl.value;
      cleanBase + cleanPath
  }

  /** A relative path is appended to the host, which has no trailing slash:
      as it is when it starts with a slash (any further slashes are kept),
      and with one slash put in front otherwise. */
  lemma FullImageUrlJoin(path: string)
    requires path != "" && !StartsWith(path, "http")
    ensures StartsWith(path, "/") ==> FullImageUrl(Some(path)) == ImageBaseUrl + path
    ensures !StartsWith(path, "/") ==> FullImageUrl(Some(path)) == ImageBaseUrl + "/" + path
    ensures ImageBaseUrl[|ImageBaseUrl| - 1] != '/'
  {
    assert ImageBaseUrl[|ImageBaseUrl| - 1..] == "0";
  }

  /** Empty and missing paths give the empty string; absolute URLs pass through. */
  lemma FullImageUrlPassThrough(partialUrl: Option<string>)
    ensures partialUrl.None? ==> FullImageUrl(partialUrl) == ""
    ensures partialUrl == Some("") ==> FullImageUrl(partialUrl) == ""
    ensures partialUrl.Some? && StartsWith(partialUrl.value, "http") ==> FullImageUrl(partialUrl) == partialUrl.value
  {
  }

  /** Completing a completed URL changes nothing: every non-empty result
      starts with "http". */
  lemma FullImageUrlIdempotent(partialUrl: Option<string>)
    ensures var r := FullImageUrl(partialUrl);
      (r == "" || StartsWith(r, "http")) && FullImageUrl(Some(r)) == r
  {
    var r := FullImageUrl(partialUrl);
    if r != "" && !(partialUrl.Some? && StartsWith(partialUrl.value, "http")) {
      assert ImageBaseUrl[|ImageBaseUrl| - 1..] == "0";
      assert r[..4] == ImageBaseUrl[..4] == "http";
    }
  }
}
