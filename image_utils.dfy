/**
  The storefront's image-URL sanitiser (client/src/utils/imageUtils.ts). Browser-local
  `blob:` URLs do not survive a reload, so they are replaced by a fallback image; every
  other URL, `data:` URLs included, is kept.
 */
module ImageUtils {
  import opened Wrappers
  import Text

  const Placeholder: string := "/placeholder-image.jpg"

  /** `isBlobUrl` */
  predicate IsBlobUrl(url: string)
  {
    Text.StartsWith(url, "blob:")
  }

  lemma PlaceholderNotBlob()
    ensures !IsBlobUrl(Placeholder)
  {
    assert Placeholder[..5][0] == '/';
  }

  /** `fallback || '/placeholder-image.jpg'`: an absent or empty fallback gives the placeholder. */
  function FallbackChoice(fallback: Option<string>): (r: string)
    ensures r != ""
    ensures fallback.Some? && fallback.value != "" ==> r == fallback.value
    ensures fallback.None? || fallback.value == "" ==> r == Placeholder
    ensures IsBlobUrl(r) ==> fallback.Some? && IsBlobUrl(fallback.value)
  {
    PlaceholderNotBlob();
    Text.OrElse(fallback.GetOr(""), Placeholder)
  }

  /**
    `getSafeImageUrl`: an empty or blob URL gives the fallback choice, any other URL is
    returned as it is. The result is never empty, and it is a blob URL only when the
    caller's fallback is one.
   */
  function SafeImageUrl(url: string, fallback: Option<string>): (r: string)
    ensures url == "" || IsBlobUrl(url) ==> r == FallbackChoice(fallback)
    ensures url != "" && !IsBlobUrl(url) ==> r == url
    ensures r != ""
    ensures IsBlobUrl(r) ==> fallback.Some? && IsBlobUrl(fallback.value)
  {
    if url == "" then FallbackChoice(fallback)
    else if IsBlobUrl(url) then FallbackChoice(fallback)
    else if Text.StartsWith(url, "data:") then url
    else url
  }

  /** With a fallback that is not a blob URL, sanitising twice is sanitising once. */
  lemma SafeImageUrlIdempotent(url: string, fallback: Option<string>)
    requires fallback.None? || !IsBlobUrl(fallback.value)
    ensures SafeImageUrl(SafeImageUrl(url, fallback), fallback) == SafeImageUrl(url, fallback)
  {
    assert !IsBlobUrl(SafeImageUrl(url, fallback));
  }

  /**
    `getSafeImageUrls`: an empty list gives the one fallback choice; otherwise each URL
    is sanitised, position by position.
   */
  function SafeImageUrls(urls: seq<string>, fallback: Option<string>): (r: seq<string>)
    ensures |urls| == 0 ==> r == [FallbackChoice(fallback)]
    ensures |urls| > 0 ==> |r| == |urls| && forall i :: 0 <= i < |urls| ==> r[i] == SafeImageUrl(urls[i], fallback)
    ensures |r| >= 1
  {
    if |urls| == 0 then [FallbackChoice(fallback)]
    else seq(|urls|, i requires 0 <= i < |urls| => SafeImageUrl(urls[i], fallback))
  }

  /** With a fallback that is not a blob URL, no blob URL reaches the gallery and none is empty. */
  lemma SafeImageUrlsClean(urls: seq<string>, fallback: Option<string>)
    requires fallback.None? || !IsBlobUrl(fallback.value)
    ensures forall u :: u in SafeImageUrls(urls, fallback) ==> u != "" && !IsBlobUrl(u)
  {
    var r := SafeImageUrls(urls, fallback);
    forall u | u in r
      ensures u != "" && !IsBlobUrl(u)
    {
      if |urls| > 0 {
        var i :| 0 <= i < |r| && r[i] == u;
        assert u == SafeImageUrl(urls[i], fallback);
      }
    }
  }
}
