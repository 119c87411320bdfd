/**
 * The thumbnail a story card shows: the first `thumbnail` rendition, else the first
 * `thumbLarge`, else the first media entry of any kind, with a site-relative URL
 * resolved against the New York Times origin.
 */
module NewsItemImage {
  import opened Nullable
  import opened JsBuiltins
  import opened NewsSlice

  /** The origin a relative media URL is resolved against. */
  const NytBase := "https://www.nytimes.com/"

  predicate HasSubtype(m: Media, subtype: string) {
    m.subtype == Some(subtype)
  }

  /** `media.find(img => img.subtype === subtype)`, as the index of the entry found. */
  function FindBySubtype(media: seq<Media>, subtype: string): (r: Option<nat>)
    ensures r.None? <==> forall i :: 0 <= i < |media| ==> !HasSubtype(media[i], subtype)
    ensures r.Some? ==> r.value < |media| && HasSubtype(media[r.value], subtype)
    ensures r.Some? ==> forall i :: 0 <= i < r.value ==> !HasSubtype(media[i], subtype)
  {
    if media == [] then None
    else if HasSubtype(media[0], subtype) then Some(0)
    else
      match FindBySubtype(media[1..], subtype)
      case None => None
      case Some(i) => Some(i + 1)
  }

  predicate AnyWith(media: seq<Media>, subtype: string) {
    exists i :: 0 <= i < |media| && HasSubtype(media[i], subtype)
  }

  /** `media[i]` is the first entry with that subtype. */
  predicate FirstWith(media: seq<Media>, i: int, subtype: string) {
    0 <= i < |media| && HasSubtype(media[i], subtype)
    && forall j :: 0 <= j < i ==> !HasSubtype(media[j], subtype)
  }

  /**
   * The entry `getImageUrl` picks. Every media entry is an object, so the `||` chain
   * falls through a `find` only when that `find` found nothing.
   */
  function ChooseImage(multimedia: Option<seq<Media>>): (r: Option<Media>)
    ensures r.None? <==> multimedia.None? || multimedia.value == []
    ensures r.Some? ==> r.value in multimedia.value
    ensures r.Some? && AnyWith(multimedia.value, "thumbnail") ==>
      exists i :: FirstWith(multimedia.value, i, "thumbnail") && r.value == multimedia.value[i]
    ensures r.Some? && !AnyWith(multimedia.value, "thumbnail") && AnyWith(multimedia.value, "thumbLarge") ==>
      exists i :: FirstWith(multimedia.value, i, "thumbLarge") && r.value == multimedia.value[i]
    ensures r.Some? && !AnyWith(multimedia.value, "thumbnail") && !AnyWith(multimedia.value, "thumbLarge") ==>
      r.value == multimedia.value[0]
  {
    match multimedia
    case None => None
    case Some(media) =>
      if media == [] then None
      else
        match FindBySubtype(media, "thumbnail")
        case Some(i) => Some(media[i])
        case None =>
          match FindBySubtype(media, "thumbLarge")
          case Some(i) => Some(media[i])
          case None => Some(media[0])
  }

  /** The ternary on the chosen URL: absolute URLs are kept, anything else is put under the site origin. */
  function NormalizeUrl(url: string): (r: string)
    ensures StartsWith(r, "http")
    ensures StartsWith(url, "http") ==> r == url
    ensures !StartsWith(url, "http") ==> r == NytBase + url
  {
    if StartsWith(url, "http") then url else NytBase + url
  }

  /** `getImageUrl()`: the chosen entry's resolved URL, or `null` when the story has no media. */
  function GetImageUrl(news: NewsItem): (r: Option<string>)
    ensures r.None? <==> news.multimedia.None? || news.multimedia.value == []
    ensures r.Some? ==> StartsWith(r.value, "http")
    ensures r.Some? ==> var url := ChooseImage(news.multimedia).value.url;
      (StartsWith(url, "http") ==> r.value == url) && (!StartsWith(url, "http") ==> r.value == NytBase + url)
  {
    match ChooseImage(news.multimedia)
    case None => None
    case Some(image) => Some(NormalizeUrl(image.url))
  }

  /** Resolving twice is resolving once: a resolved URL already starts with `http`. */
  lemma NormalizeUrlIdempotent(url: string)
    ensures NormalizeUrl(NormalizeUrl(url)) == NormalizeUrl(url)
  {
  }

  /**
   * The test is a plain prefix check, so a relative path that happens to begin with
   * `http` is kept as it is rather than put under the site origin.
   */
  lemma HttpPrefixedPathKept()
    ensures NormalizeUrl("httpx.jpg") == "httpx.jpg"
    ensures NormalizeUrl("x.jpg") == NytBase + "x.jpg"
  {
    assert "httpx.jpg"[..4] == "http";
    assert "x.jpg"[0] != 'h';
  }

  /** A story fetched through the top-stories mapping shows an image exactly when the API sent media. */
  lemma MappedStoryImage(story: TopStory)
    ensures GetImageUrl(MapStory(story)).Some? <==> story.multimedia.Some? && story.multimedia.value != []
  {
  }
}
