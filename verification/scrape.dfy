/**
  The marker-splitting extractors: each field is "the text after the first
  marker, up to a terminator", and a missing marker or a missing second
  piece (Python's IndexError, caught) just leaves the field out.
  Only the string-based parts are modelled; the BeautifulSoup lookups
  (canonical link, page title) are not.
*/
module Scrape {
  import opened Wrappers
  import opened Text
  import opened Records

  const QUOTE := "\""

  // Gab (SocialMediaOSINT._extract_gab_data)
  const GAB_AVATAR := "parallax\""
  const GAB_HEADER := "account__header__info"
  const GAB_VIDEO := "playsinline="
  const SRC := "src=\""
  const POSTER := "poster=\""

  /** `html.split('parallax"')[1].split('&quot;')[1]`. */
  function GabAvatar(html: string): Option<string> {
    if !Contains(html, GAB_AVATAR) then None
    else
      match Piece(html, GAB_AVATAR, 1)
      case None => None
      case Some(section) => Piece(section, "&quot;", 1)
  }

  /** `html.split('account__header__info')[1].split('="')[1].split('"')[0]`. */
  function GabHeader(html: string): Option<string> {
    if !Contains(html, GAB_HEADER) then None
    else
      match Piece(html, GAB_HEADER, 1)
      case None => None
      case Some(section) => Between(section, "=\"", QUOTE)
  }

  /** The video source and its poster image after `playsinline=`; both or neither. */
  function GabVideo(html: string): Option<(string, string)> {
    if !Contains(html, GAB_VIDEO) then None
    else
      match Piece(html, GAB_VIDEO, 1)
      case None => None
      case Some(section) =>
        match (Between(section, SRC, QUOTE), Between(section, POSTER, QUOTE))
        case (Some(video), Some(poster)) => Some((video, poster))
        case _ => None
  }

  /** `[profile_exists: True]` followed by the extracted text fields. */
  function Profile(fs: seq<(string, Option<string>)>): (d: Data)
    ensures |d| >= 1 && d[0] == Entry("profile_exists", Flag(true))
    ensures forall k {:trigger HasKey(d, k)} :: k != "profile_exists" ==>
      (HasKey(d, k) <==> exists i :: 0 <= i < |fs| && fs[i].0 == k && fs[i].1.Some?)
  {
    var d := [Entry("profile_exists", Flag(true))] + Fields(fs);
    forall k {:trigger HasKey(d, k)} | k != "profile_exists"
      ensures HasKey(d, k) <==> exists i :: 0 <= i < |fs| && fs[i].0 == k && fs[i].1.Some?
    {
      HasKeyAppend([Entry("profile_exists", Flag(true))], Fields(fs), k);
    }
    d
  }

  /** The optional text fields of a Gab page, in the order they are stored. */
  function GabFields(html: string): seq<(string, Option<string>)> {
    var avatar := GabAvatar(html);
    var video := GabVideo(html);
    [("avatar_url", avatar),
     ("avatar_full_size", avatar),
     ("header_image_url", GabHeader(html)),
     ("video_url", if video.Some? then Some(video.value.0) else None),
     ("video_thumbnail", if video.Some? then Some(video.value.1) else None)]
  }

  /** The string-derived part of the data a successful Gab lookup reports. */
  function GabData(html: string): (d: Data)
    ensures |d| >= 1 && d[0] == Entry("profile_exists", Flag(true))
  {
    Profile(GabFields(html))
  }

  /** Both avatar fields or neither, and only when the avatar marker occurs. */
  lemma GabAvatarFields(html: string)
    ensures var d := GabData(html);
      (HasKey(d, "avatar_url") <==> HasKey(d, "avatar_full_size")) &&
      (HasKey(d, "avatar_url") ==> Contains(html, GAB_AVATAR))
  {
    var fs := GabFields(html);
    assert fs[0].0 == "avatar_url" && fs[1].0 == "avatar_full_size" && fs[2].0 == "header_image_url";
    assert fs[3].0 == "video_url" && fs[4].0 == "video_thumbnail";
  }

  /** The header field only when the header marker occurs. */
  lemma GabHeaderField(html: string)
    ensures HasKey(GabData(html), "header_image_url") ==> Contains(html, GAB_HEADER)
  {
    var fs := GabFields(html);
    assert fs[0].0 == "avatar_url" && fs[1].0 == "avatar_full_size" && fs[2].0 == "header_image_url";
    assert fs[3].0 == "video_url" && fs[4].0 == "video_thumbnail";
  }

  /** The video and its thumbnail together or not at all, and only when the video marker occurs. */
  lemma GabVideoFields(html: string)
    ensures var d := GabData(html);
      (HasKey(d, "video_url") <==> HasKey(d, "video_thumbnail")) &&
      (HasKey(d, "video_url") ==> Contains(html, GAB_VIDEO))
  {
    var fs := GabFields(html);
    assert fs[0].0 == "avatar_url" && fs[1].0 == "avatar_full_size" && fs[2].0 == "header_image_url";
    assert fs[3].0 == "video_url" && fs[4].0 == "video_thumbnail";
  }

  // TikTok (SocialMediaOSINT._extract_tiktok_data)
  const TIKTOK_PHOTO := "background-image:url("
  const TIKTOK_UPLOAD := "uploadDate\":\""
  const TIKTOK_FULL_PHOTO := "background-image: url(&quot;"

  /** `html.split('background-image:url(')[1].split(')')[0].strip('"\'')`. */
  function TikTokPhoto(html: string): Option<string> {
    if !Contains(html, TIKTOK_PHOTO) then None
    else
      match Between(html, TIKTOK_PHOTO, ")")
      case None => None
      case Some(v) => Some(Strip(v, {'"', '\''}))
  }

  /** `html.split('uploadDate":"')[1].split('"')[0]`. */
  function TikTokUploadDate(html: string): Option<string> {
    if !Contains(html, TIKTOK_UPLOAD) then None else Between(html, TIKTOK_UPLOAD, QUOTE)
  }

  /** `html.split('poster="')[1].split('"')[0]`. */
  function TikTokThumbnail(html: string): Option<string> {
    if !Contains(html, POSTER) then None else Between(html, POSTER, QUOTE)
  }

  /** The `src="…"` after the first `poster="`, with every `amp;` deleted. */
  function TikTokDownload(html: string): Option<string> {
    if !(Contains(html, POSTER) && Contains(html, SRC)) then None
    else
      match Piece(html, POSTER, 1)
      case None => None
      case Some(section) =>
        match Between(section, SRC, QUOTE)
        case None => None
        case Some(v) => Some(Replace(v, "amp;", ""))
  }

  /** The photo URL after `background-image: url(&quot;`, with `_100x100` deleted. */
  function TikTokFullPhoto(html: string): Option<string> {
    if !Contains(html, TIKTOK_FULL_PHOTO) then None
    else
      match Between(html, TIKTOK_FULL_PHOTO, "&quot")
      case None => None
      case Some(v) => Some(Replace(v, "_100x100", ""))
  }

  /** The data a successful TikTok lookup reports, from the raw page text alone. */
  function TikTokData(html: string): (d: Data)
    ensures |d| >= 1 && d[0] == Entry("profile_exists", Flag(true))
    ensures HasKey(d, "profile_photo") <==> Contains(html, TIKTOK_PHOTO)
    ensures HasKey(d, "video_upload_date") <==> Contains(html, TIKTOK_UPLOAD)
    ensures HasKey(d, "video_thumbnail") <==> Contains(html, POSTER)
    ensures HasKey(d, "full_size_photo") <==> Contains(html, TIKTOK_FULL_PHOTO)
    ensures HasKey(d, "video_download_url") ==> Contains(html, POSTER) && Contains(html, SRC)
  {
    SecondPieceDefined(html, TIKTOK_PHOTO);
    SecondPieceDefined(html, TIKTOK_UPLOAD);
    SecondPieceDefined(html, POSTER);
    SecondPieceDefined(html, TIKTOK_FULL_PHOTO);
    var fs := [
      ("profile_photo", TikTokPhoto(html)),
      ("video_upload_date", TikTokUploadDate(html)),
      ("video_thumbnail", TikTokThumbnail(html)),
      ("video_download_url", TikTokDownload(html)),
      ("full_size_photo", TikTokFullPhoto(html))];
    assert fs[0].0 == "profile_photo" && fs[1].0 == "video_upload_date" && fs[2].0 == "video_thumbnail";
    assert fs[3].0 == "video_download_url" && fs[4].0 == "full_size_photo";
    Profile(fs)
  }

  /**
    The upload date TikTok reports is the text right after the first
    `uploadDate":"`; it holds no double quote and stops at the next double
    quote, at the next `uploadDate":"`, or at the end of the page.
  */
  lemma TikTokUploadDateIsDelimited(html: string)
    ensures TikTokUploadDate(html).Some? <==> Contains(html, TIKTOK_UPLOAD)
    ensures Contains(html, TIKTOK_UPLOAD) ==>
      var start := IndexOf(html, TIKTOK_UPLOAD).value + |TIKTOK_UPLOAD|;
      var v := TikTokUploadDate(html).value;
      && start + |v| <= |html|
      && html[start..start + |v|] == v
      && '"' !in v
      && (|| start + |v| == |html|
          || html[start + |v|] == '"'
          || OccursAt(html, TIKTOK_UPLOAD, start + |v|))
  {
    BetweenIsDelimited(html, TIKTOK_UPLOAD, QUOTE);
    if Contains(html, TIKTOK_UPLOAD) {
      var start := IndexOf(html, TIKTOK_UPLOAD).value + |TIKTOK_UPLOAD|;
      var v := TikTokUploadDate(html).value;
      ContainsChar(v, '"');
      if start + |v| < |html| && OccursAt(html, QUOTE, start + |v|) {
        assert html[start + |v|..start + |v| + 1][0] == html[start + |v|];
      }
    }
  }

  // Reddit (SocialMediaOSINT.search_reddit, profile_analysis)
  const REDDIT_BANNER := "<div style=\"background-image:url("
  const REDDIT_AVATAR := "\"Profile icon\" src=\""

  /** `html.split('<div style="background-image:url(')[1].split('?width')[0]`. */
  function RedditBanner(html: string): Option<string> {
    if !Contains(html, REDDIT_BANNER) then None else Between(html, REDDIT_BANNER, "?width")
  }

  /** Cuts an avatar URL right after its first `.png`, else after its first `.jpg`. */
  function TrimImageUrl(url: string): (r: string)
    ensures Contains(url, ".png") ==>
      EndsWith(r, ".png") && StartsWith(url, r) && !Contains(r[..|r| - 4], ".png")
    ensures !Contains(url, ".png") && Contains(url, ".jpg") ==>
      EndsWith(r, ".jpg") && StartsWith(url, r) && !Contains(r[..|r| - 4], ".jpg")
    ensures !Contains(url, ".png") && !Contains(url, ".jpg") ==> r == url
  {
    if Contains(url, ".png") then
      HeadBeforeMarker(url, ".png");
      Split(url, ".png")[0] + ".png"
    else if Contains(url, ".jpg") then
      HeadBeforeMarker(url, ".jpg");
      Split(url, ".jpg")[0] + ".jpg"
    else url
  }

  /** `html.split('"Profile icon" src="')[1].split('" class=')[0]`, trimmed. */
  function RedditAvatar(html: string): Option<string> {
    if !Contains(html, REDDIT_AVATAR) then None
    else
      match Between(html, REDDIT_AVATAR, "\" class=")
      case None => None
      case Some(v) => Some(TrimImageUrl(v))
  }

  /** The data a Reddit profile page yields: banner and avatar, each when its marker is present. */
  function RedditProfileData(html: string): (d: Data)
    ensures HasKey(d, "banner_url") <==> Contains(html, REDDIT_BANNER)
    ensures HasKey(d, "avatar_url") <==> Contains(html, REDDIT_AVATAR)
  {
    SecondPieceDefined(html, REDDIT_BANNER);
    SecondPieceDefined(html, REDDIT_AVATAR);
    var fs := [("banner_url", RedditBanner(html)), ("avatar_url", RedditAvatar(html))];
    assert fs[0].0 == "banner_url" && fs[1].0 == "avatar_url";
    Fields(fs)
  }

  // The older engine (SocialMediaService._extract_gab_profile / _extract_tiktok_profile)

  /** Older Gab profile: avatar from the re-serialised page, the flag, and the canonical URL or None. */
  function LegacyGabProfile(page: string, canonical: Option<string>): (d: Data)
    ensures Lookup(d, "profile_exists") == Some(Flag(true))
    ensures HasKey(d, "avatar_url") ==> Contains(page, GAB_AVATAR)
    ensures Lookup(d, "url") == Some(if canonical.Some? then Text(canonical.value) else Null)
  {
    var pe := Entry("profile_exists", Flag(true));
    var url := Entry("url", if canonical.Some? then Text(canonical.value) else Null);
    var avatar := GabAvatar(page);
    HasKeyAppend(Field("avatar_url", avatar), [pe, url], "avatar_url");
    if avatar.Some? then
      var a := Entry("avatar_url", Text(avatar.value));
      assert Field("avatar_url", avatar) + [pe, url] == [a, pe, url];
      assert Lookup([pe, url], "url") == Some(url.value);
      [a, pe, url]
    else
      [pe, url]
  }

  /** Older TikTok profile: the photo from the re-serialised page, then the flag. */
  function LegacyTikTokProfile(page: string): (d: Data)
    ensures Lookup(d, "profile_exists") == Some(Flag(true))
    ensures HasKey(d, "profile_photo") <==> Contains(page, TIKTOK_PHOTO)
  {
    SecondPieceDefined(page, TIKTOK_PHOTO);
    var tail := [Entry("profile_exists", Flag(true))];
    HasKeyAppend(Field("profile_photo", TikTokPhoto(page)), tail, "profile_photo");
    Field("profile_photo", TikTokPhoto(page)) + tail
  }
}
