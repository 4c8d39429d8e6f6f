/**
  The social-media family of the comprehensive engine (`SocialMediaOSINT`):
  the parsing of a `social_…` tag into a platform and a sub-type, the
  dispatch to the five platform searches, and each platform search.
*/
module Social {
  import opened Wrappers
  import opened Text
  import opened Records
  import opened Web
  import opened Scrape
  import opened Tags

  /** The platform a tag addresses (`all` for every platform) and the sub-type passed on. */
  datatype Route = Route(platform: string, subtype: string)

  /** Splitting at `_` yields two or more pieces exactly when there is an `_`, and the head is everything before the first one. */
  lemma FirstUnderscore(s: string)
    ensures |Split(s, "_")| >= 2 <==> '_' in s
    ensures '_' in s ==>
      var parts := Split(s, "_");
      s == parts[0] + "_" + Join(parts[1..], "_") && '_' !in parts[0]
  {
    var parts := Split(s, "_");
    SplitCount(s, '_');
    assert ('_' in s) == ('_' in multiset(s));
    JoinSplit(s, "_");
    if |parts| >= 2 {
      SplitPiecesFree(s, "_");
      ContainsChar(parts[0], '_');
    }
  }

  /** The tag parsing at the head of `SocialMediaOSINT.search`. */
  function ParseTag(tag: string): (r: Route)
    ensures StartsWith(tag, SOCIAL_PREFIX) && '_' in tag[|SOCIAL_PREFIX|..] ==>
      tag == SOCIAL_PREFIX + r.platform + "_" + r.subtype && '_' !in r.platform
    ensures StartsWith(tag, SOCIAL_PREFIX) && '_' !in tag[|SOCIAL_PREFIX|..] ==>
      r == Route(tag[|SOCIAL_PREFIX|..], "username")
    ensures !StartsWith(tag, SOCIAL_PREFIX) && '_' in tag ==>
      tag == r.platform + "_" + r.subtype && '_' !in r.platform
    ensures !StartsWith(tag, SOCIAL_PREFIX) && '_' !in tag ==> r == Route("all", tag)
  {
    if StartsWith(tag, SOCIAL_PREFIX) then
      var remainder := tag[|SOCIAL_PREFIX|..];
      assert tag == SOCIAL_PREFIX + remainder;
      SplitAtUnderscore(remainder, Route(remainder, "username"))
    else SplitAtUnderscore(tag, Route("all", tag))
  }

  /**
    `s.split('_')`: with an underscore, the first piece is the platform and
    the other pieces rejoined are the sub-type; without one, `otherwise`.
  */
  function SplitAtUnderscore(s: string, otherwise: Route): (r: Route)
    ensures '_' in s ==> s == r.platform + "_" + r.subtype && '_' !in r.platform
    ensures '_' !in s ==> r == otherwise
  {
    var parts := Split(s, "_");
    FirstUnderscore(s);
    if |parts| >= 2 then Route(parts[0], Join(parts[1..], "_")) else otherwise
  }

  /** A compound tag `social_<platform>_<rest>` addresses `platform` with sub-type `rest`, whatever `rest` holds. */
  lemma ParseCompoundTag(platform: string, rest: string)
    requires '_' !in platform
    ensures ParseTag(SOCIAL_PREFIX + platform + "_" + rest) == Route(platform, rest)
  {
    var tag := SOCIAL_PREFIX + platform + "_" + rest;
    var remainder := platform + "_" + rest;
    assert tag[|SOCIAL_PREFIX|..] == remainder;
    FirstOccurrenceAfterFreePrefix(platform, "_", rest);
    SplitAtFirst(remainder, "_", |platform|);
    assert remainder[..|platform|] == platform;
    assert remainder[|platform| + 1..] == rest;
    var parts := Split(remainder, "_");
    assert parts == [platform] + Split(rest, "_");
    assert parts[1..] == Split(rest, "_");
    JoinSplit(rest, "_");
  }

  /** A tag `social_<platform>` with no further `_` searches that platform for a username. */
  lemma ParseBareTag(platform: string)
    requires '_' !in platform
    ensures ParseTag(SOCIAL_PREFIX + platform) == Route(platform, "username")
  {
    assert (SOCIAL_PREFIX + platform)[|SOCIAL_PREFIX|..] == platform;
  }

  const PLATFORMS := ["gab", "tiktok", "linkedin", "reddit", "tumblr"]

  /** Which platforms a route's platform name selects: all five, one of them, or none. */
  function SelectPlatforms(platform: string): seq<string> {
    if platform == "all" then PLATFORMS
    else if platform in PLATFORMS then [platform]
    else []
  }

  /** The service name each platform's records carry. */
  function ServiceName(platform: string): string {
    match platform
    case "gab" => "Gab"
    case "tiktok" => "TikTok"
    case "linkedin" => "LinkedIn"
    case "reddit" => "Reddit"
    case _ => "Tumblr"
  }

  // Gab (SocialMediaOSINT.search_gab)

  /** The page a Gab search requests. */
  function GabUrl(q: string, st: string): string {
    if st == "username" then "https://gab.com/" + q else "https://gab.com/tags/" + q
  }

  /** Everything `_extract_gab_data` reports: the scraped fields, then the canonical link and the title. */
  function GabPageData(html: string, env: Env): Data {
    GabData(html) + Field("canonical_url", env.canonicalHref(html)) + Field("page_title", env.pageTitle(html))
  }

  function SearchGab(q: string, st: string, env: Env): (r: OSINTResult)
    ensures r.service == "Gab" && r.query == q && r.queryType == st
    ensures st != "username" && st != "hashtag" ==> r == Failure("Gab", q, st, UNSUPPORTED, None)
    ensures r.success <==> (st == "username" || st == "hashtag") && IsOk(env.fetch(GabUrl(q, st)))
    ensures r.success ==> r.statusCode == Some(200) && |r.data| >= 1 && r.data[0] == Entry("profile_exists", Flag(true))
    ensures !r.success ==> r.data == [] && r.error.Some?
    ensures (st == "username" || st == "hashtag") && env.fetch(GabUrl(q, st)).Got? && !r.success ==>
      r.statusCode == Some(env.fetch(GabUrl(q, st)).response.status)
  {
    if st != "username" && st != "hashtag" then Failure("Gab", q, st, UNSUPPORTED, None)
    else
      match env.fetch(GabUrl(q, st))
      case Raised(e) => Failure("Gab", q, st, e, None)
      case Got(resp) =>
        if resp.status == 200 then Success("Gab", q, st, GabPageData(resp.text, env), Some(resp.status))
        else Failure("Gab", q, st, "Profile not found (HTTP " + IntToString(resp.status) + ")", Some(resp.status))
  }

  // TikTok (SocialMediaOSINT.search_tiktok)

  /** The page a TikTok search loads. */
  function TikTokUrl(q: string, st: string): string {
    if st == "username" then "https://www.tiktok.com/@" + q else "https://www.tiktok.com/tag/" + q
  }

  function SearchTikTok(q: string, st: string, env: Env): (r: OSINTResult)
    ensures r.service == "TikTok" && r.query == q && r.queryType == st
    ensures st != "username" && st != "hashtag" ==> r == Failure("TikTok", q, st, UNSUPPORTED, None)
    ensures r.success <==> (st == "username" || st == "hashtag") && IsOk(env.browse(TikTokUrl(q, st)))
    ensures r.success ==> r.statusCode == Some(200) && |r.data| >= 1 && r.data[0] == Entry("profile_exists", Flag(true))
    ensures !r.success ==> r.data == [] && r.error.Some? && r.statusCode == None
    ensures (st == "username" || st == "hashtag") && env.browse(TikTokUrl(q, st)).Got? && !r.success ==>
      r.error == Some("Could not access TikTok profile")
  {
    if st != "username" && st != "hashtag" then Failure("TikTok", q, st, UNSUPPORTED, None)
    else
      match env.browse(TikTokUrl(q, st))
      case Raised(e) => Failure("TikTok", q, st, e, None)
      case Got(resp) =>
        if resp.status == 200 then Success("TikTok", q, st, TikTokData(resp.text), Some(resp.status))
        else Failure("TikTok", q, st, "Could not access TikTok profile", None)
  }

  // LinkedIn (SocialMediaOSINT.search_linkedin): builds links, requests nothing

  function SearchLinkedIn(q: string, st: string): (r: OSINTResult)
    ensures r.service == "LinkedIn" && r.query == q && r.queryType == st
    ensures r.success && r.error == None && r.statusCode == None
    ensures |r.data| > 0 <==>
      st == "email_lookup" || (StartsWith(q, "https://") && (st == "profile_photo" || st == "recent_activity"))
    ensures st == "profile_photo" && StartsWith(q, "https://") ==>
      Lookup(r.data, "enhanced_photo_url") == Some(Text(q + "detail/photo/"))
    ensures st == "recent_activity" && StartsWith(q, "https://") ==>
      Lookup(r.data, "recent_activity_url") == Some(Text(q + "detail/recent-activity/"))
    ensures st == "email_lookup" ==> Lookup(r.data, "email_lookup_status") == Some(Text("deprecated"))
  {
    var data :=
      if st == "profile_photo" && StartsWith(q, "https://") then
        [Entry("enhanced_photo_url", Text(q + "detail/photo/"))]
      else if st == "recent_activity" && StartsWith(q, "https://") then
        [Entry("recent_activity_url", Text(q + "detail/recent-activity/"))]
      else if st == "email_lookup" then
        [Entry("email_lookup_status", Text("deprecated")),
         Entry("note", Text("LinkedIn removed email lookup functionality"))]
      else [];
    Success("LinkedIn", q, st, data, None)
  }

  // Reddit (SocialMediaOSINT.search_reddit)

  const HTTPS := "https://"
  const REDDIT_HOST := "www.reddit.com/"
  const REMOVEDDIT_HOST := "www.removeddit.com/"

  /** The Removeddit mirror of a Reddit link; nothing for a query that does not mention `reddit.com`. */
  function RemovedditLink(q: string): (r: Option<string>)
    ensures r.Some? <==> Contains(q, "reddit.com")
  {
    if Contains(q, "reddit.com") then Some(Replace(q, REDDIT_HOST, REMOVEDDIT_HOST)) else None
  }

  function SearchReddit(q: string, st: string, env: Env): (r: OSINTResult)
    ensures r.service == "Reddit" && r.query == q && r.queryType == st && r.statusCode == None
    ensures !r.success <==> st == "profile_analysis" && StartsWith(q, "https://") && env.fetch(q).Raised?
    ensures !r.success ==> r.data == [] && r.error == Some(env.fetch(q).reason)
    ensures st == "removeddit" ==> r.success && r.data == Field("removeddit_url", RemovedditLink(q))
    ensures st != "removeddit" && st != "profile_analysis" ==> r.data == []
    ensures st == "profile_analysis" && StartsWith(q, "https://") && IsOk(env.fetch(q)) ==>
      (HasKey(r.data, "banner_url") <==> Contains(env.fetch(q).response.text, REDDIT_BANNER)) &&
      (HasKey(r.data, "avatar_url") <==> Contains(env.fetch(q).response.text, REDDIT_AVATAR))
    ensures st == "profile_analysis" && StartsWith(q, "https://") && env.fetch(q).Got? && !IsOk(env.fetch(q)) ==>
      r.success && r.data == []
  {
    if st == "removeddit" then
      Success("Reddit", q, st, Field("removeddit_url", RemovedditLink(q)), None)
    else if st == "profile_analysis" && StartsWith(q, "https://") then
      match env.fetch(q)
      case Raised(e) => Failure("Reddit", q, st, e, None)
      case Got(resp) =>
        Success("Reddit", q, st, if resp.status == 200 then RedditProfileData(resp.text) else [], None)
    else Success("Reddit", q, st, [], None)
  }

  /** A query without `reddit.com/` after the host is rewritten to the same path on Removeddit. */
  lemma RemovedditRewritesHost(path: string)
    requires !Contains(path, REDDIT_HOST)
    ensures RemovedditLink(HTTPS + REDDIT_HOST + path) == Some(HTTPS + REMOVEDDIT_HOST + path)
  {
    assert REDDIT_HOST[0] == 'w' && 'w' !in HTTPS;
    ReplaceOnce(HTTPS, REDDIT_HOST, path, REMOVEDDIT_HOST);
    assert OccursAt(REDDIT_HOST, "reddit.com", 4);
    ContainsWithin(HTTPS, REDDIT_HOST, path, "reddit.com");
  }

  // Tumblr (SocialMediaOSINT.search_tumblr)

  /** The blog name: the query with `.tumblr.com` removed wherever it occurs. */
  function BlogName(q: string): string {
    if Contains(q, ".tumblr.com") then Replace(q, ".tumblr.com", "") else q
  }

  /** The data a Tumblr lookup reports: four derived links, the avatar API link and whether it answered. */
  function TumblrData(blog: string, avatar: Fetched): Data {
    [Entry("archive_url", Text("http://" + blog + ".tumblr.com/archive")),
     Entry("likes_url", Text("http://" + blog + ".tumblr.com/likes")),
     Entry("following_url", Text("http://" + blog + ".tumblr.com/following")),
     Entry("followers_url", Text("http://" + blog + ".tumblr.com/followers")),
     Entry("avatar_api_url", Text(AvatarApiUrl(blog))),
     Entry("avatar_accessible", Flag(IsOk(avatar)))]
    + (if IsOk(avatar) then [Entry("avatar_direct_url", Text(avatar.response.url))] else [])
  }

  function AvatarApiUrl(blog: string): string {
    "https://api.tumblr.com/v2/blog/" + blog + ".tumblr.com/avatar/512"
  }

  function SearchTumblr(q: string, st: string, env: Env): (r: OSINTResult)
    ensures r.service == "Tumblr" && r.query == q && r.queryType == st
    ensures r.success && r.error == None && r.statusCode == None
    ensures |r.data| == (if IsOk(env.fetch(AvatarApiUrl(BlogName(q)))) then 7 else 6)
    ensures Lookup(r.data, "avatar_accessible") == Some(Flag(IsOk(env.fetch(AvatarApiUrl(BlogName(q))))))
    ensures Lookup(r.data, "archive_url") == Some(Text("http://" + BlogName(q) + ".tumblr.com/archive"))
    ensures HasKey(r.data, "avatar_direct_url") <==> IsOk(env.fetch(AvatarApiUrl(BlogName(q))))
  {
    var blog := BlogName(q);
    var d := TumblrData(blog, env.fetch(AvatarApiUrl(blog)));
    assert d[0].key == "archive_url" && d[5].key == "avatar_accessible";
    assert forall i :: 0 <= i < 6 ==> d[i].key != "avatar_direct_url";
    assert forall j :: 0 <= j < 5 ==> d[j].key != d[5].key;
    LookupAt(d, 0);
    LookupAt(d, 5);
    assert IsOk(env.fetch(AvatarApiUrl(blog))) ==> d[6].key == "avatar_direct_url";
    Success("Tumblr", q, st, d, None)
  }

  /** A blog host name `<name>.tumblr.com`, where the name has no dot, searches the blog `name`. */
  lemma TumblrHostGivesBlogName(name: string)
    requires '.' !in name
    ensures BlogName(name + ".tumblr.com") == name
  {
    var q := name + ".tumblr.com";
    assert q == name + ".tumblr.com" + "";
    assert OccursAt(q, ".tumblr.com", |name|);
    assert Contains(q, ".tumblr.com");
    assert !Contains("", ".tumblr.com");
    ReplaceOnce(name, ".tumblr.com", "", "");
  }

  // Dispatch (SocialMediaOSINT.search)

  /** The search one platform runs. */
  function SearchOn(platform: string, q: string, st: string, env: Env): OSINTResult {
    match platform
    case "gab" => SearchGab(q, st, env)
    case "tiktok" => SearchTikTok(q, st, env)
    case "linkedin" => SearchLinkedIn(q, st)
    case "reddit" => SearchReddit(q, st, env)
    case _ => SearchTumblr(q, st, env)
  }

  /** `[name]` when the route's platform is `all` or `name` itself. */
  function Pick(platform: string, name: string): seq<string> {
    if platform == "all" || platform == name then [name] else []
  }

  /** Testing the five names in turn selects exactly what `SelectPlatforms` describes. */
  lemma PickInOrder(platform: string)
    ensures Pick(platform, "gab") + Pick(platform, "tiktok") + Pick(platform, "linkedin")
      + Pick(platform, "reddit") + Pick(platform, "tumblr") == SelectPlatforms(platform)
  {
  }

  /** Runs the searches a tag selects, in the fixed platform order. */
  function Search(q: string, tag: string, env: Env): (rs: seq<OSINTResult>)
    ensures var route := ParseTag(tag);
      var names := SelectPlatforms(route.platform);
      |rs| == |names| &&
      forall i :: 0 <= i < |rs| ==> rs[i] == SearchOn(names[i], q, route.subtype, env)
  {
    var route := ParseTag(tag);
    var p := route.platform;
    var names := Pick(p, "gab") + Pick(p, "tiktok") + Pick(p, "linkedin") + Pick(p, "reddit") + Pick(p, "tumblr");
    PickInOrder(p);
    seq(|names|, i requires 0 <= i < |names| => SearchOn(names[i], q, route.subtype, env))
  }

  /** A platform search reports the query, the sub-type and the platform's own service name. */
  lemma SearchOnRecord(platform: string, q: string, st: string, env: Env)
    ensures var r := SearchOn(platform, q, st, env);
      r.query == q && r.queryType == st && r.service == ServiceName(platform)
  {
  }

  /** Every record of a social search is about the query and carries the sub-type and its platform's service name. */
  lemma SearchRecords(q: string, tag: string, env: Env)
    ensures var route := ParseTag(tag);
      var names := SelectPlatforms(route.platform);
      var rs := Search(q, tag, env);
      |rs| <= 5 &&
      forall i :: 0 <= i < |rs| ==>
        rs[i].query == q && rs[i].queryType == route.subtype && rs[i].service == ServiceName(names[i])
  {
    var route := ParseTag(tag);
    var names := SelectPlatforms(route.platform);
    var rs := Search(q, tag, env);
    assert |rs| == |names| <= 5;
    forall i | 0 <= i < |rs|
      ensures rs[i].query == q && rs[i].queryType == route.subtype && rs[i].service == ServiceName(names[i])
    {
      assert rs[i] == SearchOn(names[i], q, route.subtype, env);
      SearchOnRecord(names[i], q, route.subtype, env);
    }
  }

  /** A bare tag whose platform part names no platform runs no search at all. */
  lemma UnknownPlatformYieldsNothing(q: string, platform: string, env: Env)
    requires '_' !in platform && platform != "all" && platform !in PLATFORMS
    ensures Search(q, SOCIAL_PREFIX + platform, env) == []
  {
    ParseBareTag(platform);
    var rs := Search(q, SOCIAL_PREFIX + platform, env);
    assert |rs| == |SelectPlatforms(platform)| == 0;
  }

  /**
    The default classification `social_username` parses to the platform
    `username`, which names no platform: the social family returns nothing.
  */
  lemma SocialUsernameYieldsNothing(q: string, env: Env)
    ensures Search(q, SOCIAL_USERNAME, env) == []
  {
    assert SOCIAL_USERNAME == SOCIAL_PREFIX + "username";
    UnknownPlatformYieldsNothing(q, "username", env);
  }

  /** A compound tag naming one platform runs that platform's search alone, with the rest of the tag as sub-type. */
  lemma CompoundTagSearch(q: string, platform: string, rest: string, env: Env)
    requires '_' !in platform && platform in PLATFORMS
    ensures Search(q, SOCIAL_PREFIX + platform + "_" + rest, env) == [SearchOn(platform, q, rest, env)]
  {
    ParseCompoundTag(platform, rest);
    OnePlatformSearch(q, SOCIAL_PREFIX + platform + "_" + rest, platform, rest, env);
  }

  /** A tag that parses to one known platform runs that platform's search alone. */
  lemma OnePlatformSearch(q: string, tag: string, platform: string, st: string, env: Env)
    requires ParseTag(tag) == Route(platform, st) && platform in PLATFORMS
    ensures Search(q, tag, env) == [SearchOn(platform, q, st, env)]
  {
    var rs := Search(q, tag, env);
    assert SelectPlatforms(platform) == [platform];
    assert |rs| == 1 && rs[0] == SearchOn(platform, q, st, env);
  }

  /** The email-lookup tag is the compound tag for LinkedIn with sub-type `email_lookup`. */
  lemma EmailLookupTagShape()
    ensures EMAIL_LOOKUP == SOCIAL_PREFIX + "linkedin" + "_" + "email_lookup"
  {
    var t := SOCIAL_PREFIX + "linkedin" + "_" + "email_lookup";
    assert |t| == |EMAIL_LOOKUP|;
    assert forall i :: 0 <= i < |t| ==> t[i] == EMAIL_LOOKUP[i];
  }

  /** The email-lookup classification reaches LinkedIn alone, which reports the feature as deprecated. */
  lemma EmailLookupReachesLinkedIn(q: string, tag: string, env: Env)
    requires tag == EMAIL_LOOKUP
    ensures Search(q, tag, env) == [SearchLinkedIn(q, "email_lookup")]
  {
    var platform, st := "linkedin", "email_lookup";
    EmailLookupTagShape();
    CompoundTagSearch(q, platform, st, env);
  }
}
