/**
  The older search engine (`OSINTSearchEngine` in the framework module): a
  link expander, a reverse-image prober, Gab and TikTok profile look-ups,
  the loop that picks among them, and its report.
*/
module Legacy {
  import opened Wrappers
  import opened Text
  import opened Records
  import opened Web
  import opened Scrape
  import Utility
  import Reports
  import Social

  // Query shapes (`_looks_like_url`, `_looks_like_image_url`)

  predicate HasScheme(q: string) {
    StartsWith(q, "http://") || StartsWith(q, "https://")
  }

  /** A scheme at the front, or one of two short-link hosts anywhere. */
  predicate LooksLikeUrl(q: string) {
    HasScheme(q) || Contains(q, "bit.ly") || Contains(q, "tinyurl")
  }

  const IMAGE_EXTENSIONS := [".jpg", ".jpeg", ".png", ".gif", ".webp"]

  /** A scheme at the front and, ignoring case, an image extension at the end. */
  predicate LooksLikeImageUrl(q: string) {
    HasScheme(q) && exists i :: 0 <= i < |IMAGE_EXTENSIONS| && EndsWith(Lower(q), IMAGE_EXTENSIONS[i])
  }

  /** Every image link is a link, so the default search of an image link probes both services. */
  lemma ImageUrlIsUrl(q: string)
    ensures LooksLikeImageUrl(q) ==> LooksLikeUrl(q)
  {
  }

  // Link expansion (`URLExpanderService.search`)

  const EXPANDER_SERVICE := "URLExpander"

  /** What one expander reported: the same three templates as the newer engine, without the service link. */
  function ExpanderValue(i: nat, url: string, env: Env): (v: Value)
    requires i < |Utility.EXPANDERS|
    ensures v.Dict?
    ensures Lookup(v.entries, "status") == Some(Text("success")) <==> IsOk(env.fetch(Utility.ExpanderUrl(i, url, env)))
  {
    match env.fetch(Utility.ExpanderUrl(i, url, env))
    case Raised(reason) =>
      Dict([Entry("status", Text("error")), Entry("error", Text(reason))])
    case Got(resp) =>
      if resp.status == 200 then
        var link := env.legacyExpansionLink(Utility.EXPANDERS[i].0, resp);
        Dict([Entry("expanded_url", if link.Some? then Text(link.value) else Null),
              Entry("status", Text("success"))])
      else
        Dict([Entry("status", Text("failed")), Entry("status_code", Number(resp.status))])
  }

  /** `any(r.get('status') == 'success' for r in results.values())`. */
  predicate AnyStatusSuccess(results: Data) {
    exists i :: 0 <= i < |results| && results[i].value.Dict? &&
      Lookup(results[i].value.entries, "status") == Some(Text("success"))
  }

  /** The search succeeds exactly when some expander answered 200. */
  function ExpandUrl(url: string, queryType: string, env: Env): (r: OSINTResult)
    ensures r.service == EXPANDER_SERVICE && r.query == url && r.queryType == queryType
    ensures r.error == None && r.statusCode == None
    ensures r.success <==> exists i :: 0 <= i < |Utility.EXPANDERS| && IsOk(env.fetch(Utility.ExpanderUrl(i, url, env)))
    ensures |r.data| == 1 && r.data[0].key == "results" && r.data[0].value.Dict?
    ensures Keys(r.data[0].value.entries) == ["getlinkinfo", "checkshorturl", "expandurl"]
  {
    var results := seq(|Utility.EXPANDERS|, i requires 0 <= i < |Utility.EXPANDERS| =>
      Entry(Utility.EXPANDERS[i].0, ExpanderValue(i, url, env)));
    assert forall i :: 0 <= i < |Utility.EXPANDERS| ==>
      (Lookup(results[i].value.entries, "status") == Some(Text("success")) <==> IsOk(env.fetch(Utility.ExpanderUrl(i, url, env))));
    OSINTResult(EXPANDER_SERVICE, url, queryType, AnyStatusSuccess(results),
      [Entry("results", Dict(results))], None, None)
  }

  // Reverse image search (`ImageAnalysisService.search`)

  const IMAGE_SERVICE := "ImageAnalysis"

  /** The five engines, in order, with the prefix the quoted image link is appended to. */
  const IMAGE_ENGINES: seq<(string, string)> := [
    ("google", "https://www.google.com/searchbyimage?&image_url="),
    ("yandex", "https://yandex.com/images/search?source=collections&rpt=imageview&url="),
    ("tineye", "https://www.tineye.com/search/?url="),
    ("bing", "https://www.bing.com/images/search?view=detailv2&iss=sbi&form=SBIIRP&sbisrc=UrlPaste&q=imgurl:"),
    ("baidu", "https://graph.baidu.com/details?isfromtusoupc=1tn=pc&carousel=0&image=")]

  function EngineUrl(i: nat, image: string, env: Env): string
    requires i < |IMAGE_ENGINES|
  {
    IMAGE_ENGINES[i].1 + env.quote(image)
  }

  /**
    What one engine reported. Only a page that answered 200 is examined for
    hits; an engine whose request raised has no `accessible` key at all.
  */
  function EngineValue(i: nat, image: string, env: Env): (v: Value)
    requires i < |IMAGE_ENGINES|
    ensures v.Dict?
    ensures Lookup(v.entries, "accessible") == Some(Flag(true)) <==> IsOk(env.fetch(EngineUrl(i, image, env)))
    ensures Lookup(v.entries, "results_found") == Some(Flag(true)) ==> IsOk(env.fetch(EngineUrl(i, image, env)))
    ensures env.fetch(EngineUrl(i, image, env)).Raised? <==> !HasKey(v.entries, "accessible")
  {
    var request := EngineUrl(i, image, env);
    match env.fetch(request)
    case Raised(reason) =>
      Dict([Entry("status", Text("error")), Entry("error", Text(reason))])
    case Got(resp) =>
      var d := [Entry("search_url", Text(request)),
                Entry("status_code", Number(resp.status)),
                Entry("accessible", Flag(resp.status == 200)),
                Entry("results_found", Flag(if resp.status == 200 then env.imageHits(IMAGE_ENGINES[i].0, resp) else false))];
      LookupAt(d, 2);
      LookupAt(d, 3);
      assert HasKey(d, "accessible") by { assert d[2].key == "accessible"; }
      Dict(d)
  }

  /** `any(r.get('accessible') for r in results.values())`: a missing key counts as false. */
  predicate AnyAccessible(results: Data) {
    exists i :: 0 <= i < |results| && results[i].value.Dict? &&
      Lookup(results[i].value.entries, "accessible") == Some(Flag(true))
  }

  /** One entry per engine, in order. */
  function EngineResults(image: string, env: Env): (results: Data)
    ensures Keys(results) == ["google", "yandex", "tineye", "bing", "baidu"]
  {
    var results := seq(|IMAGE_ENGINES|, i requires 0 <= i < |IMAGE_ENGINES| =>
      Entry(IMAGE_ENGINES[i].0, EngineValue(i, image, env)));
    results
  }

  lemma EngineResultsAccessible(image: string, env: Env)
    ensures AnyAccessible(EngineResults(image, env)) <==> exists i :: 0 <= i < |IMAGE_ENGINES| && IsOk(env.fetch(EngineUrl(i, image, env)))
  {
    var results := EngineResults(image, env);
    forall i | 0 <= i < |IMAGE_ENGINES|
      ensures Lookup(results[i].value.entries, "accessible") == Some(Flag(true)) <==> IsOk(env.fetch(EngineUrl(i, image, env)))
    {
      assert results[i] == Entry(IMAGE_ENGINES[i].0, EngineValue(i, image, env));
    }
  }

  /** The search succeeds exactly when some engine answered 200, whether or not it found anything. */
  function AnalyzeImage(image: string, queryType: string, env: Env): (r: OSINTResult)
    ensures r.service == IMAGE_SERVICE && r.query == image && r.queryType == queryType
    ensures r.error == None && r.statusCode == None
    ensures r.success <==> exists i :: 0 <= i < |IMAGE_ENGINES| && IsOk(env.fetch(EngineUrl(i, image, env)))
    ensures |r.data| == 1 && r.data[0].key == "services" && r.data[0].value.Dict?
    ensures Keys(r.data[0].value.entries) == ["google", "yandex", "tineye", "bing", "baidu"]
  {
    var results := EngineResults(image, env);
    EngineResultsAccessible(image, env);
    OSINTResult(IMAGE_SERVICE, image, queryType, AnyAccessible(results),
      [Entry("services", Dict(results))], None, None)
  }

  // Profiles (`SocialMediaService`)

  const SOCIAL_SERVICE := "SocialMedia"

  /** The error text of a page that did not answer 200. */
  function NotFound(status: int): (e: string)
    ensures StartsWith(e, "Profile not found (HTTP ")
  {
    "Profile not found (HTTP " + IntToString(status) + ")"
  }

  /** One profile look-up: a 200 page is parsed by `profile`, anything else is a failure. */
  function ProfileSearch(service: string, url: string, username: string, env: Env, profile: string -> Data): (r: OSINTResult)
    ensures r.service == service && r.query == username && r.queryType == "username"
    ensures r.success <==> IsOk(env.fetch(url))
    ensures r.success ==> r.data == profile(env.fetch(url).response.text) && r.error == None
    ensures !r.success ==> r.data == [] && r.error.Some?
    ensures env.fetch(url).Got? && !r.success ==> r.error == Some(NotFound(env.fetch(url).response.status))
    ensures env.fetch(url).Raised? ==> r.error == Some(env.fetch(url).reason)
  {
    match env.fetch(url)
    case Raised(reason) => Failure(service, username, "username", reason, None)
    case Got(resp) =>
      if resp.status == 200 then Success(service, username, "username", profile(resp.text), None)
      else Failure(service, username, "username", NotFound(resp.status), None)
  }

  /** The Gab page as `_extract_gab_profile` reads it. */
  function GabProfile(env: Env): string -> Data {
    text => LegacyGabProfile(env.soupText(text), env.canonicalHref(text))
  }

  /** The TikTok page as `_extract_tiktok_profile` reads it. */
  function TikTokProfile(env: Env): string -> Data {
    text => LegacyTikTokProfile(env.soupText(text))
  }

  /** `search_gab`: the same profile page as the newer engine's username search, fetched without a browser. */
  function SearchGab(username: string, env: Env): (r: OSINTResult)
    ensures r.service == "Gab" && r.query == username && r.queryType == "username"
    ensures r.success <==> IsOk(env.fetch(Social.GabUrl(username, "username")))
    ensures r.success ==> Lookup(r.data, "profile_exists") == Some(Flag(true))
  {
    var url := Social.GabUrl(username, "username");
    var r := ProfileSearch("Gab", url, username, env, GabProfile(env));
    assert r.success ==> r.data == LegacyGabProfile(env.soupText(env.fetch(url).response.text), env.canonicalHref(env.fetch(url).response.text));
    r
  }

  /** `search_tiktok`: a plain request, where the newer engine drives a browser. */
  function SearchTikTok(username: string, env: Env): (r: OSINTResult)
    ensures r.service == "TikTok" && r.query == username && r.queryType == "username"
    ensures r.success <==> IsOk(env.fetch(Social.TikTokUrl(username, "username")))
    ensures r.success ==> Lookup(r.data, "profile_exists") == Some(Flag(true))
  {
    var url := Social.TikTokUrl(username, "username");
    var r := ProfileSearch("TikTok", url, username, env, TikTokProfile(env));
    assert r.success ==> r.data == LegacyTikTokProfile(env.soupText(env.fetch(url).response.text));
    r
  }

  /** `SocialMediaService.search`: two platform query types; anything else is refused. */
  function SocialMediaSearch(q: string, queryType: string, env: Env): (r: OSINTResult)
    ensures queryType == "gab_username" ==> r == SearchGab(q, env)
    ensures queryType == "tiktok_username" ==> r == SearchTikTok(q, env)
    ensures queryType != "gab_username" && queryType != "tiktok_username" ==>
      r == Failure(SOCIAL_SERVICE, q, queryType, UNSUPPORTED, None)
    ensures r.query == q && (r.success ==> r.queryType == "username")
  {
    if queryType == "gab_username" then SearchGab(q, env)
    else if queryType == "tiktok_username" then SearchTikTok(q, env)
    else Failure(SOCIAL_SERVICE, q, queryType, UNSUPPORTED, None)
  }

  // The engine loop (`search_all`)

  const DEFAULT_TYPES := ["url_expand", "reverse_image", "username"]

  /** What one query type adds to the results; unknown types and unsuitable queries add nothing. */
  function Step(q: string, queryType: string, env: Env): (rs: seq<OSINTResult>)
    ensures |rs| <= 2
    ensures forall i :: 0 <= i < |rs| ==> rs[i].query == q
    ensures queryType == "username" <==> |rs| == 2
    ensures |rs| == 1 <==>
      (queryType == "url_expand" && LooksLikeUrl(q)) || (queryType == "reverse_image" && LooksLikeImageUrl(q))
  {
    if queryType == "url_expand" && LooksLikeUrl(q) then [ExpandUrl(q, "expand", env)]
    else if queryType == "reverse_image" && LooksLikeImageUrl(q) then [AnalyzeImage(q, "reverse_image", env)]
    else if queryType == "username" then [SearchGab(q, env), SearchTikTok(q, env)]
    else []
  }

  /** The results of the loop over `types`, folded from the back. */
  function Steps(q: string, types: seq<string>, env: Env): seq<OSINTResult>
    decreases |types|
  {
    if |types| == 0 then []
    else Steps(q, types[..|types| - 1], env) + Step(q, types[|types| - 1], env)
  }

  /** Every record answers the query, and each type adds at most two. */
  lemma {:induction false} StepsShape(q: string, types: seq<string>, env: Env)
    ensures |Steps(q, types, env)| <= 2 * |types|
    ensures forall i :: 0 <= i < |Steps(q, types, env)| ==> Steps(q, types, env)[i].query == q
    decreases |types|
  {
    if |types| > 0 {
      StepsShape(q, types[..|types| - 1], env);
    }
  }

  /** `search_all`: the listed types in order, or the three defaults when none are given. */
  method SearchAll(q: string, types: Option<seq<string>>, env: Env) returns (results: seq<OSINTResult>)
    ensures results == Steps(q, types.GetOr(DEFAULT_TYPES), env)
    ensures |results| <= 2 * |types.GetOr(DEFAULT_TYPES)|
    ensures forall i :: 0 <= i < |results| ==> results[i].query == q
  {
    var ts := types.GetOr(DEFAULT_TYPES);
    results := RunTypes(q, ts, env);
    StepsShape(q, ts, env);
  }

  /** The loop of `search_all` over the chosen types. */
  method RunTypes(q: string, ts: seq<string>, env: Env) returns (results: seq<OSINTResult>)
    ensures results == Steps(q, ts, env)
  {
    results := [];
    var i := 0;
    while i < |ts|
      invariant 0 <= i <= |ts|
      invariant results == Steps(q, ts[..i], env)
    {
      StepsSnoc(q, ts, i, env);
      results := results + Step(q, ts[i], env);
      i := i + 1;
    }
    assert ts[..|ts|] == ts;
  }

  /** One more type appends exactly its own step. */
  lemma StepsSnoc(q: string, ts: seq<string>, i: nat, env: Env)
    requires i < |ts|
    ensures Steps(q, ts[..i + 1], env) == Steps(q, ts[..i], env) + Step(q, ts[i], env)
  {
    assert ts[..i + 1][..i] == ts[..i];
  }

  /** A plain name with the defaults: only the two profile look-ups run. */
  lemma DefaultsForName(q: string, env: Env)
    requires !LooksLikeUrl(q)
    ensures Steps(q, DEFAULT_TYPES, env) == [SearchGab(q, env), SearchTikTok(q, env)]
  {
    ImageUrlIsUrl(q);
    DefaultsUnfold(q, env);
  }

  lemma StepUrl(q: string, env: Env)
    requires LooksLikeUrl(q)
    ensures Step(q, "url_expand", env) == [ExpandUrl(q, "expand", env)]
  {
  }

  lemma StepImage(q: string, env: Env)
    requires LooksLikeImageUrl(q)
    ensures Step(q, "reverse_image", env) == [AnalyzeImage(q, "reverse_image", env)]
  {
  }

  /** An image link with the defaults: the expander, the image engines, then both profile look-ups. */
  lemma DefaultsForImage(q: string, env: Env)
    requires LooksLikeImageUrl(q)
    ensures Steps(q, DEFAULT_TYPES, env) ==
      [ExpandUrl(q, "expand", env), AnalyzeImage(q, "reverse_image", env), SearchGab(q, env), SearchTikTok(q, env)]
  {
    ImageUrlIsUrl(q);
    DefaultsUnfold(q, env);
    StepUrl(q, env);
    StepImage(q, env);
    StepName(q, env);
    FourInOrder(ExpandUrl(q, "expand", env), AnalyzeImage(q, "reverse_image", env), SearchGab(q, env), SearchTikTok(q, env));
  }

  lemma FourInOrder(a: OSINTResult, b: OSINTResult, c: OSINTResult, d: OSINTResult)
    ensures [a] + [b] + [c, d] == [a, b, c, d]
  {
  }

  lemma StepName(q: string, env: Env)
    ensures Step(q, "username", env) == [SearchGab(q, env), SearchTikTok(q, env)]
  {
  }

  /** Whatever the query, the defaults always run the two profile look-ups, last. */
  lemma DefaultsEndWithProfiles(q: string, env: Env)
    ensures var rs := Steps(q, DEFAULT_TYPES, env);
      |rs| >= 2 && rs[|rs| - 2..] == [SearchGab(q, env), SearchTikTok(q, env)]
  {
    DefaultsUnfold(q, env);
  }

  /** The default loop, one type after another. */
  lemma DefaultsUnfold(q: string, env: Env)
    ensures Steps(q, DEFAULT_TYPES, env) ==
      Step(q, "url_expand", env) + Step(q, "reverse_image", env) + Step(q, "username", env)
  {
    var ts := DEFAULT_TYPES;
    assert ts[..2][..1] == ["url_expand"];
    assert ts[..2][..1][..0] == [];
    assert ts[..2] == ["url_expand", "reverse_image"];
    assert Steps(q, ts[..2][..1], env) == Step(q, "url_expand", env);
    assert Steps(q, ts[..2], env) == Step(q, "url_expand", env) + Step(q, "reverse_image", env);
  }

  // The report (`generate_report`)

  /** One `findings` entry. */
  datatype Finding = Finding(service: string, query: string, kind: string, data: Data)

  function FindingOf(r: OSINTResult): Finding {
    Finding(r.service, r.query, r.queryType, r.data)
  }

  function Itself(r: OSINTResult): OSINTResult { r }

  datatype Report = Report(
    summary: Reports.Summary,
    byService: seq<Reports.Group<OSINTResult>>,
    findings: seq<Finding>)

  /** Counts, the records grouped by service in first-seen order, and the successful records with data. */
  function GenerateReport(rs: seq<OSINTResult>): (rep: Report)
    ensures rep.summary.total == |rs| == rep.summary.successful + rep.summary.failed
    ensures rep.summary.successful == |Reports.Successes(rs)| && rep.summary.failed == |Reports.Failures(rs)|
    ensures Reports.Services(rep.byService) == Reports.FirstSeen(rs) && Reports.Distinct(Reports.Services(rep.byService))
    ensures forall i :: 0 <= i < |rep.byService| ==>
      rep.byService[i].items == Reports.OfService(rs, rep.byService[i].service)
    ensures |rep.findings| == |Reports.Findings(rs)| <= |rs|
    ensures forall f :: f in rep.findings <==> exists r :: r in rs && IsFinding(r) && f == FindingOf(r)
  {
    var groups := Reports.GroupBy(rs, Itself);
    Reports.GroupByServices(rs, Itself);
    Reports.GroupByItems(rs, Itself);
    forall i | 0 <= i < |groups| ensures groups[i].items == Reports.OfService(rs, groups[i].service) {
      MapItself(Reports.OfService(rs, groups[i].service));
    }
    var found := Reports.Findings(rs);
    Reports.FindingsMembers(rs);
    FindingsBound(rs);
    MapMembers(FindingOf, found);
    Report(Reports.Summarize(rs), groups, Reports.MapSeq(FindingOf, found))
  }

  lemma {:induction false} MapItself(xs: seq<OSINTResult>)
    ensures Reports.MapSeq(Itself, xs) == xs
  {
    assert forall i :: 0 <= i < |xs| ==> Reports.MapSeq(Itself, xs)[i] == Itself(xs[i]);
  }

  lemma {:induction false} FindingsBound(rs: seq<OSINTResult>)
    ensures |Reports.Findings(rs)| <= |rs|
    decreases |rs|
  {
    if |rs| > 0 {
      FindingsBound(rs[..|rs| - 1]);
    }
  }

  lemma MapMembers<A, B>(f: A -> B, xs: seq<A>)
    ensures |Reports.MapSeq(f, xs)| == |xs|
    ensures forall y :: y in Reports.MapSeq(f, xs) <==> exists x :: x in xs && y == f(x)
  {
    var ys := Reports.MapSeq(f, xs);
    forall y | y in ys ensures exists x :: x in xs && y == f(x) {
      var i :| 0 <= i < |ys| && ys[i] == y;
      assert xs[i] in xs;
    }
    forall x | x in xs ensures f(x) in ys {
      var i :| 0 <= i < |xs| && xs[i] == x;
      assert ys[i] == f(x);
    }
  }
}
