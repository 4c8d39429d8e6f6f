/**
  The SULTAN framework of the comprehensive engine (`SULTANFramework`): one
  username probed on five platforms, each answer judged by its status code
  and by indicator phrases in the page.
*/
module Sultan {
  import opened Wrappers
  import opened Text
  import opened Records
  import opened Web

  const SERVICE := "SULTAN"
  const BULK_CHECK := "bulk_username_check"

  /** A probed platform: the profile URL is `prefix + username`. */
  datatype Platform = Platform(
    name: string,
    prefix: string,
    errorIndicators: seq<string>,
    successIndicators: seq<string>)

  const PLATFORMS: seq<Platform> := [
    Platform("GitHub", "https://github.com/", ["Not Found", "404"], ["contributions"]),
    Platform("Twitter", "https://twitter.com/", ["does not exist", "suspended"], ["tweets", "followers"]),
    Platform("Instagram", "https://instagram.com/", ["not found", "error"], ["posts", "followers"]),
    Platform("Reddit", "https://reddit.com/user/", ["not found", "suspended"], ["karma", "trophy"]),
    Platform("YouTube", "https://youtube.com/@", ["not found", "404"], ["subscribers", "videos"])]

  /** Platforms whose pages answer 200 even for missing accounts, and get a second check. */
  const STRICT_PLATFORMS := ["Twitter", "Instagram", "YouTube"]

  /** The phrases of that second check. */
  const ACCOUNT_ERRORS := ["not found", "does not exist", "suspended", "account suspended"]

  /** Every phrase lower-cased. */
  function LowerAll(phrases: seq<string>): (r: seq<string>)
    ensures |r| == |phrases| && forall i :: 0 <= i < |r| ==> r[i] == Lower(phrases[i])
  {
    seq(|phrases|, i requires 0 <= i < |phrases| => Lower(phrases[i]))
  }

  /** `SULTANFramework._analyze_platform_response`. */
  function AnalyzeResponse(resp: Response, p: Platform): (found: bool)
    ensures resp.status == 404 ==> !found
    ensures resp.status == 403 ==> found
    ensures resp.status != 200 && resp.status != 403 ==> !found
    ensures resp.status == 200 ==>
      (found <==>
        !AnyContained(LowerAll(p.errorIndicators), Lower(resp.text)) &&
        !(p.name in STRICT_PLATFORMS && AnyContained(ACCOUNT_ERRORS, Lower(resp.text))))
  {
    var low := Lower(resp.text);
    if resp.status == 404 then false
    else if resp.status == 403 then true
    else if resp.status != 200 then false
    else if AnyContained(LowerAll(p.errorIndicators), low) then false
    else if p.name in STRICT_PLATFORMS then !AnyContained(ACCOUNT_ERRORS, low)
    else if AnyContained(LowerAll(p.successIndicators), low) then true
    else true
  }

  /** Whatever the success indicators say, the verdict is the same: they never decide anything. */
  lemma {:induction false} SuccessIndicatorsNeverDecide(resp: Response, p: Platform, others: seq<string>)
    ensures AnalyzeResponse(resp, p) == AnalyzeResponse(resp, p.(successIndicators := others))
  {
    var p' := p.(successIndicators := others);
    assert p'.name == p.name && p'.errorIndicators == p.errorIndicators;
  }

  /** The profile URL probed on `p`. */
  function ProfileUrl(p: Platform, username: string): string {
    p.prefix + username
  }

  /** Whether the probe on `p` counts the profile as existing; a request that raised counts as absent. */
  predicate Exists(p: Platform, username: string, env: Env) {
    var f := env.fetch(ProfileUrl(p, username));
    f.Got? && AnalyzeResponse(f.response, p)
  }

  /** The dictionary stored for one platform. */
  function ProbeValue(p: Platform, username: string, env: Env): (v: Value)
    ensures v.Dict? && |v.entries| == 4
    ensures v.entries[0] == Entry("url", Text(ProfileUrl(p, username)))
    ensures v.entries[2] == Entry("exists", Flag(Exists(p, username, env)))
    ensures v.entries[3] == Entry("accessible", Flag(IsOk(env.fetch(ProfileUrl(p, username)))))
  {
    var url := ProfileUrl(p, username);
    match env.fetch(url)
    case Got(resp) =>
      Dict([Entry("url", Text(url)),
            Entry("status_code", Number(resp.status)),
            Entry("exists", Flag(AnalyzeResponse(resp, p))),
            Entry("accessible", Flag(resp.status == 200))])
    case Raised(reason) =>
      Dict([Entry("url", Text(url)),
            Entry("error", Text(reason)),
            Entry("exists", Flag(false)),
            Entry("accessible", Flag(false))])
  }

  /** How many of `ps` report the profile as existing. */
  function Found(ps: seq<Platform>, username: string, env: Env): nat
    decreases |ps|
  {
    if |ps| == 0 then 0
    else Found(ps[..|ps| - 1], username, env) + (if Exists(ps[|ps| - 1], username, env) then 1 else 0)
  }

  /** The count is at most the number of platforms, and positive exactly when some platform reports the profile. */
  lemma {:induction false} FoundBounds(ps: seq<Platform>, username: string, env: Env)
    ensures Found(ps, username, env) <= |ps|
    ensures Found(ps, username, env) > 0 <==> exists i :: 0 <= i < |ps| && Exists(ps[i], username, env)
    decreases |ps|
  {
    if |ps| > 0 {
      var init := ps[..|ps| - 1];
      FoundBounds(init, username, env);
      if exists i :: 0 <= i < |init| && Exists(init[i], username, env) {
        var i :| 0 <= i < |init| && Exists(init[i], username, env);
        assert ps[i] == init[i];
      }
      if exists i :: 0 <= i < |ps| && Exists(ps[i], username, env) {
        var i :| 0 <= i < |ps| && Exists(ps[i], username, env);
        if i < |init| {
          assert init[i] == ps[i];
        }
      }
    }
  }

  const PLATFORM_NAMES := ["GitHub", "Twitter", "Instagram", "Reddit", "YouTube"]

  /** The `results` dictionary: one probe per platform, keyed by the platform's name, in platform order. */
  function ProbeAll(username: string, env: Env): (results: Data)
    ensures Keys(results) == PLATFORM_NAMES
    ensures forall i :: 0 <= i < |PLATFORMS| ==>
      results[i].value.Dict? && |results[i].value.entries| == 4 &&
      results[i].value.entries[2] == Entry("exists", Flag(Exists(PLATFORMS[i], username, env)))
  {
    var results := seq(|PLATFORMS|, i requires 0 <= i < |PLATFORMS| =>
      Entry(PLATFORMS[i].name, ProbeValue(PLATFORMS[i], username, env)));
    assert forall i :: 0 <= i < |PLATFORMS| ==> PLATFORMS[i].name == PLATFORM_NAMES[i];
    results
  }

  /** The closing sentence of a bulk check. */
  function Summary(found: nat, username: string): string {
    "Found " + NatToString(found) + " profiles for username '" + username + "'"
  }

  /** `SULTANFramework.bulk_username_check`. */
  function BulkUsernameCheck(username: string, env: Env): (r: OSINTResult)
    ensures r.service == SERVICE && r.query == username && r.queryType == BULK_CHECK
    ensures r.error == None && r.statusCode == None
    ensures r.success <==> exists i :: 0 <= i < |PLATFORMS| && Exists(PLATFORMS[i], username, env)
    ensures |r.data| == 4 && Keys(r.data) == ["platforms_checked", "profiles_found", "results", "summary"]
    ensures r.data[0].value == Number(|PLATFORMS|)
    ensures r.data[1].value == Number(Found(PLATFORMS, username, env)) && Found(PLATFORMS, username, env) <= |PLATFORMS|
    ensures r.data[2].value == Dict(ProbeAll(username, env))
    ensures r.data[3].value == Text(Summary(Found(PLATFORMS, username, env), username))
  {
    var found := Found(PLATFORMS, username, env);
    FoundBounds(PLATFORMS, username, env);
    var data := [
      Entry("platforms_checked", Number(|PLATFORMS|)),
      Entry("profiles_found", Number(found)),
      Entry("results", Dict(ProbeAll(username, env))),
      Entry("summary", Text(Summary(found, username)))];
    OSINTResult(SERVICE, username, BULK_CHECK, found > 0, data, None, None)
  }

  /** `SULTANFramework.search`: only the bulk check is supported. */
  function Search(q: string, st: string, env: Env): (r: OSINTResult)
    ensures st == BULK_CHECK ==> r == BulkUsernameCheck(q, env)
    ensures st != BULK_CHECK ==> r == Failure(SERVICE, q, st, "Unsupported query type for SULTAN", None)
  {
    if st == BULK_CHECK then BulkUsernameCheck(q, env)
    else Failure(SERVICE, q, st, "Unsupported query type for SULTAN", None)
  }
}
