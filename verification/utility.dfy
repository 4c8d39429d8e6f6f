/**
  The utility family of the comprehensive engine (`UtilityOSINT`): the
  expansion of shortened links through three public expanders, the
  Pokémon GO search links, and the routing between them.
*/
module Utility {
  import opened Wrappers
  import opened Text
  import opened Records
  import opened Web

  const SERVICE := "UtilityOSINT"

  /** The three expanders, in the order they are tried, with the prefix the quoted link is appended to. */
  const EXPANDERS: seq<(string, string)> := [
    ("getlinkinfo", "http://www.getlinkinfo.com/info?link="),
    ("checkshorturl", "https://checkshorturl.com/expand.php?u="),
    ("expandurl", "https://www.expandurl.net/expand?url=")]

  /** What one expander reported. */
  datatype Expansion =
    | Expanded(link: Option<string>, serviceUrl: string)
    | Refused(status: int, serviceUrl: string)
    | Errored(reason: string)

  /** The request URL for expander `i`. */
  function ExpanderUrl(i: nat, url: string, env: Env): string
    requires i < |EXPANDERS|
  {
    EXPANDERS[i].1 + env.quote(url)
  }

  /** One pass of the loop in `expand_url`. */
  function Expand(i: nat, url: string, env: Env): (e: Expansion)
    requires i < |EXPANDERS|
    ensures e.Expanded? <==> IsOk(env.fetch(ExpanderUrl(i, url, env)))
    ensures e.Refused? <==> env.fetch(ExpanderUrl(i, url, env)).Got? && !IsOk(env.fetch(ExpanderUrl(i, url, env)))
    ensures !e.Errored? ==> e.serviceUrl == ExpanderUrl(i, url, env)
  {
    var request := ExpanderUrl(i, url, env);
    match env.fetch(request)
    case Raised(reason) => Errored(reason)
    case Got(resp) =>
      if resp.status == 200 then Expanded(env.expansionLink(EXPANDERS[i].0, resp, url), request)
      else Refused(resp.status, request)
  }

  /** The dictionary `expand_url` stores for one expander. */
  function ExpansionValue(e: Expansion): (v: Value)
    ensures v.Dict? && |v.entries| >= 2 && v.entries[0].key == "status"
    ensures v.entries[0].value == Text("success") <==> e.Expanded?
  {
    match e
    case Expanded(link, request) =>
      Dict([Entry("status", Text("success")),
            Entry("expanded_url", if link.Some? then Text(link.value) else Null),
            Entry("service_url", Text(request))])
    case Refused(status, request) =>
      Dict([Entry("status", Text("failed")),
            Entry("status_code", Number(status)),
            Entry("service_url", Text(request))])
    case Errored(reason) =>
      Dict([Entry("status", Text("error")), Entry("error", Text(reason))])
  }

  /** `any(r.get('status') == 'success' for r in results.values())`. */
  predicate AnySuccess(results: Data) {
    exists i :: 0 <= i < |results| && results[i].value.Dict? && |results[i].value.entries| > 0 &&
      results[i].value.entries[0] == Entry("status", Text("success"))
  }

  /** `UtilityOSINT.expand_url`: ask every expander; the search succeeds when any of them answered 200. */
  function ExpandUrl(url: string, env: Env): (r: OSINTResult)
    ensures r.service == SERVICE && r.query == url && r.queryType == "url_expansion"
    ensures r.error == None && r.statusCode == None
    ensures r.success <==> exists i :: 0 <= i < |EXPANDERS| && IsOk(env.fetch(ExpanderUrl(i, url, env)))
    ensures |r.data| == 1 && r.data[0].key == "expansion_results" && r.data[0].value.Dict?
    ensures Keys(r.data[0].value.entries) == ["getlinkinfo", "checkshorturl", "expandurl"]
  {
    var results := seq(|EXPANDERS|, i requires 0 <= i < |EXPANDERS| =>
      Entry(EXPANDERS[i].0, ExpansionValue(Expand(i, url, env))));
    assert forall i :: 0 <= i < |EXPANDERS| ==>
      (results[i].value.entries[0] == Entry("status", Text("success")) <==> IsOk(env.fetch(ExpanderUrl(i, url, env))));
    OSINTResult(SERVICE, url, "url_expansion", AnySuccess(results),
      [Entry("expansion_results", Dict(results))], None, None)
  }

  // Pokémon GO (UtilityOSINT.pokemon_go_search)

  /** The four fixed resource pages reported with every Pokémon GO search. */
  const POKEMON_GO_RESOURCES: Data := [
    Entry("pogotrainer", Text("https://pogotrainer.club/")),
    Entry("gamepress", Text("https://gamepress.gg/pokemongo/trainer-codes-list")),
    Entry("pokelytics", Text("https://pokelytics.com/")),
    Entry("openstreetmap", Text("https://www.openstreetmap.org/"))]

  /** A search link that embeds the query between a fixed prefix and suffix. */
  function Link(key: string, prefix: string, q: string, suffix: string): (e: Entry)
    ensures e.key == key && e.value.Text? && Contains(e.value.s, q)
  {
    assert q[0..|q|] == q;
    assert OccursAt(q, q, 0);
    ContainsWithin(prefix, q, suffix, q);
    Entry(key, Text(prefix + q + suffix))
  }

  /** The search links for a trainer code (three) or a username (four); none for any other kind. */
  function PokemonGoLinks(q: string, kind: string): (d: Data)
    ensures |d| == (if kind == "trainer_code" then 3 else if kind == "username" then 4 else 0)
    ensures forall i :: 0 <= i < |d| ==> d[i].value.Text? && Contains(d[i].value.s, q)
  {
    if kind == "trainer_code" then
      [Link("google", "https://www.google.com/search?q=\"", q, "\""),
       Link("reddit", "https://www.reddit.com/r/PokemonGoFriends/search/?q=", q, "&restrict_sr=1"),
       Link("twitter", "https://twitter.com/search?q=", q, "")]
    else if kind == "username" then
      [Link("friendhuntr", "https://api.friendhuntr.com/distribute/payload-search?username=", q, ""),
       Link("silph", "https://sil.ph/", q, ""),
       Link("pokebattler", "https://www.pokebattler.com/profiles?search=", q, "&page=0#searchResult"),
       Link("trainerdex", "https://www.trainerdex.co.uk/u/", q, "")]
    else []
  }

  function PokemonGoSearch(q: string, kind: string): (r: OSINTResult)
    ensures r.service == SERVICE && r.query == q && r.queryType == "pokemon_go_" + kind
    ensures r.success && r.error == None
    ensures Keys(r.data) == ["search_urls", "pokemon_go_resources"]
    ensures r.data[0].value.Dict? && r.data[0].value.entries == PokemonGoLinks(q, kind)
    ensures r.data[1].value == Dict(POKEMON_GO_RESOURCES)
  {
    Success(SERVICE, q, "pokemon_go_" + kind,
      [Entry("search_urls", Dict(PokemonGoLinks(q, kind))),
       Entry("pokemon_go_resources", Dict(POKEMON_GO_RESOURCES))], None)
  }

  /** `UtilityOSINT.search`: route a utility sub-type to the expander or the Pokémon GO search. */
  function Search(q: string, st: string, env: Env): (r: OSINTResult)
    ensures r.service == SERVICE && r.query == q
    ensures st == "url_expansion" ==> r == ExpandUrl(q, env)
    ensures st != "url_expansion" && StartsWith(st, "pokemon_go") ==>
      r == PokemonGoSearch(q, Replace(st, "pokemon_go_", ""))
    ensures st != "url_expansion" && !StartsWith(st, "pokemon_go") ==>
      r == Failure(SERVICE, q, st, UNSUPPORTED, None)
  {
    if st == "url_expansion" then ExpandUrl(q, env)
    else if StartsWith(st, "pokemon_go") then PokemonGoSearch(q, Replace(st, "pokemon_go_", ""))
    else Failure(SERVICE, q, st, UNSUPPORTED, None)
  }

  /** A `pokemon_go_<kind>` sub-type reaches the Pokémon GO search with `kind`, when `kind` does not itself repeat the prefix. */
  lemma PokemonGoKindRoundTrip(q: string, kind: string, env: Env)
    requires !Contains(kind, "pokemon_go_")
    ensures Search(q, "pokemon_go_" + kind, env) == PokemonGoSearch(q, kind)
    ensures Search(q, "pokemon_go_" + kind, env).queryType == "pokemon_go_" + kind
  {
    var st := "pokemon_go_" + kind;
    assert st[..10] == "pokemon_go";
    assert st != "url_expansion" by { assert st[0] != "url_expansion"[0]; }
    ReplaceLeading("pokemon_go_", kind);
  }
}
