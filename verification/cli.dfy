/**
  The command-line front end's translation of its `--type` and
  `--platforms` options into the engine's search tags, and what the engine
  runs for each choice.
*/
module Cli {
  import opened Wrappers
  import opened Text
  import opened Tags
  import opened Web
  import Social
  import Utility
  import Sultan
  import Engine

  /** `social_<platform>_username` for every comma-separated piece, empty pieces included. */
  function PlatformTags(platforms: string): (tags: seq<string>)
    ensures |tags| == |Split(platforms, ",")|
    ensures forall i :: 0 <= i < |tags| ==> tags[i] == SOCIAL_PREFIX + Split(platforms, ",")[i] + "_username"
  {
    var names := Split(platforms, ",");
    seq(|names|, i requires 0 <= i < |names| => SOCIAL_PREFIX + names[i] + "_username")
  }

  /** The tags every CLI type other than a platform list maps to. */
  predicate IsFixedTag(t: string) {
    t == SOCIAL_USERNAME || t == BULK_USERNAME || t == IMAGE_ANALYSIS || t == URL_EXPANSION || t == TRAINER_CODE
  }

  /** The `--type` choices the command line offers. */
  const CLI_TYPES := ["username", "image", "url", "pokemon", "social", "bulk"]

  /** The choices whose tag list does not depend on `--platforms`. */
  const FIXED_TYPES := ["username", "image", "url", "pokemon", "bulk"]

  /**
    Reads a choice back from its tag list: each fixed choice has a list of
    its own, and anything else is taken for `social`.
  */
  function ChoiceOf(tags: seq<string>): string {
    if tags == USERNAME_PAIR then "username"
    else if tags == [IMAGE_ANALYSIS] then "image"
    else if tags == [URL_EXPANSION] then "url"
    else if tags == [TRAINER_CODE] then "pokemon"
    else if tags == [BULK_USERNAME] then "bulk"
    else "social"
  }

  /** Every fixed choice gets a tag list no other choice gets, so the choice can be read back. */
  lemma ChoiceRoundTrip(searchType: string, platforms: Option<string>)
    requires searchType in FIXED_TYPES
    ensures ChoiceOf(GetSearchTypes(searchType, platforms)) == searchType
  {
  }

  /**
    `get_search_types`: a fixed list per type; `social` with a non-empty
    platform list expands it; an unknown type falls back to `social_username`.
  */
  function GetSearchTypes(searchType: string, platforms: Option<string>): (tags: seq<string>)
    ensures |tags| >= 1
    ensures searchType == "username" ==> tags == USERNAME_PAIR
    ensures searchType == "image" ==> tags == [IMAGE_ANALYSIS]
    ensures searchType == "url" ==> tags == [URL_EXPANSION]
    ensures searchType == "pokemon" ==> tags == [TRAINER_CODE]
    ensures searchType == "bulk" ==> tags == [BULK_USERNAME]
    ensures searchType == "social" && platforms.Some? && platforms.value != "" ==> tags == PlatformTags(platforms.value)
    ensures searchType == "social" && (platforms.None? || platforms.value == "") ==> tags == [SOCIAL_USERNAME]
    ensures searchType !in CLI_TYPES ==> tags == [SOCIAL_USERNAME]
    ensures !(searchType == "social" && platforms.Some? && platforms.value != "") ==>
      |tags| <= 2 && forall i :: 0 <= i < |tags| ==> IsFixedTag(tags[i])
  {
    match searchType
    case "username" => USERNAME_PAIR
    case "image" => [IMAGE_ANALYSIS]
    case "url" => [URL_EXPANSION]
    case "pokemon" => [TRAINER_CODE]
    case "social" =>
      if platforms.Some? && platforms.value != "" then PlatformTags(platforms.value)
      else [SOCIAL_USERNAME]
    case "bulk" => [BULK_USERNAME]
    case _ => [SOCIAL_USERNAME]
  }

  /** A platform list with `n` commas yields `n + 1` tags. */
  lemma PlatformCount(platforms: string)
    ensures |PlatformTags(platforms)| == multiset(platforms)[','] + 1
  {
    SplitCount(platforms, ',');
    assert [','] == ",";
  }

  /** Without underscores in the list, each tag parses back to its platform with the `username` sub-type. */
  lemma PlatformTagsRoute(platforms: string)
    requires platforms != "" && '_' !in platforms
    ensures var tags := PlatformTags(platforms);
      forall i :: 0 <= i < |tags| ==> Social.ParseTag(tags[i]) == Social.Route(Split(platforms, ",")[i], "username")
  {
    var names := Split(platforms, ",");
    var tags := PlatformTags(platforms);
    forall i | 0 <= i < |tags|
      ensures Social.ParseTag(tags[i]) == Social.Route(names[i], "username")
    {
      PieceHasNoUnderscore(platforms, i);
      UsernameTagRoute(names[i]);
    }
  }

  /** A piece of the list holds only characters of the list. */
  lemma PieceHasNoUnderscore(platforms: string, i: nat)
    requires '_' !in platforms && i < |Split(platforms, ",")|
    ensures '_' !in Split(platforms, ",")[i]
  {
    var names := Split(platforms, ",");
    JoinSplit(platforms, ",");
    JoinHolds(names, ",", i);
    if '_' in names[i] {
      CharOfContained(platforms, names[i], '_');
    }
  }

  lemma UsernameTagRoute(platform: string)
    requires '_' !in platform
    ensures Social.ParseTag(SOCIAL_PREFIX + platform + "_username") == Social.Route(platform, "username")
  {
    var tag := SOCIAL_PREFIX + platform + "_username";
    SameTag(platform, "username", tag);
  }

  lemma SameTag(platform: string, rest: string, tag: string)
    requires '_' !in platform && tag == SOCIAL_PREFIX + platform + "_" + rest
    ensures Social.ParseTag(tag) == Social.Route(platform, rest)
  {
    Social.ParseCompoundTag(platform, rest);
  }

  /** A list without commas is a single platform. */
  lemma SinglePlatformTags(platform: string)
    requires ',' !in platform
    ensures PlatformTags(platform) == [SOCIAL_PREFIX + platform + "_username"]
  {
    MissingFirstChar(platform, ",");
  }

  /** `--type username`: the social tag selects no platform, so only the bulk check runs. */
  lemma UsernameTypeRunsOnlyBulkCheck(q: string, platforms: Option<string>, env: Env)
    ensures Engine.Contributions(q, GetSearchTypes("username", platforms), Engine.Concrete(env)) ==
      [Sultan.BulkUsernameCheck(q, env)]
  {
    Engine.PairContributions(q, SOCIAL_USERNAME, BULK_USERNAME, Engine.Concrete(env));
    Engine.SocialUsernameTagAddsNothing(q, env);
    Engine.BulkTag(q, BULK_USERNAME, env);
  }

  /** `--type pokemon` reaches the trainer-code search that query classification never selects. */
  lemma PokemonTypeRunsTrainerSearch(q: string, platforms: Option<string>, env: Env)
    ensures Engine.Contributions(q, GetSearchTypes("pokemon", platforms), Engine.Concrete(env)) ==
      [Utility.PokemonGoSearch(q, "trainer_code")]
  {
    Engine.SingleTag(q, TRAINER_CODE, Engine.Concrete(env));
    Engine.TrainerCodeTagRoute(q, TRAINER_CODE, env);
  }

  /** `--type social` without platforms runs nothing at all. */
  lemma SocialTypeWithoutPlatformsRunsNothing(q: string, searchType: string, env: Env)
    requires searchType == "social"
    ensures Engine.Contributions(q, GetSearchTypes(searchType, None), Engine.Concrete(env)) == []
  {
    assert GetSearchTypes(searchType, None) == [SOCIAL_USERNAME];
    Engine.SingleTag(q, SOCIAL_USERNAME, Engine.Concrete(env));
    Engine.SocialUsernameTagAddsNothing(q, env);
  }

  /** `--type social --platforms gab` runs exactly the Gab username search. */
  lemma SingleKnownPlatformRunsItsSearch(q: string, searchType: string, platform: string, env: Env)
    requires searchType == "social" && platform in Social.PLATFORMS
    ensures Engine.Contributions(q, GetSearchTypes(searchType, Some(platform)), Engine.Concrete(env)) ==
      [Social.SearchOn(platform, q, "username", env)]
  {
    var tag := SOCIAL_PREFIX + platform + "_username";
    PlainPlatformName(platform);
    SocialTypeOneTag(searchType, platform);
    var tags := GetSearchTypes(searchType, Some(platform));
    assert tags == [tag];
    OnePlatformTag(q, platform, "username", tag, env);
  }

  /** `--type social` with a single name yields that platform's username tag alone. */
  lemma SocialTypeOneTag(searchType: string, platform: string)
    requires searchType == "social" && platform != "" && ',' !in platform
    ensures GetSearchTypes(searchType, Some(platform)) == [SOCIAL_PREFIX + platform + "_username"]
  {
    SinglePlatformTags(platform);
  }

  /** The platform names hold neither separator. */
  lemma PlainPlatformName(platform: string)
    requires platform in Social.PLATFORMS
    ensures platform != "" && ',' !in platform && '_' !in platform
  {
  }

  lemma OnePlatformTag(q: string, platform: string, rest: string, tag: string, env: Env)
    requires '_' !in platform && platform in Social.PLATFORMS && tag == SOCIAL_PREFIX + platform + "_" + rest
    ensures Engine.Contributions(q, [tag], Engine.Concrete(env)) == [Social.SearchOn(platform, q, rest, env)]
  {
    Engine.SingleTag(q, tag, Engine.Concrete(env));
    assert StartsWith(tag, SOCIAL_PREFIX) by { assert tag[..|SOCIAL_PREFIX|] == SOCIAL_PREFIX; }
    Engine.SocialTag(q, tag, env);
    Social.CompoundTagSearch(q, platform, rest, env);
  }
}
