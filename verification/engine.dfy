/**
  The orchestration of the comprehensive engine
  (`ComprehensiveOSINTEngine.search_comprehensive`): every search-type tag is
  handed to the service family its prefix names, and the records are
  collected in tag order. An exception escaping a family is logged and
  swallowed, so that tag adds nothing and the later tags still run.

  The families are a parameter that may throw, so the swallowing can be
  stated; `Concrete` wires in the services modelled in this project, which
  catch their own errors and never throw.
*/
module Engine {
  import opened Wrappers
  import opened Text
  import opened Records
  import opened Web
  import opened Tags
  import opened Classifier
  import Social
  import Utility
  import Sultan

  /** The outcome of a call that may raise: its value, or the message of the exception. */
  datatype Raising<T> = Returned(value: T) | Threw(message: string)

  /** The four service families the engine dispatches to. */
  datatype Families = Families(
    social: (string, string) -> Raising<seq<OSINTResult>>,
    image: string -> Raising<OSINTResult>,
    utility: (string, string) -> Raising<OSINTResult>,
    sultan: string -> Raising<OSINTResult>)

  /** The engine's own services: social media, image analysis, utilities and SULTAN. */
  function Concrete(env: Env): Families {
    Families(
      (q, tag) => Returned(Social.Search(q, tag, env)),
      q => Returned(env.imageSearch(q)),
      (q, st) => Returned(Utility.Search(q, st, env)),
      q => Returned(Sultan.Search(q, Sultan.BULK_CHECK, env)))
  }

  /** The utility sub-type of a `utility_…` tag: the tag with every `utility_` removed. */
  function UtilityType(tag: string): string {
    Replace(tag, UTILITY_PREFIX, "")
  }

  /** A returned record, or nothing when the call threw. */
  function Single(r: Raising<OSINTResult>): (rs: seq<OSINTResult>)
    ensures r.Returned? ==> rs == [r.value]
    ensures r.Threw? ==> rs == []
  {
    match r
    case Returned(x) => [x]
    case Threw(_) => []
  }

  /** The family call a tag makes threw. */
  predicate Throws(q: string, tag: string, fam: Families) {
    if StartsWith(tag, SOCIAL_PREFIX) then fam.social(q, tag).Threw?
    else if tag == IMAGE_ANALYSIS then fam.image(q).Threw?
    else if StartsWith(tag, UTILITY_PREFIX) then fam.utility(q, UtilityType(tag)).Threw?
    else if tag == BULK_USERNAME then fam.sultan(q).Threw?
    else false
  }

  /** The tag names a family: a social or utility prefix, image analysis, or the bulk check. */
  predicate Dispatched(tag: string) {
    StartsWith(tag, SOCIAL_PREFIX) || tag == IMAGE_ANALYSIS || StartsWith(tag, UTILITY_PREFIX) || tag == BULK_USERNAME
  }

  /** One pass of the loop in `search_comprehensive`: the records one tag adds. */
  function Contribution(q: string, tag: string, fam: Families): (rs: seq<OSINTResult>)
    ensures Throws(q, tag, fam) || !Dispatched(tag) ==> rs == []
    ensures Dispatched(tag) && !StartsWith(tag, SOCIAL_PREFIX) && !Throws(q, tag, fam) ==> |rs| == 1
  {
    if StartsWith(tag, SOCIAL_PREFIX) then
      match fam.social(q, tag)
      case Returned(xs) => xs
      case Threw(_) => []
    else if tag == IMAGE_ANALYSIS then Single(fam.image(q))
    else if StartsWith(tag, UTILITY_PREFIX) then Single(fam.utility(q, UtilityType(tag)))
    else if tag == BULK_USERNAME then Single(fam.sultan(q))
    else []
  }

  /** The records of a whole tag list: each tag's contribution, in tag order. */
  function Contributions(q: string, tags: seq<string>, fam: Families): seq<OSINTResult>
    decreases |tags|
  {
    if |tags| == 0 then []
    else Contributions(q, tags[..|tags| - 1], fam) + Contribution(q, tags[|tags| - 1], fam)
  }

  /** Collecting over two lists one after the other concatenates their records. */
  lemma {:induction false} ContributionsAppend(q: string, a: seq<string>, b: seq<string>, fam: Families)
    ensures Contributions(q, a + b, fam) == Contributions(q, a, fam) + Contributions(q, b, fam)
    decreases |b|
  {
    if |b| == 0 {
      assert a + b == a;
    } else {
      var ab, init, last := a + b, b[..|b| - 1], b[|b| - 1];
      LastOfAppend(a, b);
      calc {
        Contributions(q, ab, fam);
        Contributions(q, a + init, fam) + Contribution(q, last, fam);
        { ContributionsAppend(q, a, init, fam); }
        Contributions(q, a, fam) + Contributions(q, init, fam) + Contribution(q, last, fam);
        Contributions(q, a, fam) + Contributions(q, b, fam);
      }
    }
  }

  /** Dropping the last tag of `a + b` drops the last tag of `b`. */
  lemma LastOfAppend(a: seq<string>, b: seq<string>)
    requires |b| > 0
    ensures (a + b)[..|a + b| - 1] == a + b[..|b| - 1]
    ensures (a + b)[|a + b| - 1] == b[|b| - 1]
  {
    assert (a + b)[..|a + b| - 1] == a + b[..|b| - 1];
  }

  /** `ComprehensiveOSINTEngine.search_comprehensive`; without a tag list the classifier chooses one. */
  method SearchComprehensive(q: string, tags: Option<seq<string>>, fam: Families) returns (results: seq<OSINTResult>)
    ensures tags.None? ==> results == Contributions(q, DetermineSearchTypes(q), fam)
    ensures tags.Some? ==> results == Contributions(q, tags.value, fam)
  {
    var types := if tags.Some? then tags.value else DetermineSearchTypes(q);
    results := RunTags(q, types, fam);
  }

  /** The loop of `search_comprehensive`: each tag's records appended in turn. */
  method RunTags(q: string, types: seq<string>, fam: Families) returns (results: seq<OSINTResult>)
    ensures results == Contributions(q, types, fam)
  {
    results := [];
    var i := 0;
    while i < |types|
      invariant 0 <= i <= |types|
      invariant results == Contributions(q, types[..i], fam)
    {
      assert types[..i + 1][..i] == types[..i];
      results := results + Contribution(q, types[i], fam);
      i := i + 1;
    }
    assert types[..|types|] == types;
  }

  /** A one-tag list collects that tag's contribution. */
  lemma SingleTag(q: string, tag: string, fam: Families)
    ensures Contributions(q, [tag], fam) == Contribution(q, tag, fam)
  {
    assert [tag][..0] == [];
  }

  /** Contributions of a two-tag list. */
  lemma PairContributions(q: string, first: string, second: string, fam: Families)
    ensures Contributions(q, [first, second], fam) == Contribution(q, first, fam) + Contribution(q, second, fam)
  {
    ContributionsAppend(q, [first], [second], fam);
    assert [first] + [second] == [first, second];
    SingleTag(q, first, fam);
    SingleTag(q, second, fam);
  }

  /** A tag that adds nothing can be cut out of the list. */
  lemma EmptyContributionCut(q: string, before: seq<string>, tag: string, after: seq<string>, fam: Families)
    requires Contribution(q, tag, fam) == []
    ensures Contributions(q, before + [tag] + after, fam) == Contributions(q, before, fam) + Contributions(q, after, fam)
  {
    ContributionsAppend(q, before + [tag], after, fam);
    ContributionsAppend(q, before, [tag], fam);
    SingleTag(q, tag, fam);
  }

  /**
    A tag whose family throws is skipped: the records are exactly those of
    the tags before it followed by those of the tags after it.
  */
  lemma ExceptionIsSwallowed(q: string, before: seq<string>, tag: string, after: seq<string>, fam: Families)
    requires Throws(q, tag, fam)
    ensures Contributions(q, before + [tag] + after, fam) == Contributions(q, before, fam) + Contributions(q, after, fam)
  {
    EmptyContributionCut(q, before, tag, after, fam);
  }

  /** A tag no family claims is skipped in the same way. */
  lemma UnknownTagIsSkipped(q: string, before: seq<string>, tag: string, after: seq<string>, fam: Families)
    requires !Dispatched(tag)
    ensures Contributions(q, before + [tag] + after, fam) == Contributions(q, before, fam) + Contributions(q, after, fam)
  {
    EmptyContributionCut(q, before, tag, after, fam);
  }

  /** With the engine's own services, a social tag adds the social search's records. */
  lemma SocialTag(q: string, tag: string, env: Env)
    requires StartsWith(tag, SOCIAL_PREFIX)
    ensures Contribution(q, tag, Concrete(env)) == Social.Search(q, tag, env)
  {
  }

  /** With the engine's own services, a utility tag adds the utility search for the tag without its prefix. */
  lemma UtilityTag(q: string, tag: string, env: Env)
    requires StartsWith(tag, UTILITY_PREFIX)
    ensures Contribution(q, tag, Concrete(env)) == [Utility.Search(q, UtilityType(tag), env)]
  {
    assert tag[0] == UTILITY_PREFIX[0] != SOCIAL_PREFIX[0];
    assert tag != IMAGE_ANALYSIS by { assert IMAGE_ANALYSIS[0] != tag[0]; }
  }

  /** With the engine's own services, the bulk tag adds SULTAN's bulk check. */
  lemma BulkTag(q: string, tag: string, env: Env)
    requires tag == BULK_USERNAME
    ensures Contribution(q, tag, Concrete(env)) == [Sultan.BulkUsernameCheck(q, env)]
  {
    assert tag[0] != SOCIAL_PREFIX[0] && tag[0] != UTILITY_PREFIX[0];
    assert tag != IMAGE_ANALYSIS by { assert IMAGE_ANALYSIS[0] != tag[0]; }
  }

  /** With the engine's own services, the image tag adds the image search. */
  lemma ImageTag(q: string, tag: string, env: Env)
    requires tag == IMAGE_ANALYSIS
    ensures Contribution(q, tag, Concrete(env)) == [env.imageSearch(q)]
  {
    assert tag[0] != SOCIAL_PREFIX[0];
  }

  /** With the engine's own services, a tag adds at most five records: five only for a social tag that selects every platform. */
  lemma ContributionBound(q: string, tag: string, env: Env)
    ensures |Contribution(q, tag, Concrete(env))| <= 5
  {
    if StartsWith(tag, SOCIAL_PREFIX) {
      SocialTag(q, tag, env);
      Social.SearchRecords(q, tag, env);
    }
  }

  /** The default social tag adds nothing: `social_username` names no platform. */
  lemma SocialUsernameTagAddsNothing(q: string, env: Env)
    ensures Contribution(q, SOCIAL_USERNAME, Concrete(env)) == []
  {
    assert StartsWith(SOCIAL_USERNAME, SOCIAL_PREFIX);
    SocialTag(q, SOCIAL_USERNAME, env);
    Social.SocialUsernameYieldsNothing(q, env);
  }

  /**
    A query that looks like a username is classified for every social
    platform and the bulk check; the social tag selects no platform, so the
    only record is SULTAN's.
  */
  lemma UsernameQueryRunsOnlyBulkCheck(q: string, env: Env)
    requires LooksLikeUsername(q)
    ensures Contributions(q, DetermineSearchTypes(q), Concrete(env)) == [Sultan.BulkUsernameCheck(q, env)]
  {
    assert DetermineSearchTypes(q) == USERNAME_PAIR;
    PairContributions(q, SOCIAL_USERNAME, BULK_USERNAME, Concrete(env));
    SocialUsernameTagAddsNothing(q, env);
    BulkTag(q, BULK_USERNAME, env);
  }

  /** An e-mail address reaches LinkedIn alone. */
  lemma EmailQueryRunsLinkedIn(q: string, env: Env)
    requires !IsUrl(q) && !LooksLikeUsername(q) && '@' in q && '.' in q
    ensures Contributions(q, DetermineSearchTypes(q), Concrete(env)) == [Social.SearchLinkedIn(q, "email_lookup")]
  {
    assert DetermineSearchTypes(q) == [EMAIL_LOOKUP];
    SingleTag(q, EMAIL_LOOKUP, Concrete(env));
    EmailTagRoute(q, EMAIL_LOOKUP, env);
  }

  /** The e-mail tag contributes exactly the LinkedIn e-mail look-up. */
  lemma EmailTagRoute(q: string, tag: string, env: Env)
    requires tag == EMAIL_LOOKUP
    ensures Contribution(q, tag, Concrete(env)) == [Social.SearchLinkedIn(q, "email_lookup")]
  {
    assert tag[..|SOCIAL_PREFIX|] == SOCIAL_PREFIX;
    SocialTag(q, tag, env);
    Social.EmailLookupReachesLinkedIn(q, tag, env);
  }

  /** The expansion tag reaches the URL expanders. */
  lemma UrlExpansionTagRoute(q: string, env: Env)
    ensures Contribution(q, URL_EXPANSION, Concrete(env)) == [Utility.ExpandUrl(q, env)]
  {
    var st := "url_expansion";
    assert URL_EXPANSION == UTILITY_PREFIX + st;
    assert UTILITY_PREFIX[6] == 'y' && 'y' !in st;
    MissingChar(st, UTILITY_PREFIX, 6);
    ReplaceLeading(UTILITY_PREFIX, st);
    assert StartsWith(URL_EXPANSION, UTILITY_PREFIX);
    UtilityTag(q, URL_EXPANSION, env);
  }

  /** A short link that is not an image link is only expanded. */
  lemma ShortLinkQueryIsExpanded(q: string, env: Env)
    requires IsUrl(q) && IsShortenedUrl(q) && !IsImageUrl(q)
    ensures Contributions(q, DetermineSearchTypes(q), Concrete(env)) == [Utility.ExpandUrl(q, env)]
  {
    assert DetermineSearchTypes(q) == [URL_EXPANSION];
    SingleTag(q, URL_EXPANSION, Concrete(env));
    UrlExpansionTagRoute(q, env);
  }

  /** An image link that is not a short link goes to the image analysis alone. */
  lemma ImageQueryIsAnalysed(q: string, env: Env)
    requires IsUrl(q) && IsImageUrl(q) && !IsShortenedUrl(q)
    ensures Contributions(q, DetermineSearchTypes(q), Concrete(env)) == [env.imageSearch(q)]
  {
    assert DetermineSearchTypes(q) == [IMAGE_ANALYSIS];
    SingleTag(q, IMAGE_ANALYSIS, Concrete(env));
    ImageTag(q, IMAGE_ANALYSIS, env);
  }

  /** Stripping the utility prefix from `utility_<st>` gives back `st` when `st` has no `y`, so cannot repeat the prefix. */
  lemma UtilityTypeOf(st: string)
    requires 'y' !in st
    ensures UtilityType(UTILITY_PREFIX + st) == st
  {
    assert UTILITY_PREFIX[6] == 'y';
    MissingChar(st, UTILITY_PREFIX, 6);
    ReplaceLeading(UTILITY_PREFIX, st);
  }

  /** The Pokémon GO trainer sub-type reaches the trainer search. */
  lemma TrainerSubtypeRoute(q: string, env: Env)
    ensures Utility.Search(q, "pokemon_go_" + "trainer_code", env) == Utility.PokemonGoSearch(q, "trainer_code")
  {
    assert "pokemon_go_"[0] == 'p' && 'p' !in "trainer_code";
    MissingChar("trainer_code", "pokemon_go_", 0);
    Utility.PokemonGoKindRoundTrip(q, "trainer_code", env);
  }

  /**
    The trainer-code tag would reach the Pokémon GO trainer search, but the
    classifier never produces it (see `Classifier.TwelveDigitsClassifiedAsUsername`).
  */
  lemma TrainerCodeTagRoute(q: string, tag: string, env: Env)
    requires tag == TRAINER_CODE
    ensures Contribution(q, tag, Concrete(env)) == [Utility.PokemonGoSearch(q, "trainer_code")]
  {
    TrainerCodeTagShape(tag);
    UtilitySubtypeRoute(q, tag, "pokemon_go_" + "trainer_code", env);
    TrainerSubtypeRoute(q, env);
  }

  lemma TrainerCodeTagShape(tag: string)
    requires tag == TRAINER_CODE
    ensures tag == UTILITY_PREFIX + ("pokemon_go_" + "trainer_code") && 'y' !in "pokemon_go_" + "trainer_code"
  {
  }

  /** A tag `utility_<st>`, with no `y` in `st`, adds the utility search for `st`. */
  lemma UtilitySubtypeRoute(q: string, tag: string, st: string, env: Env)
    requires 'y' !in st && tag == UTILITY_PREFIX + st
    ensures Contribution(q, tag, Concrete(env)) == [Utility.Search(q, st, env)]
  {
    UtilityTypeOf(st);
    assert StartsWith(tag, UTILITY_PREFIX) by { assert tag[..|UTILITY_PREFIX|] == UTILITY_PREFIX; }
    UtilityTag(q, tag, env);
  }
}
