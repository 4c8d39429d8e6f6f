/**
  The query classifier of the comprehensive engine
  (`ComprehensiveOSINTEngine._determine_search_types` and its predicates).
  Regular expressions are written out: Python's `$` also matches just before
  one final newline, which the predicates below keep; `\d` is taken as the
  ASCII digits and `lower()` as ASCII lower-casing.
*/
module Classifier {
  import opened Text
  import opened Tags

  const URL_DOMAINS := [".com", ".org", ".net"]
  const SHORT_DOMAINS := ["bit.ly", "tinyurl.com", "t.co", "goo.gl", "ow.ly"]
  const IMAGE_EXTENSIONS := [".jpg", ".jpeg", ".png", ".gif", ".webp", ".bmp"]

  /** `_is_url`: an http(s) scheme, or `.com`, `.org` or `.net` anywhere. */
  predicate IsUrl(q: string) {
    StartsWith(q, "http://") || StartsWith(q, "https://") || AnyContained(URL_DOMAINS, q)
  }

  /** `_is_shortened_url`: one of the short-link hosts anywhere in the text. */
  predicate IsShortenedUrl(q: string) {
    AnyContained(SHORT_DOMAINS, q)
  }

  /** `_is_image_url`: the lower-cased text ends in an image extension. */
  predicate IsImageUrl(q: string) {
    exists i :: 0 <= i < |IMAGE_EXTENSIONS| && EndsWith(Lower(q), IMAGE_EXTENSIONS[i])
  }

  /** A member of the character class `[a-zA-Z0-9_.-]`. */
  predicate IsHandleChar(c: char) {
    ('a' <= c <= 'z') || ('A' <= c <= 'Z') || ('0' <= c <= '9') || c == '_' || c == '.' || c == '-'
  }

  predicate AllHandleChars(s: string) {
    forall i :: 0 <= i < |s| ==> IsHandleChar(s[i])
  }

  predicate AllDigits(s: string) {
    forall i :: 0 <= i < |s| ==> IsAsciiDigit(s[i])
  }

  /** `re.match(body + '$', q)` where `body` matches exactly the strings `shape` accepts. */
  predicate FullMatch(q: string, shape: string -> bool) {
    shape(q) || (|q| >= 1 && q[|q| - 1] == '\n' && shape(q[..|q| - 1]))
  }

  /** `re.match(r'^[a-zA-Z0-9_.-]+$', q)`. */
  predicate MatchesHandle(q: string) {
    FullMatch(q, s => |s| >= 1 && AllHandleChars(s))
  }

  /** `_looks_like_username`: 2 to 30 characters of the handle class, and not a URL. */
  predicate LooksLikeUsername(q: string) {
    2 <= |q| <= 30 && MatchesHandle(q) && !IsUrl(q)
  }

  /** `re.match(r'^\d{12}$', q)`: a Pokemon Go trainer code. */
  predicate IsTrainerCode(q: string) {
    FullMatch(q, s => |s| == 12 && AllDigits(s))
  }

  /** The five tag lists the classifier can produce. */
  predicate IsClassification(r: seq<string>) {
    || r == [URL_EXPANSION]
    || r == [IMAGE_ANALYSIS]
    || r == [URL_EXPANSION, IMAGE_ANALYSIS]
    || r == USERNAME_PAIR
    || r == [EMAIL_LOOKUP]
  }

  /** A text of digits and at most a final newline is not a URL and does look like a username. */
  lemma TrainerCodeLooksLikeUsername(q: string)
    ensures IsTrainerCode(q) ==> !IsUrl(q) && LooksLikeUsername(q)
  {
    if IsTrainerCode(q) {
      TrainerCodeShape(q);
    }
  }

  lemma TrainerCodeShape(q: string)
    requires IsTrainerCode(q)
    ensures !IsUrl(q) && LooksLikeUsername(q)
  {
    var body := if |q| == 12 && AllDigits(q) then q else q[..|q| - 1];
    assert IsAsciiDigit(q[0]);
    assert '.' !in q by {
      assert forall i :: 0 <= i < |q| ==> q[i] == '\n' || IsAsciiDigit(q[i]) by {
        forall i | 0 <= i < |q| ensures q[i] == '\n' || IsAsciiDigit(q[i]) {
          if i < |body| {
            assert q[i] == body[i];
          }
        }
      }
    }
    forall k | 0 <= k < |URL_DOMAINS| ensures !Contains(q, URL_DOMAINS[k]) {
      MissingChar(q, URL_DOMAINS[k], 0);
    }
    assert q[..7][0] == q[0] && q[..8][0] == q[0];
    assert AllHandleChars(body);
  }

  /**
    `_determine_search_types`. Inside the URL branch both checks run, so a
    short link ending in an image extension gets both tags; a URL that is
    neither, and any text no branch accepts, falls back to the username pair.
  */
  function DetermineSearchTypes(q: string): (r: seq<string>)
    ensures IsClassification(r)
    ensures URL_EXPANSION in r <==> IsUrl(q) && IsShortenedUrl(q)
    ensures IMAGE_ANALYSIS in r <==> IsUrl(q) && IsImageUrl(q)
    ensures r == [EMAIL_LOOKUP] <==> !IsUrl(q) && !LooksLikeUsername(q) && '@' in q && '.' in q
    ensures r == USERNAME_PAIR <==>
      if IsUrl(q) then !IsShortenedUrl(q) && !IsImageUrl(q)
      else LooksLikeUsername(q) || !('@' in q && '.' in q)
    ensures TRAINER_CODE !in r
  {
    TagsDistinct();
    if IsUrl(q) then
      var found := UrlTypes(IsShortenedUrl(q), IsImageUrl(q));
      if found == [] then USERNAME_PAIR else found
    else
      TrainerCodeLooksLikeUsername(q);
      OtherTypes(LooksLikeUsername(q), '@' in q && '.' in q, IsTrainerCode(q))
  }

  /** The URL branch: the expansion tag for a short link, then the image tag for an image link. */
  function UrlTypes(short: bool, image: bool): (r: seq<string>)
    ensures r == [] <==> !short && !image
    ensures URL_EXPANSION in r <==> short
    ensures IMAGE_ANALYSIS in r <==> image
    ensures r == [] || r == [URL_EXPANSION] || r == [IMAGE_ANALYSIS] || r == [URL_EXPANSION, IMAGE_ANALYSIS]
  {
    TagsDistinct();
    (if short then [URL_EXPANSION] else []) + (if image then [IMAGE_ANALYSIS] else [])
  }

  /**
    The branches for text that is not a URL, with the empty result already
    replaced by the username pair. A trainer code is always a username, so
    its branch is never reached.
  */
  function OtherTypes(username: bool, email: bool, trainer: bool): (r: seq<string>)
    requires trainer ==> username
    ensures r == [EMAIL_LOOKUP] <==> !username && email
    ensures r == USERNAME_PAIR <==> username || !email
    ensures IsClassification(r) && TRAINER_CODE !in r
  {
    TagsDistinct();
    if username then USERNAME_PAIR
    else if email then [EMAIL_LOOKUP]
    else if trainer then [TRAINER_CODE]
    else USERNAME_PAIR
  }

  /** A twelve-digit trainer code is a username as far as the classifier is concerned. */
  lemma TwelveDigitsClassifiedAsUsername(q: string)
    requires |q| == 12 && AllDigits(q)
    ensures LooksLikeUsername(q) && !IsUrl(q)
    ensures DetermineSearchTypes(q) == USERNAME_PAIR
  {
    assert IsTrainerCode(q);
    TrainerCodeLooksLikeUsername(q);
  }

  /** No image extension ends in a character other than `g`, `f` or `p`. */
  lemma LastCharRulesOutImage(q: string)
    requires |q| > 0 && LowerChar(q[|q| - 1]) !in {'g', 'f', 'p'}
    ensures !IsImageUrl(q)
  {
    var low := Lower(q);
    forall i | 0 <= i < |IMAGE_EXTENSIONS| ensures !EndsWith(low, IMAGE_EXTENSIONS[i]) {
      var ext := IMAGE_EXTENSIONS[i];
      if |ext| <= |low| {
        assert low[|low| - |ext|..][|ext| - 1] == low[|low| - 1];
      }
    }
  }

  /** The short link of the source's own demonstration gets only the expansion tag. */
  lemma ShortLinkExample()
    ensures DetermineSearchTypes("https://bit.ly/example") == [URL_EXPANSION]
  {
    var q := "https://bit.ly/example";
    assert StartsWith(q, "https://");
    assert OccursAt(q, "bit.ly", 8);
    assert Contains(q, SHORT_DOMAINS[0]);
    LastCharRulesOutImage(q);
  }

  /** A short link that ends in an image extension gets both tags, expansion first. */
  lemma ShortImageLinkGetsBothTags()
    ensures DetermineSearchTypes("https://bit.ly/a.JPG") == [URL_EXPANSION, IMAGE_ANALYSIS]
  {
    var q := "https://bit.ly/a.JPG";
    assert StartsWith(q, "https://");
    assert OccursAt(q, "bit.ly", 8);
    assert Contains(q, SHORT_DOMAINS[0]);
    assert Lower(q)[|q| - 4..] == ".jpg";
    assert EndsWith(Lower(q), IMAGE_EXTENSIONS[0]);
  }

  /**
    Any text mentioning `reddit.com` is a URL (it contains `.com`) and a short
    link (it contains `t.co`), so it always gets the expansion tag.
  */
  lemma RedditTextIsShortLink(q: string)
    requires Contains(q, "reddit.com")
    ensures IsUrl(q) && IsShortenedUrl(q)
    ensures URL_EXPANSION in DetermineSearchTypes(q)
  {
    var host := "reddit.com";
    assert host[5..9] == "t.co" && host[6..10] == ".com";
    assert OccursAt(host, "t.co", 5) && OccursAt(host, ".com", 6);
    ContainsTransitive(q, host, "t.co");
    ContainsTransitive(q, host, ".com");
    assert Contains(q, SHORT_DOMAINS[2]) && Contains(q, URL_DOMAINS[0]);
  }

  /**
    The short-link test is a plain substring test, so `t.co` also matches
    inside ordinary hosts such as `reddit.com`: a Reddit profile URL is sent
    to the URL expanders rather than to the username searches.
  */
  lemma ShortLinkTestMatchesInsideHosts()
    ensures DetermineSearchTypes("https://reddit.com/user/x") == [URL_EXPANSION]
  {
    var q := "https://reddit.com/user/x";
    assert StartsWith(q, "https://");
    assert OccursAt(q, "t.co", 13);
    assert Contains(q, SHORT_DOMAINS[2]);
    LastCharRulesOutImage(q);
  }
}
