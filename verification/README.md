# OSINT search dispatch, modelled in Dafny

This project models the decision logic of a Python OSINT ("open-source
intelligence") toolkit. It covers six parts:

- **Query classifier** (`_determine_search_types` and its predicates). It turns a free-text query
  into search tags such as `utility_url_expansion`, `image_analysis`,
  `social_username` + `bulk_username`, or `social_linkedin_email_lookup`.
- **Comprehensive engine** (`search_comprehensive`). It routes each tag to one of four service
  families:
  - social media (Gab, TikTok, LinkedIn, Reddit, Tumblr);
  - image analysis;
  - utilities (URL expansion, Pokémon Go look-ups);
  - the SULTAN bulk username check.

  It also swallows any exception a family raises.
- **The services themselves**, as far as they are decision logic:
  - the result record each one builds;
  - the string-splitting scrapers for Gab, TikTok and Reddit pages;
  - the SULTAN existence test on an HTTP status and page text;
  - the found-profile count.
- **Report** (`generate_comprehensive_report`, `_extract_key_findings` and the CSV rows):
  - counts;
  - results grouped by service in first-seen order;
  - key findings;
  - discovered URLs;
  - profiles.
- **Older engine** (`OSINTSearchEngine` in `osint_api_framework.py`):
  - its URL and image predicates;
  - its expander and image services;
  - its Gab and TikTok profile searches;
  - `search_all`;
  - its report.
- **CLI mapping** (`get_search_types` in `osint_cli.py`). It turns `--type` and `--platforms` into tags.

Everything is a pure function over immutable datatypes:

- Python dictionaries are insertion-ordered lists of entries (`Records.Data`).
- Python's `str.split`, `join`, `replace`, `startswith`, `endswith`, `in`, `lower` and `strip`
  are written out in `Text`. `split` keeps empty pieces.
- The network is the record `Web.Env`. It holds:
  - `fetch` (the `requests` path);
  - `browse` (the Selenium path);
  - `quote`;
  - the HTML parsers the source delegates to BeautifulSoup;
  - the image-analysis family.

  A request either returns a response (`Got`) or raises (`Raised`).
- In the engine, each service family is a function that may raise (`Engine.Families`). This lets the
  exception swallowing be stated for any family. `Engine.Concrete(env)` then plugs in the modelled
  services.

The properties below are proved of the code as written. Some of them describe behaviour a reader
of the code might not expect:

- **The classifier is not first-match inside its URL branch.** The short-link test and the
  image-extension test both run, so `https://bit.ly/a.JPG` gets both the expansion tag and the image
  tag (`Classifier.ShortImageLinkGetsBothTags`).
- **The Pokémon Go trainer-code branch of the classifier is unreachable for ASCII digits.** Every
  query of twelve ASCII digits also looks like a username, which is tested earlier
  (`Classifier.TwelveDigitsClassifiedAsUsername`). Python's `\d` also accepts other Unicode digits,
  which the username test's `[a-zA-Z0-9_.-]` rejects. So in the source a query of twelve such digits
  (Arabic-Indic digits, say) does reach the trainer-code branch; the model covers ASCII only (see
  "## Left out"). Otherwise only an explicit tag list reaches the trainer-code search: the CLI's
  `--type pokemon` (`Cli.PokemonTypeRunsTrainerSearch`) or the web form's trainer-code checkbox.
- **The `social_username` tag selects no platform.** It parses to the platform `username`, so it
  yields no social record (`Social.SocialUsernameYieldsNothing`). Consequences:
  - a query that looks like a username runs only the SULTAN check (`Engine.UsernameQueryRunsOnlyBulkCheck`);
  - `--type social` without platforms runs nothing at all (`Cli.SocialTypeWithoutPlatformsRunsNothing`).
- **The short-link test is a substring test.** `t.co` occurs inside `reddit.com/…`, so every Reddit URL
  is sent to the URL expanders (`Classifier.RedditTextIsShortLink`, with the example
  `Classifier.ShortLinkTestMatchesInsideHosts`).
- **Social records never become profiles.** The report's profile test names the service
  `SocialMediaOSINT`, but social records carry the platform name (`Gab`, `TikTok`, …). So no social
  record ever becomes a profile (`Reports.SocialRecordsAreNeverProfiles`), and only successful SULTAN
  checks do (`Reports.BulkCheckIsProfile`).
- **The SULTAN success indicators never decide anything.** A 200 response without an error phrase
  counts as found either way (`Sultan.SuccessIndicatorsNeverDecide`).

## Model

| member | source | states |
|---|---|---|
| Classifier.DetermineSearchTypes | comprehensive_osint_api.py:1007-1037 | The tags are always one of five lists, never empty. The expansion tag is present iff the query is a URL with a short-link domain. The image tag is present iff it is a URL with an image ending. The e-mail tag alone is returned iff the query is not a URL, does not look like a username, and holds '@' and '.'. The username pair is returned iff no other rule applies. The trainer-code tag is never returned. |
| Classifier.UrlTypes | comprehensive_osint_api.py:1012-1016 | Inside the URL branch both tests run: the expansion tag iff short, the image tag iff image, in that order; the list is empty only when neither holds. |
| Classifier.OtherTypes | comprehensive_osint_api.py:1019-1035 | Outside the URL branch, the e-mail tag is chosen iff the query does not look like a username and has '@' and '.'. Every other case ends in the default username pair, because the trainer-code case implies the username case. |
| Classifier.TrainerCodeShape | comprehensive_osint_api.py:1030 | A query of twelve ASCII digits is not a URL and looks like a username. |
| Classifier.TrainerCodeLooksLikeUsername | comprehensive_osint_api.py:1053-1060 | Any text matching the trainer-code pattern passes the username test and fails the URL test. |
| Classifier.TwelveDigitsClassifiedAsUsername | comprehensive_osint_api.py:1019-1031 | Twelve ASCII digits are classified as a username, never as a trainer code. |
| Classifier.LastCharRulesOutImage | comprehensive_osint_api.py:1048-1051 | A query whose last letter, lower-cased, is not g, f or p has no image extension. |
| Classifier.ShortLinkExample | comprehensive_osint_api.py:1043-1046 | `https://bit.ly/example` is classified for URL expansion only. |
| Classifier.ShortImageLinkGetsBothTags | comprehensive_osint_api.py:1012-1016 | A short link ending in `.JPG` gets both the expansion and the image tag. |
| Classifier.ShortLinkTestMatchesInsideHosts | comprehensive_osint_api.py:1045-1046 | A Reddit profile URL is classified as a short link because `t.co` occurs inside it. |
| Classifier.RedditTextIsShortLink | comprehensive_osint_api.py:1039-1046 | Any text containing `reddit.com` is a URL (it contains `.com`) and a short link (it contains `t.co`), so it always gets the expansion tag. |
| Social.ParseTag | comprehensive_osint_api.py:543-559 | `social_P_R` gives platform P and the rest R rejoined; `social_X` gives X with `username`; an untagged `A_B` gives A and B; an untagged word gives platform `all`. |
| Social.ParseCompoundTag | comprehensive_osint_api.py:543-549 | For an underscore-free platform, `social_` + platform + `_` + rest parses back to exactly that platform and rest. |
| Social.ParseBareTag | comprehensive_osint_api.py:550-552 | `social_` + an underscore-free platform parses to that platform with the `username` sub-type. |
| Social.SearchGab | comprehensive_osint_api.py:167-223 | Only `username` and `hashtag` make a request; other types fail without one. Success holds iff the page answers 200, and then the data starts with `profile_exists`. Failure has empty data and an error; a non-200 answer keeps its status. |
| Social.SearchTikTok | comprehensive_osint_api.py:271-327 | As for Gab, but through the browser path; a failed look-up has no status code. |
| Social.SearchLinkedIn | comprehensive_osint_api.py:383-412 | Always succeeds without a request. Data appears only for a photo or activity look-up on an `https://` URL (the URL extended by the detail path) or for the e-mail look-up (marked deprecated). |
| Social.RemovedditLink | comprehensive_osint_api.py:432-436 | A Removeddit link is produced iff the query mentions `reddit.com`. |
| Social.RemovedditRewritesHost | comprehensive_osint_api.py:434-435 | A `https://www.reddit.com/` URL maps to the same path on `www.removeddit.com`. |
| Social.SearchReddit | comprehensive_osint_api.py:425-487 | Fails iff a profile analysis of an `https://` URL raises, carrying that error. Removeddit look-ups always succeed with the rewritten link. Other types have empty data. A 200 page yields the scraped banner and avatar; any other answer yields no data. |
| Social.SearchTumblr | comprehensive_osint_api.py:489-525 | Always succeeds. It holds six URLs and the avatar flag, plus the direct avatar URL exactly when the avatar request answers 200. |
| Social.TumblrHostGivesBlogName | comprehensive_osint_api.py:495 | `name.tumblr.com` yields the blog name `name`. |
| Social.Search | comprehensive_osint_api.py:538-572 | The results follow the fixed platform order Gab, TikTok, LinkedIn, Reddit, Tumblr, each included iff the parsed platform is `all` or its own name; so there are 0, 1 or 5 results. |
| Social.SearchRecords | comprehensive_osint_api.py:561-570 | Every social record answers the query with the parsed sub-type and carries its platform's service name. |
| Social.UnknownPlatformYieldsNothing | comprehensive_osint_api.py:561-572 | A tag naming an unknown platform yields no record. |
| Social.SocialUsernameYieldsNothing | comprehensive_osint_api.py:543-572 | The tag `social_username` yields no record, because its platform is `username`. |
| Social.CompoundTagSearch | comprehensive_osint_api.py:543-570 | A compound tag for a known platform runs exactly that platform's search with the rest as sub-type. |
| Social.EmailLookupReachesLinkedIn | comprehensive_osint_api.py:565-566 | The e-mail tag runs exactly the LinkedIn e-mail look-up. |
| Scrape.GabData | comprehensive_osint_api.py:225-227 | Gab page data always starts with `profile_exists`. |
| Scrape.GabAvatarFields | comprehensive_osint_api.py:229-237 | The avatar and full-size avatar appear together, and only when the page has the parallax marker. |
| Scrape.GabHeaderField | comprehensive_osint_api.py:239-246 | A header image appears only when the page has the header marker. |
| Scrape.GabVideoFields | comprehensive_osint_api.py:248-257 | The video URL and thumbnail appear together, and only when the page has the `playsinline=` marker. |
| Scrape.TikTokData | comprehensive_osint_api.py:329-381 | The profile photo, upload date, thumbnail and full-size photo appear iff their markers occur. A download URL needs both the poster and the `src` marker. |
| Scrape.TikTokUploadDateIsDelimited | comprehensive_osint_api.py:342-350 | The upload date exists iff its marker occurs. It is the text right after the marker, up to but not including the next quote. |
| Scrape.TrimImageUrl | comprehensive_osint_api.py:459-463 | An avatar URL is cut after its first `.png`, else after its first `.jpg`, and is a prefix of the original; otherwise it is unchanged. |
| Scrape.RedditProfileData | comprehensive_osint_api.py:443-467 | The banner and avatar appear iff their markers occur in the page. |
| Scrape.LegacyGabProfile | osint_api_framework.py:285-303 | Older Gab data always marks the profile as existing; it has an avatar only when the parallax marker occurs, and its `url` is the canonical link or null. |
| Scrape.LegacyTikTokProfile | osint_api_framework.py:305-320 | Older TikTok data always marks the profile as existing and has a photo iff the background-image marker occurs. |
| Utility.Expand | comprehensive_osint_api.py:716-739 | One expander ends in success iff its request answers 200. It is refused iff the request answers anything else, and it errors iff the request raises. |
| Utility.ExpansionValue | comprehensive_osint_api.py:723-739 | An expander entry's status is `success` iff the expansion succeeded. |
| Utility.ExpandUrl | comprehensive_osint_api.py:711-748 | Expansion succeeds iff some expander's request answers 200, and the results hold exactly the three expanders in order. |
| Utility.PokemonGoLinks | comprehensive_osint_api.py:754-769 | Three search links for a trainer code, four for a username, none otherwise; each link contains the query. |
| Utility.PokemonGoSearch | comprehensive_osint_api.py:750-781 | Always succeeds with the `pokemon_go_` sub-type, the search links and the fixed resource list. |
| Utility.Search | comprehensive_osint_api.py:813-828 | Routes `url_expansion` to the expander and `pokemon_go…` to the Pokémon Go search with the prefix removed. Every other type fails without a request. |
| Utility.PokemonGoKindRoundTrip | comprehensive_osint_api.py:817-819 | `pokemon_go_` + kind reaches the Pokémon Go search for that kind, and the record's type is the original tag. |
| Sultan.AnalyzeResponse | comprehensive_osint_api.py:918-950 | Status 404 means absent, 403 means present, and any other non-200 status means absent. A 200 page is present iff none of the platform's error phrases occurs and, for Twitter, Instagram and YouTube, none of the four generic phrases either. |
| Sultan.SuccessIndicatorsNeverDecide | comprehensive_osint_api.py:944-950 | Changing a platform's success indicators never changes the decision. |
| Sultan.ProbeValue | comprehensive_osint_api.py:878-902 | Each platform entry records the profile URL, the existence decision, and whether the request answered 200. |
| Sultan.FoundBounds | comprehensive_osint_api.py:876-894 | The found count is at most the number of platforms, and positive iff some platform decides present. |
| Sultan.ProbeAll | comprehensive_osint_api.py:837-902 | The results have one entry per configured platform, keyed by its name, in order. |
| Sultan.BulkUsernameCheck | comprehensive_osint_api.py:872-916 | The check succeeds iff some platform has the profile. The data holds the platform count (5), the found count (at most 5), the per-platform results and the summary line. |
| Sultan.Search | comprehensive_osint_api.py:952-964 | Only `bulk_username_check` runs the check; any other type fails without a request. |
| Engine.Contribution | comprehensive_osint_api.py:983-1003 | A tag that raises or matches no family contributes nothing. A non-social dispatched tag that does not raise contributes exactly one record. |
| Engine.ContributionsAppend | comprehensive_osint_api.py:983-1005 | The output for a list of tags is the concatenation, in order, of each tag's contribution. |
| Engine.SearchComprehensive | comprehensive_osint_api.py:976-1005 | Without tags, the query's own classification is run; with tags, exactly those tags are run, in order. |
| Engine.RunTags | comprehensive_osint_api.py:981-1005 | The loop collects each tag's contribution in tag order. |
| Engine.SingleTag | comprehensive_osint_api.py:983-1003 | A one-tag list yields that tag's contribution. |
| Engine.PairContributions | comprehensive_osint_api.py:983-1003 | A two-tag list yields the two contributions in order. |
| Engine.EmptyContributionCut | comprehensive_osint_api.py:983-1005 | A tag that contributes nothing can be removed without changing the output. |
| Engine.ExceptionIsSwallowed | comprehensive_osint_api.py:1002-1003 | A tag whose family raises is skipped, and the tags around it still run. |
| Engine.UnknownTagIsSkipped | comprehensive_osint_api.py:983-1000 | A tag matching no family is skipped, and the tags around it still run. |
| Engine.SocialTag | comprehensive_osint_api.py:985-990 | A `social_` tag contributes the whole social result list. |
| Engine.ImageTag | comprehensive_osint_api.py:992-993 | The image tag contributes the image-analysis record. |
| Engine.UtilityTag | comprehensive_osint_api.py:995-997 | A `utility_` tag contributes the utility record for the tag with `utility_` removed. |
| Engine.BulkTag | comprehensive_osint_api.py:999-1000 | The bulk tag contributes the SULTAN bulk check. |
| Engine.ContributionBound | comprehensive_osint_api.py:983-1000 | No tag contributes more than five records. |
| Engine.SocialUsernameTagAddsNothing | comprehensive_osint_api.py:985-990 | The `social_username` tag contributes nothing. |
| Engine.UsernameQueryRunsOnlyBulkCheck | comprehensive_osint_api.py:1019-1023 | A query that looks like a username yields exactly one record, the SULTAN bulk check. |
| Engine.EmailQueryRunsLinkedIn | comprehensive_osint_api.py:1026-1027 | An e-mail-like query yields exactly the LinkedIn e-mail look-up. |
| Engine.UrlExpansionTagRoute | comprehensive_osint_api.py:995-997 | The expansion tag runs the URL expander. |
| Engine.ShortLinkQueryIsExpanded | comprehensive_osint_api.py:1012-1014 | A short-link URL without an image ending yields exactly the expansion record. |
| Engine.ImageQueryIsAnalysed | comprehensive_osint_api.py:1015-1016 | An image URL that is not a short link yields exactly the image-analysis record. |
| Engine.UtilityTypeOf | comprehensive_osint_api.py:996 | Removing `utility_` from `utility_` + a sub-type without 'y' gives back the sub-type. |
| Engine.UtilitySubtypeRoute | comprehensive_osint_api.py:995-997 | A `utility_` tag runs the utility search on its sub-type. |
| Engine.TrainerSubtypeRoute | comprehensive_osint_api.py:817-819 | The trainer-code sub-type reaches the Pokémon Go search for trainer codes. |
| Engine.TrainerCodeTagRoute | comprehensive_osint_api.py:995-997 | The trainer-code tag yields exactly the Pokémon Go trainer-code search. |
| Reports.GroupByServices | comprehensive_osint_api.py:1079-1083 | The report's service groups follow the order in which each service first appears, without repeats. |
| Reports.GroupByItems | comprehensive_osint_api.py:1079-1091 | Each group holds exactly the entries of that service's records, in order. |
| Reports.CountsAddUp | comprehensive_osint_api.py:1065-1068 | The successful and failed records together number all records, and each holds exactly the records of its kind. |
| Reports.Summarize | comprehensive_osint_api.py:1065-1068 | The total equals the number of records and the sum of successes and failures. |
| Reports.FindingsMembers | comprehensive_osint_api.py:1094-1095 | A record is a finding iff it succeeded with non-empty data. |
| Reports.UrlsInMeaning | comprehensive_osint_api.py:1108-1115 | A discovered URL comes from exactly a string value that the URL test accepts, tagged with its key and service. |
| Reports.CollectGroups | comprehensive_osint_api.py:1079-1091 | The report loop's grouping equals the declarative grouping. |
| Reports.CollectKeyFindings | comprehensive_osint_api.py:1126-1134 | The loop's key findings are one entry per finding, in order. |
| Reports.CollectUrls | comprehensive_osint_api.py:1108-1115 | The loop's URL list equals the URLs of all findings, in order. |
| Reports.CollectProfiles | comprehensive_osint_api.py:1117-1124 | The loop's profile list is one entry per profile record, in order. |
| Reports.AllUrlsMeaning | comprehensive_osint_api.py:1094-1115 | A URL is discovered iff some successful record with data holds it as a string value that passes the URL test. |
| Reports.GenerateComprehensiveReport | comprehensive_osint_api.py:1062-1102 | The report satisfies the counts, the first-seen grouping, one key finding per finding, the URL membership condition, and profiles drawn only from profile services. |
| Reports.ProfileRecordsFromProfileServices | comprehensive_osint_api.py:1118 | Every profile comes from the `SocialMediaOSINT` or `SULTAN` service. |
| Reports.SocialRecordsAreNeverProfiles | comprehensive_osint_api.py:1118-1124 | No record returned by the social search is ever reported as a profile. |
| Reports.PlatformLabelIsNoProfileService | comprehensive_osint_api.py:1118 | No platform's service name is one of the two profile services. |
| Reports.ReprHoldsEntry | comprehensive_osint_api.py:1119 | The rendered data text contains every entry's `'key': value` text. |
| Reports.BulkCheckIsProfile | comprehensive_osint_api.py:1117-1124 | A successful SULTAN check is a finding and is reported as a profile. |
| Reports.CsvRowOf | comprehensive_osint_api.py:1141-1151 | A CSV row carries the record's service, query, type, success, status and error (empty for none). Its data-keys cell is empty for empty data and otherwise lists the keys joined by ", ". |
| Reports.DataKeysRoundTrip | comprehensive_osint_api.py:1149 | When no key contains a comma, splitting the data-keys cell at ", " gives back the keys. |
| Reports.CsvReport | comprehensive_osint_api.py:1136-1157 | The export is "no results" iff there are no records; otherwise it is one row per record, in order. |
| Reports.GenerateComprehensiveReportAs | comprehensive_osint_api.py:1097-1102 | `json` gives the report as JSON, `csv` gives the CSV export, and any other format gives the report itself. |
| Legacy.ImageUrlIsUrl | osint_api_framework.py:365-371 | A query that looks like an image URL also looks like a URL. |
| Legacy.ExpanderValue | osint_api_framework.py:86-105 | An expander's status is `success` iff its request answers 200. |
| Legacy.ExpandUrl | osint_api_framework.py:80-113 | Expansion succeeds iff some expander's request answers 200, and the results hold exactly the three expanders. |
| Legacy.EngineValue | osint_api_framework.py:163-176 | An engine is accessible iff its request answers 200. Results are found only then. The accessible flag is missing iff the request raised. |
| Legacy.EngineResultsAccessible | osint_api_framework.py:157-183 | Some engine is accessible iff some engine's request answers 200. |
| Legacy.AnalyzeImage | osint_api_framework.py:157-185 | Image analysis succeeds iff some engine's request answers 200, and the results hold exactly the five engines in order. |
| Legacy.ProfileSearch | osint_api_framework.py:211-246 | A profile search succeeds iff the page answers 200. A failure has empty data, and its error is the not-found message with the status or the raised reason. |
| Legacy.SearchGab | osint_api_framework.py:211-246 | The older Gab search succeeds iff the Gab page answers 200, and then reports the profile as existing (except for a canonical link without `href`, see "## Left out"). |
| Legacy.SearchTikTok | osint_api_framework.py:248-283 | The older TikTok search succeeds iff the TikTok page answers 200, and then reports the profile as existing. |
| Legacy.SocialMediaSearch | osint_api_framework.py:322-336 | Only `gab_username` and `tiktok_username` are routed; every other type fails with "Unsupported query type" and no data. |
| Legacy.Step | osint_api_framework.py:354-361 | `url_expand` adds one record iff the query looks like a URL. `reverse_image` adds one iff it looks like an image URL. `username` adds exactly two. Anything else adds none. |
| Legacy.StepsShape | osint_api_framework.py:354-363 | Every result answers the query, and each type adds at most two. |
| Legacy.SearchAll | osint_api_framework.py:347-363 | The results are the steps of the given types, or of the three defaults, in order. |
| Legacy.DefaultsForName | osint_api_framework.py:349-363 | A non-URL query with the defaults yields exactly the Gab and TikTok records. |
| Legacy.DefaultsForImage | osint_api_framework.py:349-363 | An image URL with the defaults yields expansion, image analysis, Gab and TikTok, in that order. |
| Legacy.DefaultsEndWithProfiles | osint_api_framework.py:349-363 | With the defaults, any query yields at least two records, the last two being Gab then TikTok. |
| Legacy.GenerateReport | osint_api_framework.py:373-398 | The counts add up. Each record sits in its service's group in first-seen order. There is one finding per record that succeeded with data. |
| Cli.GetSearchTypes | osint_cli.py:123-141 | `username` gives the username pair, `image` the image tag, `url` the expansion tag, `pokemon` the trainer-code tag and `bulk` the bulk tag. `social` with a non-empty platform list gives one tag per listed platform; `social` without one, and any unknown type, give `[social_username]`. |
| Cli.ChoiceRoundTrip | osint_cli.py:123-141 | Each of the five fixed choices gets a tag list of its own, so the choice can be read back from its tags. |
| Cli.PlatformTags | osint_cli.py:134-135 | There is one `social_<p>_username` tag per comma-separated piece, in order. |
| Cli.PlatformCount | osint_cli.py:134-135 | A platform list with n commas yields n + 1 tags. |
| Cli.PlatformTagsRoute | osint_cli.py:135 | With no underscore in the list, each generated tag parses back to its platform with the `username` sub-type. |
| Cli.UsernameTypeRunsOnlyBulkCheck | osint_cli.py:125-126 | `--type username` runs only the SULTAN bulk check. |
| Cli.PokemonTypeRunsTrainerSearch | osint_cli.py:131-132 | `--type pokemon` runs exactly the trainer-code search. |
| Cli.SocialTypeWithoutPlatformsRunsNothing | osint_cli.py:136-137 | `--type social` without platforms runs nothing. |
| Cli.SingleKnownPlatformRunsItsSearch | osint_cli.py:133-135 | `--type social` with one known platform runs exactly that platform's username search. |

## Left out

- Response times, the report's total response time and timestamps: they are clock readings.
- Rate limiting, retries with back-off and user-agent rotation: these happen inside a request, which
  the model treats as one abstract call (`Web.Env.fetch`).
- Selenium: the browser path is the separate abstract call `Web.Env.browse`. Whether Selenium is
  available is folded into its outcome.
- BeautifulSoup parsing: the canonical link, page title and page text are functions of the page
  passed in with `Web.Env`.
- The `ImageAnalysisOSINT` family of the comprehensive engine: it is one abstract call
  (`Web.Env.imageSearch`).
- `_parse_expansion_response` in both engines and `_analyze_image_results`: they are HTML scraping and
  are passed in with `Web.Env`.
- The percent-encoding of URLs (`quote`): it is passed in with `Web.Env`.
- Reports.ReprHoldsEntry: Python's `repr` of the data is approximated by single-quoted keys and
  values without escaping. The profile test is modelled as a substring test on that text.
- The JSON and CSV text: the model stops at the report and the row records.
- `save_results`, file output, logging, the CLI's argument parsing and printing, and the web front end
  `osint_web.py`: these are I/O.
- Classifier.DetermineSearchTypes: `\d` and `str.lower` are modelled for ASCII only. Python's `\d`
  also accepts other Unicode digits, so in the source twelve non-ASCII digits fail the username test
  and are classified as a trainer code; the model's claim that the trainer-code tag is never returned
  holds for ASCII digits only.
- Social.SearchGab: a canonical link without an `href` is treated as absent. The source would
  store `None` under `canonical_url`.
- Scrape.LegacyGabProfile: a canonical link without an `href` is treated as absent. The source would
  raise `KeyError`, which the surrounding search turns into a failed record.
- Legacy.SearchGab: for the same reason, a 200 page whose canonical link has no `href` succeeds in the
  model, while the source's search catches the `KeyError` and returns a failed record.
- Web.Env: a request is a function of its URL, so two requests to the same URL are assumed to give the
  same answer.
