/**
  Everything the services need from the outside world, given as functions.
  A request is a function of its URL: rate limiting, retries with back-off
  and user-agent rotation happen inside `fetch`, which either yields the
  final response or the exception that survived the last retry. The parsers
  that walk a BeautifulSoup tree are given the same way.
*/
module Web {
  import opened Wrappers
  import opened Records

  /** The parts of a `requests.Response` the code reads. */
  datatype Response = Response(status: int, text: string, url: string)

  /** Outcome of one request: a response, or the message of the exception raised. */
  datatype Fetched = Got(response: Response) | Raised(reason: string)

  datatype Env = Env(
    /** `session.request('GET', url)` after rate limiting and up to three attempts. */
    fetch: string -> Fetched,
    /** The Selenium page load used for TikTok, falling back to `fetch` when no driver starts. */
    browse: string -> Fetched,
    /** `urllib.parse.quote`. */
    quote: string -> string,
    /** `UtilityOSINT._parse_expansion_response(service, response, original_url)`. */
    expansionLink: (string, Response, string) -> Option<string>,
    /** `ImageAnalysisOSINT.search(query)`: five reverse-image engines and an EXIF lookup. */
    imageSearch: string -> OSINTResult,
    /** `URLExpanderService._parse_expansion_response(service, response)` of the older engine. */
    legacyExpansionLink: (string, Response) -> Option<string>,
    /** `ImageAnalysisService._analyze_image_results(service, response)` of the older engine. */
    imageHits: (string, Response) -> bool,
    /** `str(BeautifulSoup(text, 'html.parser'))`: the page re-serialised by the parser. */
    soupText: string -> string,
    /** The `href` of the page's `<link rel="canonical">`, if there is one. */
    canonicalHref: string -> Option<string>,
    /** The text of the page's `<title>`, if there is one. */
    pageTitle: string -> Option<string>)

  /** A response arrived and its status code is 200. */
  predicate IsOk(f: Fetched) {
    f.Got? && f.response.status == 200
  }
}
