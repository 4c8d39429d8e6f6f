/**
  The report of the comprehensive engine
  (`ComprehensiveOSINTEngine.generate_comprehensive_report`,
  `_extract_key_findings` and the rows of `_generate_csv_report`), and the
  grouping by service it shares with the older engine's report.

  The report is built the way the source builds it, one record at a time
  (`Collect`); the lemmas say what the finished report holds in terms of the
  whole record list: groups in first-seen order holding exactly their
  service's records, findings exactly the successful records with data, and
  so on.
*/
module Reports {
  import opened Wrappers
  import opened Text
  import opened Records
  import Classifier
  import Social
  import Sultan
  import Web

  // Sequences

  /** `[f(x) for x in xs]`. */
  function MapSeq<A, B>(f: A -> B, xs: seq<A>): (ys: seq<B>)
    ensures |ys| == |xs| && forall i :: 0 <= i < |xs| ==> ys[i] == f(xs[i])
  {
    seq(|xs|, i requires 0 <= i < |xs| => f(xs[i]))
  }

  lemma MapAppend<A, B>(f: A -> B, xs: seq<A>, ys: seq<A>)
    ensures MapSeq(f, xs + ys) == MapSeq(f, xs) + MapSeq(f, ys)
  {
  }

  predicate Distinct(ss: seq<string>) {
    forall i, j :: 0 <= i < j < |ss| ==> ss[i] != ss[j]
  }

  // Grouping by service

  /** One `results_by_service` entry: a service and what was appended for it, in order. */
  datatype Group<T> = Group(service: string, items: seq<T>)

  function Services<T>(gs: seq<Group<T>>): (ss: seq<string>)
    ensures |ss| == |gs| && forall i :: 0 <= i < |gs| ==> ss[i] == gs[i].service
  {
    seq(|gs|, i requires 0 <= i < |gs| => gs[i].service)
  }

  /** `if service not in groups: groups[service] = []` followed by `groups[service].append(x)`. */
  function AddItem<T>(gs: seq<Group<T>>, service: string, x: T): seq<Group<T>>
    decreases |gs|
  {
    if |gs| == 0 then [Group(service, [x])]
    else if gs[0].service == service then [Group(service, gs[0].items + [x])] + gs[1..]
    else [gs[0]] + AddItem(gs[1..], service, x)
  }

  /** Adding keeps the list of services, or appends `service` when it is new. */
  lemma {:induction false} AddItemServices<T>(gs: seq<Group<T>>, service: string, x: T)
    ensures Services(AddItem(gs, service, x)) ==
      if service in Services(gs) then Services(gs) else Services(gs) + [service]
    decreases |gs|
  {
    if |gs| > 0 && gs[0].service != service {
      var tail := gs[1..];
      AddItemServices(tail, service, x);
      var rest := AddItem(tail, service, x);
      assert Services([gs[0]] + rest) == [gs[0].service] + Services(rest);
      assert Services(gs) == [gs[0].service] + Services(tail);
    } else if |gs| > 0 {
      assert Services(gs)[0] == service;
    }
  }

  /** A new service gets a new group at the end, holding just `x`. */
  lemma {:induction false} AddItemOpens<T>(gs: seq<Group<T>>, service: string, x: T)
    requires service !in Services(gs)
    ensures |AddItem(gs, service, x)| == |gs| + 1
    ensures AddItem(gs, service, x)[|gs|] == Group(service, [x])
    decreases |gs|
  {
    if |gs| > 0 {
      assert Services(gs)[0] == gs[0].service;
      assert Services(gs[1..]) == Services(gs)[1..];
      AddItemOpens(gs[1..], service, x);
    }
  }

  /** With distinct services, only the group of `service` grows, by `x` at its end. */
  lemma {:induction false} AddItemExtends<T>(gs: seq<Group<T>>, service: string, x: T)
    requires Distinct(Services(gs))
    ensures |AddItem(gs, service, x)| >= |gs|
    ensures forall i :: 0 <= i < |gs| ==>
      AddItem(gs, service, x)[i] == Group(gs[i].service, gs[i].items + (if gs[i].service == service then [x] else []))
    decreases |gs|
  {
    if |gs| > 0 {
      var added := AddItem(gs, service, x);
      if gs[0].service == service {
        forall i | 0 < i < |gs| ensures gs[i].service != service {
          assert Services(gs)[0] == service && Services(gs)[i] == gs[i].service;
        }
      } else {
        var tail := gs[1..];
        assert Services(tail) == Services(gs)[1..];
        AddItemExtends(tail, service, x);
        forall i | 0 < i < |gs|
          ensures added[i] == Group(gs[i].service, gs[i].items + (if gs[i].service == service then [x] else []))
        {
          assert added[i] == AddItem(tail, service, x)[i - 1] && gs[i] == tail[i - 1];
        }
      }
    }
  }

  /** The distinct services of `rs`, in the order they first appear. */
  function FirstSeen(rs: seq<OSINTResult>): seq<string>
    decreases |rs|
  {
    if |rs| == 0 then []
    else
      var seen := FirstSeen(rs[..|rs| - 1]);
      var s := rs[|rs| - 1].service;
      if s in seen then seen else seen + [s]
  }

  /** The records of one service, in order. */
  function OfService(rs: seq<OSINTResult>, s: string): seq<OSINTResult>
    decreases |rs|
  {
    if |rs| == 0 then []
    else OfService(rs[..|rs| - 1], s) + (if rs[|rs| - 1].service == s then [rs[|rs| - 1]] else [])
  }

  /** A service that never appears has no records. */
  lemma {:induction false} UnseenHasNone(rs: seq<OSINTResult>, s: string)
    requires s !in FirstSeen(rs)
    ensures OfService(rs, s) == []
    decreases |rs|
  {
    if |rs| > 0 {
      var init := rs[..|rs| - 1];
      assert rs[|rs| - 1].service in FirstSeen(rs);
      assert FirstSeen(init) <= FirstSeen(rs);
      UnseenHasNone(init, s);
    }
  }

  /** The grouping loop: every record, mapped by `f`, appended to its service's group. */
  function GroupBy<T>(rs: seq<OSINTResult>, f: OSINTResult -> T): seq<Group<T>>
    decreases |rs|
  {
    if |rs| == 0 then []
    else AddItem(GroupBy(rs[..|rs| - 1], f), rs[|rs| - 1].service, f(rs[|rs| - 1]))
  }

  /** The groups are the distinct services in first-seen order. */
  lemma {:induction false} GroupByServices<T>(rs: seq<OSINTResult>, f: OSINTResult -> T)
    ensures Services(GroupBy(rs, f)) == FirstSeen(rs)
    ensures Distinct(FirstSeen(rs))
    decreases |rs|
  {
    if |rs| > 0 {
      var init := rs[..|rs| - 1];
      var r := rs[|rs| - 1];
      GroupByServices(init, f);
      AddItemServices(GroupBy(init, f), r.service, f(r));
    }
  }

  /** Each group holds exactly its service's records, mapped by `f`, in order. */
  lemma {:induction false} GroupByItems<T>(rs: seq<OSINTResult>, f: OSINTResult -> T)
    ensures forall i :: 0 <= i < |GroupBy(rs, f)| ==>
      GroupBy(rs, f)[i].items == MapSeq(f, OfService(rs, GroupBy(rs, f)[i].service))
    decreases |rs|
  {
    if |rs| > 0 {
      var init := rs[..|rs| - 1];
      var r := rs[|rs| - 1];
      var before := GroupBy(init, f);
      GroupByItems(init, f);
      GroupByServices(init, f);
      GroupByServices(rs, f);
      AddItemExtends(before, r.service, f(r));
      var after := GroupBy(rs, f);
      forall i | 0 <= i < |after|
        ensures after[i].items == MapSeq(f, OfService(rs, after[i].service))
      {
        var s := after[i].service;
        if i < |before| {
          assert after[i] == Group(before[i].service, before[i].items + (if before[i].service == r.service then [f(r)] else []));
          MapAppend(f, OfService(init, s), if r.service == s then [r] else []);
        } else {
          AddItemServices(before, r.service, f(r));
          assert r.service !in Services(before);
          AddItemOpens(before, r.service, f(r));
          UnseenHasNone(init, r.service);
        }
      }
    }
  }

  // Counting

  function Successes(rs: seq<OSINTResult>): seq<OSINTResult>
    decreases |rs|
  {
    if |rs| == 0 then []
    else Successes(rs[..|rs| - 1]) + (if rs[|rs| - 1].success then [rs[|rs| - 1]] else [])
  }

  function Failures(rs: seq<OSINTResult>): seq<OSINTResult>
    decreases |rs|
  {
    if |rs| == 0 then []
    else Failures(rs[..|rs| - 1]) + (if rs[|rs| - 1].success then [] else [rs[|rs| - 1]])
  }

  /** Every record is counted once, as a success or as a failure. */
  lemma {:induction false} CountsAddUp(rs: seq<OSINTResult>)
    ensures |Successes(rs)| + |Failures(rs)| == |rs|
    ensures forall r :: r in Successes(rs) <==> r in rs && r.success
    ensures forall r :: r in Failures(rs) <==> r in rs && !r.success
    decreases |rs|
  {
    if |rs| > 0 {
      CountsAddUp(rs[..|rs| - 1]);
      assert rs == rs[..|rs| - 1] + [rs[|rs| - 1]];
    }
  }

  /** `search_summary` without the timings. */
  datatype Summary = Summary(total: nat, successful: nat, failed: nat)

  function Summarize(rs: seq<OSINTResult>): (s: Summary)
    ensures s.total == |rs| == s.successful + s.failed
  {
    CountsAddUp(rs);
    Summary(|rs|, |Successes(rs)|, |Failures(rs)|)
  }

  // Findings

  /** The records `_extract_key_findings` is called for: `result.success and result.data`. */
  function Findings(rs: seq<OSINTResult>): seq<OSINTResult>
    decreases |rs|
  {
    if |rs| == 0 then []
    else Findings(rs[..|rs| - 1]) + (if IsFinding(rs[|rs| - 1]) then [rs[|rs| - 1]] else [])
  }

  lemma {:induction false} FindingsMembers(rs: seq<OSINTResult>)
    ensures forall r :: r in Findings(rs) <==> r in rs && IsFinding(r)
    decreases |rs|
  {
    if |rs| > 0 {
      FindingsMembers(rs[..|rs| - 1]);
      assert rs == rs[..|rs| - 1] + [rs[|rs| - 1]];
    }
  }

  /** One `results_by_service` item: the record without its service, timings and status code. */
  datatype ServiceEntry = ServiceEntry(query: string, queryType: string, success: bool, data: Data, error: Option<string>)

  function EntryOf(r: OSINTResult): ServiceEntry {
    ServiceEntry(r.query, r.queryType, r.success, r.data, r.error)
  }

  datatype UrlFinding = UrlFinding(url: string, source: string, context: string)
  datatype ProfileFinding = ProfileFinding(service: string, query: string, data: Data)
  datatype KeyFinding = KeyFinding(service: string, query: string, kind: string, finding: string, details: Data)

  /** The URL-valued text fields of a record, in key order. */
  function UrlsIn(d: Data, source: string): (us: seq<UrlFinding>)
    decreases |d|
  {
    if |d| == 0 then []
    else
      (if d[0].value.Text? && Classifier.IsUrl(d[0].value.s) then [UrlFinding(d[0].value.s, source, d[0].key)] else [])
      + UrlsIn(d[1..], source)
  }

  /** A URL finding is exactly a text field of the record that the classifier calls a URL. */
  lemma {:induction false} UrlsInMeaning(d: Data, source: string, u: UrlFinding)
    ensures u in UrlsIn(d, source) <==>
      u.source == source && Classifier.IsUrl(u.url) && Entry(u.context, Text(u.url)) in d
    decreases |d|
  {
    if |d| > 0 {
      UrlsInMeaning(d[1..], source, u);
      assert d == [d[0]] + d[1..];
    }
  }

  /**
    Python's `str(data)` for the profile test. Strings are quoted with single
    quotes and not escaped.
  */
  function ReprValue(v: Value): string {
    match v
    case Text(s) => "'" + s + "'"
    case Flag(b) => if b then "True" else "False"
    case Number(n) => IntToString(n)
    case Null => "None"
    case Dict(es) =>
      "{" + Join(seq(|es|, i requires 0 <= i < |es| => ReprEntry(es[i], v)), ", ") + "}"
  }

  function ReprEntry(e: Entry, parent: Value): string
    requires parent.Dict? && e in parent.entries
    decreases parent, 0
  {
    "'" + e.key + "': " + ReprValue(e.value)
  }

  function ReprData(d: Data): string {
    ReprValue(Dict(d))
  }

  const PROFILE_SERVICES := ["SocialMediaOSINT", "SULTAN"]

  /** The profile test of `_extract_key_findings`, for a record it is called for. */
  predicate IsProfileRecord(r: OSINTResult) {
    r.service in PROFILE_SERVICES && r.success &&
    (Contains(ReprData(r.data), "profile_exists") || Contains(ReprData(r.data), "profiles_found"))
  }

  /** What the loop has gathered so far. */
  datatype Collected = Collected(
    byService: seq<Group<ServiceEntry>>,
    keyFindings: seq<KeyFinding>,
    urls: seq<UrlFinding>,
    profiles: seq<ProfileFinding>)

  function KeyFindingOf(r: OSINTResult): KeyFinding {
    KeyFinding(r.service, r.query, r.queryType, "Successfully found data on " + r.service, r.data)
  }

  function ProfileOf(r: OSINTResult): ProfileFinding {
    ProfileFinding(r.service, r.query, r.data)
  }

  /** `_extract_key_findings(result, report)`. */
  function ExtractKeyFindings(r: OSINTResult, c: Collected): Collected {
    c.(urls := c.urls + UrlsIn(r.data, r.service),
       profiles := c.profiles + (if IsProfileRecord(r) then [ProfileOf(r)] else []),
       keyFindings := c.keyFindings + (if r.success then [KeyFindingOf(r)] else []))
  }

  /** The loop of `generate_comprehensive_report` over `rs`. */
  function Collect(rs: seq<OSINTResult>): Collected
    decreases |rs|
  {
    if |rs| == 0 then Collected([], [], [], [])
    else
      var r := rs[|rs| - 1];
      var c := Collect(rs[..|rs| - 1]);
      var grouped := c.(byService := AddItem(c.byService, r.service, EntryOf(r)));
      if IsFinding(r) then ExtractKeyFindings(r, grouped) else grouped
  }

  /** The URL findings of every record with findings, in order. */
  function AllUrls(rs: seq<OSINTResult>): seq<UrlFinding>
    decreases |rs|
  {
    if |rs| == 0 then []
    else
      var r := rs[|rs| - 1];
      AllUrls(rs[..|rs| - 1]) + (if IsFinding(r) then UrlsIn(r.data, r.service) else [])
  }

  /** The records with findings that pass the profile test, in order. */
  function ProfileRecords(rs: seq<OSINTResult>): seq<OSINTResult>
    decreases |rs|
  {
    if |rs| == 0 then []
    else
      var r := rs[|rs| - 1];
      ProfileRecords(rs[..|rs| - 1]) + (if IsFinding(r) && IsProfileRecord(r) then [r] else [])
  }

  lemma {:induction false} CollectGroups(rs: seq<OSINTResult>)
    ensures Collect(rs).byService == GroupBy(rs, EntryOf)
    decreases |rs|
  {
    if |rs| > 0 {
      CollectGroups(rs[..|rs| - 1]);
    }
  }

  lemma {:induction false} CollectKeyFindings(rs: seq<OSINTResult>)
    ensures Collect(rs).keyFindings == MapSeq(KeyFindingOf, Findings(rs))
    decreases |rs|
  {
    if |rs| > 0 {
      var init := rs[..|rs| - 1];
      var r := rs[|rs| - 1];
      CollectKeyFindings(init);
      MapAppend(KeyFindingOf, Findings(init), if IsFinding(r) then [r] else []);
    }
  }

  lemma {:induction false} CollectUrls(rs: seq<OSINTResult>)
    ensures Collect(rs).urls == AllUrls(rs)
    decreases |rs|
  {
    if |rs| > 0 {
      CollectUrls(rs[..|rs| - 1]);
    }
  }

  lemma {:induction false} CollectProfiles(rs: seq<OSINTResult>)
    ensures Collect(rs).profiles == MapSeq(ProfileOf, ProfileRecords(rs))
    decreases |rs|
  {
    if |rs| > 0 {
      var init := rs[..|rs| - 1];
      var r := rs[|rs| - 1];
      CollectProfiles(init);
      MapAppend(ProfileOf, ProfileRecords(init), if IsFinding(r) && IsProfileRecord(r) then [r] else []);
    }
  }

  /** A URL is discovered exactly when some record with findings has it as a URL field. */
  lemma {:induction false} AllUrlsMeaning(rs: seq<OSINTResult>, u: UrlFinding)
    ensures u in AllUrls(rs) <==>
      exists i :: 0 <= i < |rs| && IsFinding(rs[i]) && u in UrlsIn(rs[i].data, rs[i].service)
    decreases |rs|
  {
    if |rs| > 0 {
      var init := rs[..|rs| - 1];
      var last := |rs| - 1;
      AllUrlsMeaning(init, u);
      if exists i :: 0 <= i < |init| && IsFinding(init[i]) && u in UrlsIn(init[i].data, init[i].service) {
        var i :| 0 <= i < |init| && IsFinding(init[i]) && u in UrlsIn(init[i].data, init[i].service);
        assert rs[i] == init[i];
      }
      if exists i :: 0 <= i < |rs| && IsFinding(rs[i]) && u in UrlsIn(rs[i].data, rs[i].service) {
        var i :| 0 <= i < |rs| && IsFinding(rs[i]) && u in UrlsIn(rs[i].data, rs[i].service);
        if i < last {
          assert init[i] == rs[i];
        }
      }
    }
  }

  /** The report of `generate_comprehensive_report` in its `dict` form, without timings. */
  datatype Report = Report(
    summary: Summary,
    byService: seq<Group<ServiceEntry>>,
    keyFindings: seq<KeyFinding>,
    urls: seq<UrlFinding>,
    profiles: seq<ProfileFinding>)

  function GenerateComprehensiveReport(rs: seq<OSINTResult>): (rep: Report)
    ensures rep.summary.total == |rs| == rep.summary.successful + rep.summary.failed
    ensures Services(rep.byService) == FirstSeen(rs) && Distinct(Services(rep.byService))
    ensures forall i :: 0 <= i < |rep.byService| ==>
      rep.byService[i].items == MapSeq(EntryOf, OfService(rs, rep.byService[i].service))
    ensures rep.keyFindings == MapSeq(KeyFindingOf, Findings(rs))
    ensures forall u :: u in rep.urls <==>
      exists i :: 0 <= i < |rs| && IsFinding(rs[i]) && u.source == rs[i].service &&
        Classifier.IsUrl(u.url) && Entry(u.context, Text(u.url)) in rs[i].data
    ensures forall p :: p in rep.profiles ==> p.service in PROFILE_SERVICES
  {
    var c := Collect(rs);
    CollectGroups(rs);
    CollectKeyFindings(rs);
    CollectUrls(rs);
    CollectProfiles(rs);
    GroupByServices(rs, EntryOf);
    GroupByItems(rs, EntryOf);
    forall u ensures u in c.urls <==>
      exists i :: 0 <= i < |rs| && IsFinding(rs[i]) && u.source == rs[i].service &&
        Classifier.IsUrl(u.url) && Entry(u.context, Text(u.url)) in rs[i].data
    {
      AllUrlsMeaning(rs, u);
      forall i | 0 <= i < |rs|
        ensures u in UrlsIn(rs[i].data, rs[i].service) <==>
          u.source == rs[i].service && Classifier.IsUrl(u.url) && Entry(u.context, Text(u.url)) in rs[i].data
      {
        UrlsInMeaning(rs[i].data, rs[i].service, u);
      }
    }
    ProfileRecordsFromProfileServices(rs);
    Report(Summarize(rs), c.byService, c.keyFindings, c.urls, c.profiles)
  }

  lemma {:induction false} ProfileRecordsFromProfileServices(rs: seq<OSINTResult>)
    ensures forall p :: p in MapSeq(ProfileOf, ProfileRecords(rs)) ==> p.service in PROFILE_SERVICES
    decreases |rs|
  {
    if |rs| > 0 {
      ProfileRecordsFromProfileServices(rs[..|rs| - 1]);
      var init := rs[..|rs| - 1];
      var r := rs[|rs| - 1];
      MapAppend(ProfileOf, ProfileRecords(init), if IsFinding(r) && IsProfileRecord(r) then [r] else []);
    }
  }

  /**
    The profile test names `SocialMediaOSINT`, but the social searches label
    their records with the platform (`Gab`, `TikTok`, …): no social record is
    ever reported as a profile.
  */
  lemma SocialRecordsAreNeverProfiles(q: string, tag: string, env: Web.Env)
    ensures forall i :: 0 <= i < |Social.Search(q, tag, env)| ==> !IsProfileRecord(Social.Search(q, tag, env)[i])
  {
    Social.SearchRecords(q, tag, env);
    var rs := Social.Search(q, tag, env);
    var names := Social.SelectPlatforms(Social.ParseTag(tag).platform);
    forall i | 0 <= i < |rs| ensures rs[i].service !in PROFILE_SERVICES {
      PlatformLabelIsNoProfileService(names[i]);
    }
  }

  lemma PlatformLabelIsNoProfileService(platform: string)
    ensures Social.ServiceName(platform) !in PROFILE_SERVICES
  {
  }

  /** The text of a dictionary holds the text of each of its entries. */
  lemma ReprHoldsEntry(d: Data, k: nat)
    requires k < |d|
    ensures Contains(ReprData(d), "'" + d[k].key + "': " + ReprValue(d[k].value))
  {
    var v := Dict(d);
    var items := seq(|d|, i requires 0 <= i < |d| => ReprEntry(d[i], v));
    JoinHolds(items, ", ", k);
    assert ReprData(d) == "{" + Join(items, ", ") + "}";
    ContainsWithin("{", Join(items, ", "), "}", items[k]);
    ContainsTransitive(ReprData(d), items[k], items[k]);
  }

  /** A successful bulk check is a finding and passes the profile test, through its `profiles_found` key. */
  lemma BulkCheckIsProfile(username: string, env: Web.Env)
    requires Sultan.BulkUsernameCheck(username, env).success
    ensures IsFinding(Sultan.BulkUsernameCheck(username, env))
    ensures IsProfileRecord(Sultan.BulkUsernameCheck(username, env))
  {
    var r := Sultan.BulkUsernameCheck(username, env);
    assert r.data[1].key == "profiles_found" by { assert Keys(r.data)[1] == r.data[1].key; }
    var text := "'" + r.data[1].key + "': " + ReprValue(r.data[1].value);
    ReprHoldsEntry(r.data, 1);
    ContainsWithin("'", "profiles_found", "': " + ReprValue(r.data[1].value), "profiles_found");
    assert text == "'" + "profiles_found" + ("': " + ReprValue(r.data[1].value));
    ContainsTransitive(ReprData(r.data), text, "profiles_found");
  }

  // CSV export (`_generate_csv_report`)

  /** One CSV row, without the response time and the timestamp. */
  datatype CsvRow = CsvRow(
    service: string,
    query: string,
    queryType: string,
    success: bool,
    statusCode: Option<int>,
    error: string,
    dataKeys: string)

  function CsvRowOf(r: OSINTResult): (row: CsvRow)
    ensures row.service == r.service && row.query == r.query && row.queryType == r.queryType
    ensures row.success == r.success && row.statusCode == r.statusCode
    ensures row.error == r.error.GetOr("")
    ensures |r.data| == 0 ==> row.dataKeys == ""
    ensures |r.data| > 0 ==> row.dataKeys == Join(Keys(r.data), ", ")
  {
    CsvRow(r.service, r.query, r.queryType, r.success, r.statusCode, r.error.GetOr(""),
      if |r.data| > 0 then Join(Keys(r.data), ", ") else "")
  }

  /** Splitting the `Data_Keys` cell at `, ` gives back the keys, when no key holds a comma. */
  lemma DataKeysRoundTrip(r: OSINTResult)
    requires |r.data| > 0
    requires forall i :: 0 <= i < |r.data| ==> ',' !in r.data[i].key
    ensures Split(CsvRowOf(r).dataKeys, ", ") == Keys(r.data)
  {
    var ks := Keys(r.data);
    assert forall k :: 0 <= k < |ks| ==> ", "[0] !in ks[k];
    SplitJoin(ks, ", ");
  }

  /** The export: one row per record, or the fixed notice when there are none. */
  datatype CsvExport = Rows(rows: seq<CsvRow>) | NoResults

  function CsvReport(rs: seq<OSINTResult>): (c: CsvExport)
    ensures c.NoResults? <==> |rs| == 0
    ensures c.Rows? ==> c.rows == MapSeq(CsvRowOf, rs)
  {
    if |rs| > 0 then Rows(MapSeq(CsvRowOf, rs)) else NoResults
  }

  /** What `generate_comprehensive_report` returns for each `output_format`. */
  datatype Output = AsDict(report: Report) | AsJson(jsonOf: Report) | AsCsv(csv: CsvExport)

  function GenerateComprehensiveReportAs(rs: seq<OSINTResult>, format: string): (out: Output)
    ensures format == "json" ==> out == AsJson(GenerateComprehensiveReport(rs))
    ensures format == "csv" ==> out == AsCsv(CsvReport(rs))
    ensures format != "json" && format != "csv" ==> out == AsDict(GenerateComprehensiveReport(rs))
  {
    if format == "json" then AsJson(GenerateComprehensiveReport(rs))
    else if format == "csv" then AsCsv(CsvReport(rs))
    else AsDict(GenerateComprehensiveReport(rs))
  }
}
