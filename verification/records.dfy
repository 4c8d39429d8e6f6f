/**
  The result record every service returns (`OSINTResult` in both engines).
  `data` is an insertion-ordered dictionary, kept as a sequence of entries so
  that the order in which Python inserts keys is preserved. The timestamp and
  the measured response time are not modelled.
*/
module Records {
  import opened Wrappers

  /** A value stored in a `data` dictionary. */
  datatype Value =
    | Text(s: string)
    | Flag(b: bool)
    | Number(n: int)
    | Null
    | Dict(entries: seq<Entry>)

  /** One `key: value` pair of a dictionary. */
  datatype Entry = Entry(key: string, value: Value)

  /** An insertion-ordered dictionary. */
  type Data = seq<Entry>

  /** `list(d.keys())`. */
  function Keys(d: Data): (ks: seq<string>)
    ensures |ks| == |d|
    ensures forall i :: 0 <= i < |d| ==> ks[i] == d[i].key
  {
    seq(|d|, i requires 0 <= i < |d| => d[i].key)
  }

  predicate HasKey(d: Data, k: string) {
    exists i :: 0 <= i < |d| && d[i].key == k
  }

  predicate DistinctKeys(d: Data) {
    forall i, j :: 0 <= i < j < |d| ==> d[i].key != d[j].key
  }

  /** `d.get(k)`: the value stored under `k`, if any. */
  function Lookup(d: Data, k: string): (r: Option<Value>)
    ensures r.Some? <==> HasKey(d, k)
    ensures r.Some? ==> exists i :: 0 <= i < |d| && d[i] == Entry(k, r.value)
    decreases |d|
  {
    if |d| == 0 then None
    else if d[0].key == k then Some(d[0].value)
    else
      var r := Lookup(d[1..], k);
      assert forall i :: 1 <= i < |d| ==> d[i] == d[1..][i - 1];
      r
  }

  /** The entry at `i` is the one found when no earlier entry has its key. */
  lemma {:induction false} LookupAt(d: Data, i: nat)
    requires i < |d| && forall j :: 0 <= j < i ==> d[j].key != d[i].key
    ensures Lookup(d, d[i].key) == Some(d[i].value)
    decreases i
  {
    if i > 0 {
      assert d[1..][i - 1] == d[i];
      LookupAt(d[1..], i - 1);
    }
  }

  /** `{key: v}` when `v` is present, nothing otherwise. */
  function Field(key: string, v: Option<string>): (d: Data)
    ensures forall k {:trigger HasKey(d, k)} :: HasKey(d, k) <==> k == key && v.Some?
  {
    if v.Some? then
      assert [Entry(key, Text(v.value))][0].key == key;
      [Entry(key, Text(v.value))]
    else []
  }

  /** A key is present in `a + b` exactly when it is present in `a` or in `b`. */
  lemma HasKeyAppend(a: Data, b: Data, k: string)
    ensures HasKey(a + b, k) <==> HasKey(a, k) || HasKey(b, k)
  {
    if HasKey(a + b, k) {
      var i :| 0 <= i < |a + b| && (a + b)[i].key == k;
      if i >= |a| {
        assert b[i - |a|].key == k;
      }
    }
    if HasKey(a, k) {
      var i :| 0 <= i < |a| && a[i].key == k;
      assert (a + b)[i].key == k;
    }
    if HasKey(b, k) {
      var i :| 0 <= i < |b| && b[i].key == k;
      assert (a + b)[|a| + i].key == k;
    }
  }

  /**
    The text fields an extractor found, in order, each written only when its
    value is present (Python's `try: data[key] = … except IndexError: pass`).
  */
  function Fields(fs: seq<(string, Option<string>)>): (d: Data)
    ensures forall k {:trigger HasKey(d, k)} ::
      HasKey(d, k) <==> exists i :: 0 <= i < |fs| && fs[i].0 == k && fs[i].1.Some?
    decreases |fs|
  {
    if |fs| == 0 then []
    else
      var head := Field(fs[0].0, fs[0].1);
      var tail := Fields(fs[1..]);
      forall k ensures HasKey(head + tail, k) <==> exists i :: 0 <= i < |fs| && fs[i].0 == k && fs[i].1.Some? {
        HasKeyAppend(head, tail, k);
        if HasKey(tail, k) {
          var i :| 0 <= i < |fs[1..]| && fs[1..][i].0 == k && fs[1..][i].1.Some?;
          assert fs[i + 1] == fs[1..][i];
        }
        if exists i :: 0 <= i < |fs| && fs[i].0 == k && fs[i].1.Some? {
          var i :| 0 <= i < |fs| && fs[i].0 == k && fs[i].1.Some?;
          if i > 0 {
            assert fs[1..][i - 1] == fs[i];
          }
        }
      }
      head + tail
  }

  datatype OSINTResult = OSINTResult(
    service: string,
    query: string,
    queryType: string,
    success: bool,
    data: Data,
    error: Option<string>,
    statusCode: Option<int>)

  /** A failed record: no data, an error message. */
  function Failure(service: string, query: string, queryType: string, error: string, statusCode: Option<int>): OSINTResult {
    OSINTResult(service, query, queryType, false, [], Some(error), statusCode)
  }

  /** A successful record carrying `data`. */
  function Success(service: string, query: string, queryType: string, data: Data, statusCode: Option<int>): OSINTResult {
    OSINTResult(service, query, queryType, true, data, None, statusCode)
  }

  const UNSUPPORTED := "Unsupported query type"

  /** Python's `if result.success and result.data`: a success with a non-empty dictionary. */
  predicate IsFinding(r: OSINTResult) {
    r.success && |r.data| > 0
  }
}
