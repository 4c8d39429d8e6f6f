/**
  The handful of Python string operations the OSINT code relies on, written
  out over `seq<char>`: `startswith`, `endswith`, `in`, `split(sep)`,
  `sep.join(parts)`, `replace`, `lower` (ASCII letters only) and `strip`.
  `Split` follows `str.split` with an explicit separator: it keeps empty
  pieces and always returns at least one piece.
*/
module Text {
  import opened Wrappers

  /** Python `s.startswith(p)`. */
  predicate StartsWith(s: string, p: string) {
    |p| <= |s| && s[..|p|] == p
  }

  /** Python `s.endswith(p)`. */
  predicate EndsWith(s: string, p: string) {
    |p| <= |s| && s[|s| - |p|..] == p
  }

  /** `sub` occurs in `s` starting at index `i`. */
  predicate OccursAt(s: string, sub: string, i: nat) {
    i + |sub| <= |s| && s[i..i + |sub|] == sub
  }

  /** Python `s.find(sub)`: the index of the first occurrence of `sub`, if any. */
  function IndexOf(s: string, sub: string): (r: Option<nat>)
    ensures r.Some? ==> OccursAt(s, sub, r.value)
    ensures r.Some? ==> forall j :: 0 <= j < r.value ==> !OccursAt(s, sub, j)
    ensures r.None? ==> forall j :: 0 <= j <= |s| ==> !OccursAt(s, sub, j)
    decreases |s|
  {
    if |s| < |sub| then None
    else if s[..|sub|] == sub then Some(0)
    else
      ShiftOccurrence(s, sub);
      match IndexOf(s[1..], sub)
      case None => None
      case Some(k) => Some(k + 1)
  }

  /** Dropping the first character shifts every occurrence one place left. */
  lemma ShiftOccurrence(s: string, sub: string)
    requires |s| > 0
    ensures forall j: nat :: 0 < j ==> (OccursAt(s, sub, j) <==> OccursAt(s[1..], sub, j - 1))
  {
    forall j: nat | 0 < j ensures OccursAt(s, sub, j) <==> OccursAt(s[1..], sub, j - 1) {
      if j + |sub| <= |s| {
        assert s[1..][j - 1..j - 1 + |sub|] == s[j..j + |sub|];
      }
    }
  }

  /** Python `sub in s`. */
  predicate Contains(s: string, sub: string) {
    IndexOf(s, sub).Some?
  }

  /** `c in s` for one character agrees with substring containment. */
  lemma ContainsChar(s: string, c: char)
    ensures Contains(s, [c]) <==> c in s
  {
    if c in s {
      var j :| 0 <= j < |s| && s[j] == c;
      assert OccursAt(s, [c], j);
    }
    if Contains(s, [c]) {
      var j := IndexOf(s, [c]).value;
      assert s[j..j + 1] == [c];
      assert s[j] == c;
    }
  }

  /** If some character of `sub` never appears in `s`, then `sub` does not occur in `s`. */
  lemma MissingChar(s: string, sub: string, k: nat)
    requires k < |sub| && sub[k] !in s
    ensures !Contains(s, sub)
  {
    forall j: nat ensures !OccursAt(s, sub, j) {
      if j + |sub| <= |s| {
        assert s[j..j + |sub|][k] == s[j + k];
      }
    }
    assert IndexOf(s, sub).None?;
  }

  /** The text before the first occurrence of `sep` does not contain `sep`. */
  lemma BeforeFirstIsFree(s: string, sep: string, i: nat)
    requires |sep| > 0 && i <= |s|
    requires forall j: nat :: j < i ==> !OccursAt(s, sep, j)
    ensures !Contains(s[..i], sep)
  {
    var pre := s[..i];
    forall j: nat ensures !OccursAt(pre, sep, j) {
      if j + |sep| <= i {
        assert pre[j..j + |sep|] == s[j..j + |sep|];
        assert !OccursAt(s, sep, j);
      }
    }
  }

  /** Text found in a part is found in the whole. */
  lemma ContainsWithin(a: string, b: string, c: string, sub: string)
    requires Contains(b, sub)
    ensures Contains(a + b + c, sub)
  {
    var k := IndexOf(b, sub).value;
    var s := a + b + c;
    assert s[|a| + k..|a| + k + |sub|] == b[k..k + |sub|];
    assert OccursAt(s, sub, |a| + k);
  }

  /** Python `s.split(sep)` for a non-empty separator. */
  function Split(s: string, sep: string): (parts: seq<string>)
    requires |sep| > 0
    ensures |parts| >= 1
    decreases |s|
  {
    match IndexOf(s, sep)
    case None => [s]
    case Some(i) => [s[..i]] + Split(s[i + |sep|..], sep)
  }

  /** No piece of a split contains the separator. */
  lemma {:induction false} SplitPiecesFree(s: string, sep: string)
    requires |sep| > 0
    ensures forall k :: 0 <= k < |Split(s, sep)| ==> !Contains(Split(s, sep)[k], sep)
    decreases |s|
  {
    match IndexOf(s, sep)
    case None =>
    case Some(i) =>
      BeforeFirstIsFree(s, sep, i);
      SplitPiecesFree(s[i + |sep|..], sep);
  }

  /** One step of `Split`: the piece before the first separator, then the split of the rest. */
  lemma SplitAtFirst(s: string, sep: string, i: nat)
    requires |sep| > 0 && IndexOf(s, sep) == Some(i)
    ensures Split(s, sep) == [s[..i]] + Split(s[i + |sep|..], sep)
  {
  }

  /** Python `sep.join(parts)`. */
  function Join(parts: seq<string>, sep: string): string
    decreases |parts|
  {
    if |parts| == 0 then ""
    else if |parts| == 1 then parts[0]
    else parts[0] + sep + Join(parts[1..], sep)
  }

  /** Each part occurs in the joined text. */
  lemma {:induction false} JoinHolds(parts: seq<string>, sep: string, k: nat)
    requires k < |parts|
    ensures Contains(Join(parts, sep), parts[k])
    decreases |parts|
  {
    if |parts| == 1 {
      SelfContained(parts[0]);
    } else if k == 0 {
      SelfContained(parts[0]);
      ContainsWithin("", parts[0], sep + Join(parts[1..], sep), parts[0]);
      assert "" + parts[0] + (sep + Join(parts[1..], sep)) == Join(parts, sep);
    } else {
      JoinHolds(parts[1..], sep, k - 1);
      ContainsWithin(parts[0] + sep, Join(parts[1..], sep), "", parts[k]);
      assert parts[0] + sep + Join(parts[1..], sep) + "" == Join(parts, sep);
    }
  }

  lemma SelfContained(s: string)
    ensures Contains(s, s)
  {
    assert OccursAt(s, s, 0);
  }

  /** Containment carries over from a part to the whole. */
  lemma ContainsTransitive(whole: string, part: string, sub: string)
    requires Contains(whole, part) && Contains(part, sub)
    ensures Contains(whole, sub)
  {
    var k := IndexOf(whole, part).value;
    assert whole == whole[..k] + part + whole[k + |part|..];
    ContainsWithin(whole[..k], part, whole[k + |part|..], sub);
  }

  /** A character of a contained text is a character of the whole. */
  lemma CharOfContained(whole: string, part: string, c: char)
    requires Contains(whole, part) && c in part
    ensures c in whole
  {
    var k := IndexOf(whole, part).value;
    var j :| 0 <= j < |part| && part[j] == c;
    assert whole[k..k + |part|][j] == whole[k + j];
  }

  /** Splitting and re-joining with the same separator gives back the original text. */
  lemma {:induction false} JoinSplit(s: string, sep: string)
    requires |sep| > 0
    ensures Join(Split(s, sep), sep) == s
    decreases |s|
  {
    match IndexOf(s, sep)
    case None =>
    case Some(i) =>
      var rest := s[i + |sep|..];
      var tail := Split(rest, sep);
      JoinSplit(rest, sep);
      assert Split(s, sep) == [s[..i]] + tail;
      assert Join(Split(s, sep), sep) == s[..i] + sep + Join(tail, sep);
      assert s == s[..i] + s[i..i + |sep|] + rest;
  }

  /** No occurrence of `sep` can start inside a prefix that lacks `sep`'s first character. */
  lemma NoOccurrenceStartsIn(p: string, sep: string, t: string)
    requires |sep| > 0 && sep[0] !in p
    ensures forall j: nat :: j < |p| ==> !OccursAt(p + t, sep, j)
  {
    forall j: nat | j < |p|
      ensures !OccursAt(p + t, sep, j)
    {
      assert (p + t)[j] == p[j];
      if j + |sep| <= |p + t| {
        assert (p + t)[j..j + |sep|][0] == (p + t)[j];
      }
    }
  }

  /** In `p + sep + t`, the first `sep` is the one right after `p` when `p` lacks `sep[0]`. */
  lemma FirstOccurrenceAfterFreePrefix(p: string, sep: string, t: string)
    requires |sep| > 0 && sep[0] !in p
    ensures IndexOf(p + sep + t, sep) == Some(|p|)
  {
    var s := p + sep + t;
    assert s[|p|..|p| + |sep|] == sep;
    assert OccursAt(s, sep, |p|);
    NoOccurrenceStartsIn(p, sep, sep + t);
    assert s == p + (sep + t);
  }

  /**
    Joining pieces that do not contain the separator's first character and
    splitting again gives back the pieces: the separator positions are
    recoverable.
  */
  lemma {:induction false} SplitJoin(parts: seq<string>, sep: string)
    requires |sep| > 0 && |parts| >= 1
    requires forall k :: 0 <= k < |parts| ==> sep[0] !in parts[k]
    ensures Split(Join(parts, sep), sep) == parts
    decreases |parts|
  {
    if |parts| == 1 {
      MissingFirstChar(parts[0], sep);
    } else {
      var rest := Join(parts[1..], sep);
      var s := parts[0] + sep + rest;
      FirstOccurrenceAfterFreePrefix(parts[0], sep, rest);
      SplitJoin(parts[1..], sep);
      assert s[..|parts[0]|] == parts[0];
      assert s[|parts[0]| + |sep|..] == rest;
      SplitAtFirst(s, sep, |parts[0]|);
      assert parts == [parts[0]] + parts[1..];
    }
  }

  /** A text lacking the separator's first character does not contain the separator. */
  lemma MissingFirstChar(s: string, sep: string)
    requires |sep| > 0 && sep[0] !in s
    ensures IndexOf(s, sep).None?
  {
    MissingChar(s, sep, 0);
  }

  /** Splitting on one character yields one more piece than there are occurrences of it. */
  lemma {:induction false} SplitCount(s: string, c: char)
    ensures |Split(s, [c])| == multiset(s)[c] + 1
    decreases |s|
  {
    match IndexOf(s, [c])
    case None =>
      ContainsChar(s, c);
      assert multiset(s)[c] == 0;
    case Some(i) =>
      var rest := s[i + 1..];
      SplitCount(rest, c);
      SplitAtFirst(s, [c], i);
      BeforeFirstIsFree(s, [c], i);
      ContainsChar(s[..i], c);
      CountPastFirst(s, c, i);
  }

  /** Past the first `c`, one occurrence fewer remains. */
  lemma CountPastFirst(s: string, c: char, i: nat)
    requires i < |s| && s[i] == c && c !in s[..i]
    ensures multiset(s)[c] == multiset(s[i + 1..])[c] + 1
  {
    assert s == s[..i] + [c] + s[i + 1..];
    assert multiset(s) == multiset(s[..i]) + multiset([c]) + multiset(s[i + 1..]);
    assert multiset(s[..i])[c] == 0;
  }

  /** Python `s.replace(target, replacement)` for a non-empty `target`: every occurrence, left to right. */
  function Replace(s: string, target: string, replacement: string): string
    requires |target| > 0
  {
    Join(Split(s, target), replacement)
  }

  /** Replacing a text that does not occur leaves the string unchanged. */
  lemma ReplaceAbsent(s: string, target: string, replacement: string)
    requires |target| > 0 && !Contains(s, target)
    ensures Replace(s, target, replacement) == s
  {
  }

  /** Deleting a leading `p` that does not occur again leaves exactly the rest. */
  lemma ReplaceLeading(p: string, t: string)
    requires |p| > 0 && !Contains(t, p)
    ensures Replace(p + t, p, "") == t
  {
    var s := p + t;
    assert s[..|p|] == p;
    assert IndexOf(s, p) == Some(0);
    assert s[|p|..] == t;
    SplitAtFirst(s, p, 0);
    assert Split(t, p) == [t];
    assert Split(s, p) == ["", t];
    assert Join(["", t], "") == "" + "" + Join([t], "");
  }

  /**
    One occurrence of `target`, preceded by text without the target's first
    character and followed by text without the target, is replaced exactly.
  */
  lemma ReplaceOnce(p: string, target: string, t: string, replacement: string)
    requires |target| > 0 && target[0] !in p && !Contains(t, target)
    ensures Replace(p + target + t, target, replacement) == p + replacement + t
  {
    var s := p + target + t;
    FirstOccurrenceAfterFreePrefix(p, target, t);
    SplitAtFirst(s, target, |p|);
    assert s[..|p|] == p && s[|p| + |target|..] == t;
    assert Split(t, target) == [t];
    assert Split(s, target) == [p, t];
    assert Join([p, t], replacement) == p + replacement + Join([t], replacement);
  }

  /** Python `s.split(sep)[k]`, or None where Python raises IndexError. */
  function Piece(s: string, sep: string, k: nat): Option<string>
    requires |sep| > 0
  {
    var parts := Split(s, sep);
    if k < |parts| then Some(parts[k]) else None
  }

  /**
    `s.split(m)[0]` is everything before the first `m`, or all of `s` when `m`
    does not occur; it never raises.
  */
  lemma HeadBeforeMarker(s: string, m: string)
    requires |m| > 0
    ensures Piece(s, m, 0).Some?
    ensures StartsWith(s, Piece(s, m, 0).value)
    ensures !Contains(Piece(s, m, 0).value, m)
    ensures var h := Piece(s, m, 0).value; |h| == |s| || OccursAt(s, m, |h|)
  {
    SplitPiecesFree(s, m);
  }

  /** `s.split(m)[1]` exists exactly when `m` occurs in `s`. */
  lemma SecondPieceDefined(s: string, m: string)
    requires |m| > 0
    ensures Piece(s, m, 1).Some? <==> Contains(s, m)
  {
    match IndexOf(s, m)
    case None =>
    case Some(i) => SplitAtFirst(s, m, i);
  }

  /**
    `s.split(m)[1]` exists exactly when `m` occurs, and then it is the segment
    that starts right after the first `m` and runs up to the next `m` or to
    the end of the text.
  */
  lemma SegmentAfterMarker(s: string, m: string)
    requires |m| > 0
    ensures Piece(s, m, 1).Some? <==> Contains(s, m)
    ensures Contains(s, m) ==>
      var start := IndexOf(s, m).value + |m|;
      var seg := Piece(s, m, 1).value;
      && start + |seg| <= |s|
      && s[start..start + |seg|] == seg
      && !Contains(seg, m)
      && (start + |seg| == |s| || OccursAt(s, m, start + |seg|))
  {
    match IndexOf(s, m)
    case None =>
    case Some(i) =>
      var start := i + |m|;
      var rest := s[start..];
      SecondPieceIsHead(s, m, i);
      HeadBeforeMarker(rest, m);
      SliceOfSuffix(s, start, Piece(rest, m, 0).value, m);
  }

  /** The second piece of `s` is the first piece of what follows the first marker. */
  lemma SecondPieceIsHead(s: string, m: string, i: nat)
    requires |m| > 0 && IndexOf(s, m) == Some(i)
    ensures Piece(s, m, 1) == Piece(s[i + |m|..], m, 0)
  {
    SplitAtFirst(s, m, i);
  }

  /** Facts about a prefix `seg` of the suffix `s[start..]`, restated on `s` itself. */
  lemma SliceOfSuffix(s: string, start: nat, seg: string, m: string)
    requires start <= |s| && StartsWith(s[start..], seg)
    requires |seg| == |s[start..]| || OccursAt(s[start..], m, |seg|)
    ensures start + |seg| <= |s| && s[start..start + |seg|] == seg
    ensures start + |seg| == |s| || OccursAt(s, m, start + |seg|)
  {
    var rest := s[start..];
    assert s[start..start + |seg|] == rest[..|seg|];
    if |seg| < |rest| {
      assert s[start + |seg|..start + |seg| + |m|] == rest[|seg|..|seg| + |m|];
    }
  }

  /** Python `s.split(m)[1].split(t)[0]`, or None where `split(m)[1]` raises IndexError. */
  function Between(s: string, m: string, t: string): Option<string>
    requires |m| > 0 && |t| > 0
  {
    match Piece(s, m, 1)
    case None => None
    case Some(seg) => Some(Split(seg, t)[0])
  }

  /** A prefix of a text that lacks `m` lacks `m` too. */
  lemma PrefixKeepsFree(x: string, n: nat, m: string)
    requires |m| > 0 && n <= |x| && !Contains(x, m)
    ensures !Contains(x[..n], m)
  {
    BeforeFirstIsFree(x, m, n);
  }

  /**
    `s.split(m)[1].split(t)[0]` is defined exactly when `m` occurs; it is the
    text right after the first `m`, containing neither `t` nor `m`, and it
    stops at the next `t`, at the next `m`, or at the end of `s`.
  */
  lemma BetweenIsDelimited(s: string, m: string, t: string)
    requires |m| > 0 && |t| > 0
    ensures Between(s, m, t).Some? <==> Contains(s, m)
    ensures Contains(s, m) ==>
      var start := IndexOf(s, m).value + |m|;
      var v := Between(s, m, t).value;
      && start + |v| <= |s|
      && s[start..start + |v|] == v
      && !Contains(v, t)
      && !Contains(v, m)
      && (start + |v| == |s| || OccursAt(s, t, start + |v|) || OccursAt(s, m, start + |v|))
  {
    SecondPieceDefined(s, m);
    if Contains(s, m) {
      BetweenPresent(s, m, t);
    }
  }

  /** With `m` present, the value lies right after the first `m` and runs up to a delimiter. */
  lemma BetweenPresent(s: string, m: string, t: string)
    requires |m| > 0 && |t| > 0 && Contains(s, m)
    ensures Between(s, m, t).Some?
    ensures var start := IndexOf(s, m).value + |m|;
      var v := Between(s, m, t).value;
      && start + |v| <= |s|
      && s[start..start + |v|] == v
      && !Contains(v, t)
      && !Contains(v, m)
      && (start + |v| == |s| || OccursAt(s, t, start + |v|) || OccursAt(s, m, start + |v|))
  {
    SegmentAfterMarker(s, m);
    var seg := Piece(s, m, 1).value;
    HeadBeforeMarker(seg, t);
    var v := Piece(seg, t, 0).value;
    assert Between(s, m, t) == Some(v);
    HeadWithinSegment(s, IndexOf(s, m).value + |m|, seg, v, m, t);
  }

  /**
    A head `v` of a delimited segment `seg` of `s`, itself cut at a `t`, is
    delimited in `s` as well: it ends at a `t`, at an `m` or at the end.
  */
  lemma HeadWithinSegment(s: string, start: nat, seg: string, v: string, m: string, t: string)
    requires |m| > 0
    requires start + |seg| <= |s| && s[start..start + |seg|] == seg && !Contains(seg, m)
    requires start + |seg| == |s| || OccursAt(s, m, start + |seg|)
    requires StartsWith(seg, v) && (|v| == |seg| || OccursAt(seg, t, |v|))
    ensures start + |v| <= |s| && s[start..start + |v|] == v && !Contains(v, m)
    ensures start + |v| == |s| || OccursAt(s, t, start + |v|) || OccursAt(s, m, start + |v|)
  {
    assert seg[0..|v|] == v;
    SliceShift(s, start, seg, 0, |v|);
    PrefixKeepsFree(seg, |v|, m);
    if |v| < |seg| {
      SliceShift(s, start, seg, |v|, |t|);
    }
  }

  /** A slice of a slice of `s` is a slice of `s`, shifted by where the outer slice starts. */
  lemma SliceShift(s: string, start: nat, seg: string, k: nat, n: nat)
    requires start + |seg| <= |s| && s[start..start + |seg|] == seg && k + n <= |seg|
    ensures s[start + k..start + k + n] == seg[k..k + n]
  {
    var inner, outer := s[start + k..start + k + n], seg[k..k + n];
    forall j | 0 <= j < n
      ensures inner[j] == outer[j]
    {
      assert outer[j] == seg[k + j] == s[start..start + |seg|][k + j];
    }
  }

  /** Python `c.lower()` restricted to ASCII letters. */
  function LowerChar(c: char): char {
    if 'A' <= c <= 'Z' then (c as int + 32) as char else c
  }

  /** Python `s.lower()` restricted to ASCII letters. */
  function Lower(s: string): (r: string)
    ensures |r| == |s|
    ensures forall i :: 0 <= i < |s| ==> r[i] == LowerChar(s[i])
  {
    seq(|s|, i requires 0 <= i < |s| => LowerChar(s[i]))
  }

  /** Python `s.lstrip(chars)`. */
  function StripLeft(s: string, chars: set<char>): string
    decreases |s|
  {
    if |s| > 0 && s[0] in chars then StripLeft(s[1..], chars) else s
  }

  /** Python `s.rstrip(chars)`. */
  function StripRight(s: string, chars: set<char>): string
    decreases |s|
  {
    if |s| > 0 && s[|s| - 1] in chars then StripRight(s[..|s| - 1], chars) else s
  }

  /** Python `s.strip(chars)`. */
  function Strip(s: string, chars: set<char>): string {
    StripRight(StripLeft(s, chars), chars)
  }

  /** Python `any(n in hay for n in needles)`. */
  predicate AnyContained(needles: seq<string>, hay: string) {
    exists i :: 0 <= i < |needles| && Contains(hay, needles[i])
  }

  predicate IsAsciiDigit(c: char) {
    '0' <= c <= '9'
  }

  predicate IsAscii(s: string) {
    forall i :: 0 <= i < |s| ==> s[i] < 128 as char
  }

  /** Decimal text of a natural number, as Python's `str(n)`. */
  function NatToString(n: nat): string
    decreases n
  {
    var d := [(48 + n % 10) as char];
    if n < 10 then d else NatToString(n / 10) + d
  }

  /** Decimal text of an integer, as Python's `str(n)`. */
  function IntToString(n: int): string {
    if n < 0 then "-" + NatToString(-n) else NatToString(n)
  }
}
