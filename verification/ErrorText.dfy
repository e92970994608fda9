/** Classification of RPC error messages by the text they contain. */
module ErrorText {
  import opened Wrappers

  // ---- Text -------------------------------------------------------------------

  function LowerChar(c: char): char {
    if 'A' <= c <= 'Z' then (c as int + 32) as char else c
  }

  function Lower(s: string): string {
    seq(|s|, i requires 0 <= i < |s| => LowerChar(s[i]))
  }

  predicate At(s: string, i: nat, m: string) {
    i + |m| <= |s| && s[i..i + |m|] == m
  }

  predicate Contains(s: string, m: string) {
    exists i :: 0 <= i <= |s| && At(s, i, m)
  }

  /** `s` without its leftmost non-overlapping occurrences of `m`. */
  function Strip(s: string, m: string): string
    requires m != ""
  {
    if |s| < |m| then s
    else if s[..|m|] == m then Strip(s[|m|..], m)
    else [s[0]] + Strip(s[1..], m)
  }

  function Decimal(n: nat): string {
    if n < 10 then [Digit(n)] else Decimal(n / 10) + [Digit(n % 10)]
  }

  function Digit(d: nat): char
    requires d < 10
  {
    ('0' as int + d) as char
  }

  predicate IsDigit(c: char) {
    '0' <= c <= '9'
  }

  // ---- Classification ---------------------------------------------------------

  datatype Kind = RangeTooLarge(hint: Option<nat>) | RateLimited | Transient

  // Long literals are written in parts, so that proofs about their letters stay short.
  const HEAD_MARKERS: seq<string> := [
    "block range extends " + "beyond current head block",
    "invalid block range params",
    "beyond current head"
  ]
  const RANGE_MARKERS: seq<string> := [
    "block range",
    "ranges over",
    "range is too",
    "range too",
    "range exceeds",
    "exceed maximum",
    "limited to a",
    "too many blocks",
    "more than 10000 results",
    "query returned more than",
    "response size exceeded",
    "log response size"
  ]
  const RATE_MARKERS: seq<string> := [
    "429",
    "too many requests",
    "rate limit",
    "rate-limit",
    "ratelimit",
    "exceeded the quota",
    "capacity exceeded"
  ]
  const HINT_PREFIXES: seq<string> := ["block range: ", "ranges over ", "limited to a ", "range of "]

  predicate IsWordChar(c: char) {
    'a' <= c <= 'z' || '0' <= c <= '9' || c == ' ' || c == '-'
  }

  /** A marker's shape: words only, no leading space. */
  predicate Plain(m: string) {
    m != "" && m[0] != ' ' && forall i :: 0 <= i < |m| ==> IsWordChar(m[i])
  }

  predicate AllPlain(markers: seq<string>) {
    forall m :: m in markers ==> Plain(m)
  }

  function StripAll(s: string, markers: seq<string>): string
    requires AllPlain(markers)
    decreases |markers|
  {
    if markers == [] then s
    else
      assert Plain(markers[0]);
      StripAll(Strip(s, markers[0]), markers[1..])
  }

  /** The marker lists of a classifier. */
  datatype Markers = Markers(head: seq<string>, range: seq<string>, rate: seq<string>)
  const MARKERS := Markers(HEAD_MARKERS, RANGE_MARKERS, RATE_MARKERS)

  predicate MentionsAny(s: string, markers: seq<string>) {
    exists m :: m in markers && Contains(s, m)
  }

  /** The text the markers are looked up in. */
  function Searched(ms: Markers, message: string): string
    requires AllPlain(ms.head)
  {
    StripAll(Lower(message), ms.head)
  }

  function ClassifyBy(ms: Markers, message: string): Kind
    requires AllPlain(ms.head)
  {
    var lower := Searched(ms, message);
    if MentionsAny(lower, ms.range) then RangeTooLarge(RangeHint(lower, HINT_PREFIXES))
    else if MentionsAny(lower, ms.rate) then RateLimited
    else Transient
  }

  function Classify(message: string): Kind {
    MarkersArePlain();
    ClassifyBy(MARKERS, message)
  }

  /** Range complaints outrank rate limits, which outrank everything else. */
  function Severity(ms: Markers, message: string): nat
    requires AllPlain(ms.head)
  {
    match ClassifyBy(ms, message)
    case RangeTooLarge(_) => 2
    case RateLimited => 1
    case Transient => 0
  }

  ghost predicate PlainMarkers(ms: Markers) {
    AllPlain(ms.head) && AllPlain(ms.range) && AllPlain(ms.rate)
  }

  lemma MarkersArePlain()
    ensures PlainMarkers(MARKERS)
  {
    HeadMarkersArePlain();
    RangeMarkersArePlain();
    RateMarkersArePlain();
  }

  lemma HeadMarkersArePlain()
    ensures AllPlain(HEAD_MARKERS)
  {
    forall m | m in HEAD_MARKERS
      ensures Plain(m)
    {
      var i :| 0 <= i < |HEAD_MARKERS| && m == HEAD_MARKERS[i];
      forall k | 0 <= k < |m|
        ensures IsWordChar(m[k])
      {
      }
    }
  }

  lemma RangeMarkersArePlain()
    ensures AllPlain(RANGE_MARKERS)
  {
    forall m | m in RANGE_MARKERS
      ensures Plain(m)
    {
      var i :| 0 <= i < |RANGE_MARKERS| && m == RANGE_MARKERS[i];
      forall k | 0 <= k < |m|
        ensures IsWordChar(m[k])
      {
      }
    }
  }

  lemma RateMarkersArePlain()
    ensures AllPlain(RATE_MARKERS)
  {
    forall m | m in RATE_MARKERS
      ensures Plain(m)
    {
      var i :| 0 <= i < |RATE_MARKERS| && m == RATE_MARKERS[i];
      forall k | 0 <= k < |m|
        ensures IsWordChar(m[k])
      {
      }
    }
  }

  // ---- Advertised limits --------------------------------------------------------

  function Find(s: string, m: string, from: nat): Option<nat>
    requires from <= |s|
    decreases |s| - from
  {
    if At(s, from, m) then Some(from)
    else if from == |s| then None
    else Find(s, m, from + 1)
  }

  function LeadingDigits(s: string): string {
    if s == "" || !(IsDigit(s[0]) || s[0] == ',') then ""
    else (if s[0] == ',' then "" else [s[0]]) + LeadingDigits(s[1..])
  }

  function Value(digits: string): nat
    requires forall c :: c in digits ==> IsDigit(c)
  {
    if digits == "" then 0
    else
      var last := digits[|digits| - 1];
      assert last in digits && IsDigit(last) && last as int >= '0' as int;
      10 * Value(digits[..|digits| - 1]) + (last as int - '0' as int)
  }

  lemma LeadingDigitsAreDigits(s: string)
    ensures forall c :: c in LeadingDigits(s) ==> IsDigit(c)
  {
  }

  /** The positive 64-bit number after the first occurrence of `prefix`. */
  function HintAfter(lower: string, prefix: string): Option<nat> {
    var start := Find(lower, prefix, 0);
    if start.None? || start.value + |prefix| > |lower| then None
    else
      var digits := LeadingDigits(lower[start.value + |prefix|..]);
      LeadingDigitsAreDigits(lower[start.value + |prefix|..]);
      if digits != "" && 0 < Value(digits) <= U64_MAX then Some(Value(digits)) else None
  }

  function RangeHint(lower: string, prefixes: seq<string>): Option<nat> {
    if prefixes == [] then None
    else
      var hint := HintAfter(lower, prefixes[0]);
      if hint.Some? then hint else RangeHint(lower, prefixes[1..])
  }

  lemma {:induction false} DecimalIsRead(n: nat)
    ensures Decimal(n) != "" && forall c :: c in Decimal(n) ==> IsDigit(c)
    ensures Value(Decimal(n)) == n
  {
    if n >= 10 {
      DecimalIsRead(n / 10);
      assert Decimal(n)[..|Decimal(n)| - 1] == Decimal(n / 10);
    } else {
      assert Decimal(n)[..0] == "";
    }
  }

  lemma {:induction false} LeadingDigitsStop(digits: string, after: string)
    requires forall c :: c in digits ==> IsDigit(c)
    requires after == "" || !(IsDigit(after[0]) || after[0] == ',')
    ensures LeadingDigits(digits + after) == digits
  {
    if digits == "" {
      assert digits + after == after;
    } else {
      assert digits[0] in digits;
      assert (digits + after)[1..] == digits[1..] + after;
      LeadingDigitsStop(digits[1..], after);
      assert digits == [digits[0]] + digits[1..];
    }
  }

  lemma {:induction false} FindsFirst(s: string, m: string, from: nat, i: nat)
    requires from <= i <= |s| && At(s, i, m)
    requires forall j :: from <= j < i ==> !At(s, j, m)
    ensures Find(s, m, from) == Some(i)
    decreases i - from
  {
    if from < i {
      FindsFirst(s, m, from + 1, i);
    }
  }

  /** The lowered text that is searched for markers and limits. */
  function SearchedText(message: string): string {
    MarkersArePlain();
    Searched(MARKERS, message)
  }

  lemma {:induction false} FindsNothing(s: string, m: string, from: nat)
    requires from <= |s| && !Contains(s, m)
    ensures Find(s, m, from) == None
    decreases |s| - from
  {
    if from < |s| {
      FindsNothing(s, m, from + 1);
    }
  }

  lemma {:induction false} AbsentPrefixesAreSkipped(s: string, prefixes: seq<string>, k: nat)
    requires k <= |prefixes| && forall j :: 0 <= j < k ==> !Contains(s, prefixes[j])
    ensures RangeHint(s, prefixes) == RangeHint(s, prefixes[k..])
  {
    if k == 0 {
      assert prefixes[0..] == prefixes;
    } else {
      FindsNothing(s, prefixes[0], 0);
      AbsentPrefixesAreSkipped(s, prefixes[1..], k - 1);
      assert prefixes[1..][k - 1..] == prefixes[k..];
    }
  }

  /** Every limit a provider can print after any of the known prefixes is read back exactly,
      when no earlier prefix occurs in the message and this one not before; and a message
      with one of the first three prefixes is always a range error. */
  lemma AdvertisedLimitIsRead(message: string, k: nat, before: string, n: nat, after: string)
    requires k < |HINT_PREFIXES| && 0 < n <= U64_MAX
    requires SearchedText(message) == before + HINT_PREFIXES[k] + Decimal(n) + after
    requires after == "" || !(IsDigit(after[0]) || after[0] == ',')
    requires forall j :: 0 <= j < k ==> !Contains(SearchedText(message), HINT_PREFIXES[j])
    requires forall i :: 0 <= i < |before| ==> !At(SearchedText(message), i, HINT_PREFIXES[k])
    ensures Classify(message).RangeTooLarge? ==> Classify(message) == RangeTooLarge(Some(n))
    ensures k < 3 ==> Classify(message) == RangeTooLarge(Some(n))
  {
    var s, prefix := SearchedText(message), HINT_PREFIXES[k];
    assert s[|before|..|before| + |prefix|] == prefix;
    FindsFirst(s, prefix, 0, |before|);
    DecimalIsRead(n);
    HintIsRead(before, prefix, Decimal(n), after);
    AbsentPrefixesAreSkipped(s, HINT_PREFIXES, k);
    assert HINT_PREFIXES[k..][0] == prefix;
    if k < 3 {
      PrefixIsAMarker(k);
      var m := RANGE_MARKERS[if k == 0 then 0 else if k == 1 then 1 else 6];
      assert s[|before|..|before| + |m|] == prefix[..|m|];
      assert At(s, |before|, m) && m in RANGE_MARKERS;
      assert MentionsAny(s, MARKERS.range);
    }
  }

  /** The first three prefixes begin with a range marker. */
  lemma PrefixIsAMarker(k: nat)
    requires k < 3
    ensures var m := RANGE_MARKERS[if k == 0 then 0 else if k == 1 then 1 else 6];
            |m| <= |HINT_PREFIXES[k]| && HINT_PREFIXES[k][..|m|] == m
  {
    assert "block range: "[..11] == "block range";
    assert "ranges over "[..11] == "ranges over";
    assert "limited to a "[..12] == "limited to a";
  }

  lemma HintIsRead(before: string, prefix: string, digits: string, after: string)
    requires digits != "" && (forall c :: c in digits ==> IsDigit(c)) && 0 < Value(digits) <= U64_MAX
    requires Find(before + prefix + digits + after, prefix, 0) == Some(|before|)
    requires after == "" || !(IsDigit(after[0]) || after[0] == ',')
    ensures HintAfter(before + prefix + digits + after, prefix) == Some(Value(digits))
  {
    var s := before + prefix + digits + after;
    assert s[|before| + |prefix|..] == digits + after;
    LeadingDigitsStop(digits, after);
  }

  // ---- Splitting at a separator ---------------------------------------------------

  /** A character that occurs in no marker and has no case. */
  predicate IsSeparator(c: char)
    ensures IsSeparator(c) ==> !IsWordChar(c)
  {
    c == ':' || c == ';' || c == '[' || c == ']'
  }

  /** An occurrence at the start of `left + [c] + right` lies inside `left`. */
  lemma PrefixStopsAt(left: string, c: char, right: string, m: string)
    requires c !in m
    ensures m <= left + [c] + right <==> m <= left
  {
    var s := left + [c] + right;
    assert s[|left|] == c;
    assert forall i :: 0 <= i < |left| ==> s[i] == left[i];
  }

  lemma {:induction false} StripAround(left: string, c: char, right: string, m: string)
    requires m != "" && c !in m
    ensures Strip(left + [c] + right, m) == Strip(left, m) + [c] + Strip(right, m)
    decreases |left|
  {
    var s := left + [c] + right;
    PrefixStopsAt(left, c, right, m);
    if m <= left {
      StripMatch(s, m);
      StripMatch(left, m);
      assert s[|m|..] == left[|m|..] + [c] + right;
      StripAround(left[|m|..], c, right, m);
    } else {
      StripFirst(s, m);
      if left == "" {
        assert s[1..] == right && s[0] == c;
        StripShort(left, m);
      } else {
        assert s[1..] == left[1..] + [c] + right && s[0] == left[0];
        StripAround(left[1..], c, right, m);
        StripFirst(left, m);
        Associate([left[0]], Strip(left[1..], m), [c], Strip(right, m));
      }
    }
  }

  lemma Associate(a: string, b: string, c: string, d: string)
    ensures a + (b + c + d) == (a + b) + c + d
  {
  }

  lemma StripMatch(s: string, m: string)
    requires m != "" && m <= s
    ensures Strip(s, m) == Strip(s[|m|..], m)
  {
  }

  lemma StripFirst(s: string, m: string)
    requires m != "" && s != "" && !(m <= s)
    ensures Strip(s, m) == [s[0]] + Strip(s[1..], m)
  {
    if |s| < |m| {
      StripShort(s[1..], m);
    }
  }

  lemma StripShort(s: string, m: string)
    requires m != "" && |s| < |m|
    ensures Strip(s, m) == s
  {
  }

  lemma ContainsWithin(before: string, s: string, after: string, m: string)
    requires Contains(s, m)
    ensures Contains(before + s + after, m)
  {
    var t := before + s + after;
    var i :| 0 <= i <= |s| && At(s, i, m);
    var k := |before| + i;
    forall x | 0 <= x < |m|
      ensures t[k + x] == m[x]
    {
      assert s[i..i + |m|][x] == s[i + x];
    }
    assert t[k..k + |m|] == m;
    assert At(t, k, m);
  }

  lemma ContainsAround(left: string, c: char, right: string, m: string)
    requires m != "" && c !in m
    ensures Contains(left + [c] + right, m) <==> Contains(left, m) || Contains(right, m)
  {
    var s := left + [c] + right;
    if Contains(s, m) {
      OccurrenceAvoids(left, c, right, m);
    }
    if Contains(left, m) {
      ContainsWithin("", left, [c] + right, m);
      assert "" + left + ([c] + right) == s;
    }
    if Contains(right, m) {
      ContainsWithin(left + [c], right, "", m);
      assert left + [c] + right + "" == s;
    }
  }

  lemma OccurrenceAvoids(left: string, c: char, right: string, m: string)
    requires m != "" && c !in m && Contains(left + [c] + right, m)
    ensures Contains(left, m) || Contains(right, m)
  {
    var s, n := left + [c] + right, |left|;
    var i :| 0 <= i <= |s| && At(s, i, m);
    assert s[n] == c && forall k :: i <= k < i + |m| ==> s[k] in s[i..i + |m|];
    if i + |m| <= n {
      assert left[i..i + |m|] == m;
      assert At(left, i, m);
    } else if n < i {
      assert right[i - n - 1..i - n - 1 + |m|] == m;
      assert At(right, i - n - 1, m);
    } else {
      assert false;
    }
  }

  lemma LowerAround(left: string, c: char, right: string)
    requires IsSeparator(c)
    ensures Lower(left + [c] + right) == Lower(left) + [c] + Lower(right)
  {
  }

  lemma {:induction false} StripAllAround(left: string, c: char, right: string, markers: seq<string>)
    requires IsSeparator(c) && AllPlain(markers)
    ensures StripAll(left + [c] + right, markers) == StripAll(left, markers) + [c] + StripAll(right, markers)
    decreases |markers|
  {
    if markers != [] {
      assert Plain(markers[0]);
      StripAround(left, c, right, markers[0]);
      StripAllAround(Strip(left, markers[0]), c, Strip(right, markers[0]), markers[1..]);
    }
  }

  lemma MentionsAround(left: string, c: char, right: string, markers: seq<string>)
    requires IsSeparator(c) && AllPlain(markers)
    ensures MentionsAny(left + [c] + right, markers) <==> MentionsAny(left, markers) || MentionsAny(right, markers)
  {
    forall m | m in markers
      ensures Contains(left + [c] + right, m) <==> Contains(left, m) || Contains(right, m)
    {
      ContainsAround(left, c, right, m);
    }
  }

  /** Splitting a message at any separator splits its severity: the worse part wins. */
  lemma SeverityAround(ms: Markers, left: string, c: char, right: string)
    requires PlainMarkers(ms) && IsSeparator(c)
    ensures Severity(ms, left + [c] + right) == Max(Severity(ms, left), Severity(ms, right))
  {
    LowerAround(left, c, right);
    StripAllAround(Lower(left), c, Lower(right), ms.head);
    MentionsAround(Searched(ms, left), c, Searched(ms, right), ms.range);
    MentionsAround(Searched(ms, left), c, Searched(ms, right), ms.rate);
  }

  lemma StripLeadingSpace(s: string, m: string)
    requires Plain(m)
    ensures Strip(" " + s, m) == " " + Strip(s, m)
  {
    assert (" " + s)[1..] == s;
    if |m| <= |s| + 1 && (" " + s)[..|m|] == m {
      assert false;
    }
    if |s| < |m| {
      StripShort(s, m);
    }
  }

  lemma ContainsLeadingSpace(s: string, m: string)
    requires Plain(m)
    ensures Contains(" " + s, m) <==> Contains(s, m)
  {
    var t := " " + s;
    if i :| 0 <= i <= |t| && At(t, i, m) {
      assert i > 0 && t[i..i + |m|] == s[i - 1..i - 1 + |m|];
      assert At(s, i - 1, m);
    }
    if i :| 0 <= i <= |s| && At(s, i, m) {
      assert t[i + 1..i + 1 + |m|] == s[i..i + |m|];
      assert At(t, i + 1, m);
    }
  }

  lemma {:induction false} StripAllLeadingSpace(s: string, markers: seq<string>)
    requires AllPlain(markers)
    ensures StripAll(" " + s, markers) == " " + StripAll(s, markers)
    decreases |markers|
  {
    if markers != [] {
      assert Plain(markers[0]);
      StripLeadingSpace(s, markers[0]);
      StripAllLeadingSpace(Strip(s, markers[0]), markers[1..]);
    }
  }

  lemma SeverityLeadingSpace(ms: Markers, s: string)
    requires PlainMarkers(ms)
    ensures Severity(ms, " " + s) == Severity(ms, s)
  {
    assert Lower(" " + s) == " " + Lower(s);
    StripAllLeadingSpace(Lower(s), ms.head);
    forall m | m in ms.range || m in ms.rate
      ensures Contains(" " + Searched(ms, s), m) <==> Contains(Searched(ms, s), m)
    {
      ContainsLeadingSpace(Searched(ms, s), m);
    }
  }

  // ---- Failover summaries ---------------------------------------------------------

  datatype Failure = Failure(host: string, text: string)

  function FailureText(f: Failure): string {
    "[" + f.host + ": " + f.text + "]"
  }

  function JoinFailures(failures: seq<Failure>): string {
    if failures == [] then ""
    else if |failures| == 1 then FailureText(failures[0])
    else JoinFailures(failures[..|failures| - 1]) + " " + FailureText(failures[|failures| - 1])
  }

  /** The error of a request that every endpoint failed. */
  function Summary(intro: string, failures: seq<Failure>): string {
    intro + ": " + JoinFailures(failures)
  }

  function Worst(ms: Markers, failures: seq<Failure>): nat
    requires AllPlain(ms.head)
  {
    if failures == [] then 0
    else
      var f := failures[|failures| - 1];
      Max(Worst(ms, failures[..|failures| - 1]), Max(Severity(ms, f.host), Severity(ms, f.text)))
  }

  lemma SeverityOfFailure(ms: Markers, f: Failure)
    requires PlainMarkers(ms)
    ensures Severity(ms, FailureText(f)) == Max(Severity(ms, f.host), Severity(ms, f.text))
  {
    NothingIsHarmless(ms);
    var front, body := "[" + f.host, " " + f.text;
    assert FailureText(f) == (front + ":" + body) + [']'] + "";
    SeverityAround(ms, front + ":" + body, ']', "");
    assert front + ":" + body == front + [':'] + body;
    SeverityAround(ms, front, ':', body);
    SeverityLeadingSpace(ms, f.text);
    assert front == "" + ['['] + f.host;
    SeverityAround(ms, "", '[', f.host);
  }

  lemma NothingIsHarmless(ms: Markers)
    requires PlainMarkers(ms)
    ensures Severity(ms, "") == 0
  {
    NothingToStrip(ms.head);
    assert Lower("") == "";
  }

  lemma {:induction false} NothingToStrip(markers: seq<string>)
    requires AllPlain(markers)
    ensures StripAll("", markers) == ""
  {
    if markers != [] {
      assert Plain(markers[0]);
      NothingToStrip(markers[1..]);
    }
  }

  lemma {:induction false} SeverityOfJoin(ms: Markers, failures: seq<Failure>)
    requires PlainMarkers(ms)
    ensures Severity(ms, JoinFailures(failures)) == Worst(ms, failures)
    ensures failures != [] ==>
              JoinFailures(failures) != "" && JoinFailures(failures)[|JoinFailures(failures)| - 1] == ']'
  {
    NothingIsHarmless(ms);
    if failures != [] {
      var n := |failures| - 1;
      var earlier, last := failures[..n], FailureText(failures[n]);
      SeverityOfFailure(ms, failures[n]);
      SeverityOfJoin(ms, earlier);
      if n > 0 {
        SeverityOfAppend(ms, JoinFailures(earlier), last);
      }
    }
  }

  lemma SeverityOfAppend(ms: Markers, joined: string, last: string)
    requires PlainMarkers(ms)
    requires joined != "" && joined[|joined| - 1] == ']'
    ensures Severity(ms, joined + " " + last) == Max(Severity(ms, joined), Severity(ms, last))
  {
    var front := joined[..|joined| - 1];
    NothingIsHarmless(ms);
    assert joined == front + [']'] + "";
    SeverityAround(ms, front, ']', "");
    assert joined + " " + last == front + [']'] + (" " + last);
    SeverityAround(ms, front, ']', " " + last);
    SeverityLeadingSpace(ms, last);
  }

  /** A failover summary is exactly as severe as the worst of its introduction, the
      endpoints' names and the endpoints' messages. */
  lemma SummaryIsAJoin(ms: Markers, intro: string, failures: seq<Failure>)
    requires PlainMarkers(ms)
    ensures Severity(ms, Summary(intro, failures)) == Max(Severity(ms, intro), Worst(ms, failures))
  {
    SeverityOfJoin(ms, failures);
    assert Summary(intro, failures) == intro + [':'] + (" " + JoinFailures(failures));
    SeverityAround(ms, intro, ':', " " + JoinFailures(failures));
    SeverityLeadingSpace(ms, JoinFailures(failures));
  }

  /** In particular a range complaint from any one endpoint decides. */
  lemma AnyRangeErrorWins(intro: string, failures: seq<Failure>, i: nat)
    requires i < |failures| && Classify(failures[i].text).RangeTooLarge?
    ensures Classify(Summary(intro, failures)).RangeTooLarge?
  {
    MarkersArePlain();
    SummaryIsAJoin(MARKERS, intro, failures);
    WorstIsReached(MARKERS, failures, i);
  }

  /** So does one that is reported with the endpoint's name. */
  lemma NamedRangeErrorWins(host: string, text: string)
    requires Classify(text).RangeTooLarge?
    ensures Classify(host + ": " + text).RangeTooLarge?
  {
    MarkersArePlain();
    assert host + ": " + text == host + [':'] + (" " + text);
    SeverityAround(MARKERS, host, ':', " " + text);
    SeverityLeadingSpace(MARKERS, text);
  }

  /** A text about a range past the endpoint's head, alone or as a part between separators,
      does not make an error a range error, although it may mention a block range. */
  lemma HeadErrorsAreIgnored(left: string, c: char, k: nat, d: char, right: string)
    requires k < |HEAD_MARKERS| && IsSeparator(c) && IsSeparator(d)
    ensures Classify(HEAD_MARKERS[k]).Transient?
    ensures Gravity(left + [c] + (HEAD_MARKERS[k] + [d] + right)) == Max(Gravity(left), Gravity(right))
  {
    MarkersArePlain();
    HeadMarkerIsStripped(k);
    NothingIsHarmless(MARKERS);
    SeverityAround(MARKERS, left, c, HEAD_MARKERS[k] + [d] + right);
    SeverityAround(MARKERS, HEAD_MARKERS[k], d, right);
  }

  function Gravity(message: string): nat {
    MarkersArePlain();
    Severity(MARKERS, message)
  }

  lemma HeadMarkerIsStripped(k: nat)
    requires k < |HEAD_MARKERS|
    ensures AllPlain(HEAD_MARKERS) && Searched(MARKERS, HEAD_MARKERS[k]) == Searched(MARKERS, "")
  {
    HeadMarkersArePlain();
    var m := HEAD_MARKERS[k];
    assert Plain(m);
    assert Lower(m) == m && Lower("") == "";
    StripUpTo(m, HEAD_MARKERS, k);
    NothingToStrip(HEAD_MARKERS);
  }

  /** Markers longer than `s` are passed over, and `s` itself is removed. */
  lemma {:induction false} StripUpTo(s: string, markers: seq<string>, k: nat)
    requires AllPlain(markers) && k < |markers| && s == markers[k] && forall i :: 0 <= i < k ==> |s| < |markers[i]|
    ensures StripAll(s, markers) == ""
  {
    assert Plain(markers[0]);
    if k == 0 {
      StripMatch(s, s);
      StripShort("", s);
      NothingToStrip(markers[1..]);
    } else {
      StripShort(s, markers[0]);
      assert markers[1..][k - 1] == markers[k];
      StripUpTo(s, markers[1..], k - 1);
    }
  }

  lemma {:induction false} WorstIsReached(ms: Markers, failures: seq<Failure>, i: nat)
    requires AllPlain(ms.head) && i < |failures|
    ensures Worst(ms, failures) >= Severity(ms, failures[i].text)
  {
    if i < |failures| - 1 {
      WorstIsReached(ms, failures[..|failures| - 1], i);
    }
  }

  // ---- The lagging-endpoint message ------------------------------------------------

  // In parts for the same reason as above.
  const HEAD_PART := " its head"
  const END_PART := "is below " + "requested log end"
  const REST_PART := " discarding the " + "possibly " + "truncated result"

  function LagBody(head: string, end: string): string {
    HEAD_PART + [' '] + (head + [' '] + (END_PART + [' '] + end))
  }

  function LagText(host: string, head: nat, end: nat): string {
    host + " is behind:" + LagBody(Decimal(head), Decimal(end)) + ";" + REST_PART
  }

  lemma MissingChar(s: string, m: string, c: char)
    requires c in m && c !in s
    ensures !Contains(s, m)
  {
    var k :| 0 <= k < |m| && m[k] == c;
    forall i | 0 <= i <= |s|
      ensures !At(s, i, m)
    {
      if i + |m| <= |s| {
        assert s[i..i + |m|][k] == s[i + k];
      }
    }
  }

  predicate HasPair(s: string, c: char, d: char) {
    exists i :: 0 < i < |s| && s[i - 1] == c && s[i] == d
  }

  lemma MissingPair(s: string, m: string, c: char, d: char)
    requires HasPair(m, c, d) && !HasPair(s, c, d)
    ensures !Contains(s, m)
  {
    var k :| 0 < k < |m| && m[k - 1] == c && m[k] == d;
    forall i | 0 <= i <= |s|
      ensures !At(s, i, m)
    {
      if i + |m| <= |s| {
        assert s[i..i + |m|][k] == s[i + k] && s[i..i + |m|][k - 1] == s[i + k - 1];
      }
    }
  }

  lemma {:induction false} StripAbsent(s: string, m: string)
    requires m != "" && !Contains(s, m)
    ensures Strip(s, m) == s
  {
    if |m| <= |s| {
      assert s[..|m|] == s[0..0 + |m|];
      assert !At(s, 0, m);
      forall i | 0 <= i <= |s| - 1
        ensures !At(s[1..], i, m)
      {
        assert !At(s, i + 1, m);
        if i + |m| <= |s| - 1 {
          assert s[1..][i..i + |m|] == s[i + 1..i + 1 + |m|];
        }
      }
      StripAbsent(s[1..], m);
    }
  }

  lemma {:induction false} StripAllAbsent(s: string, markers: seq<string>)
    requires AllPlain(markers) && forall m :: m in markers ==> !Contains(s, m)
    ensures StripAll(s, markers) == s
    decreases |markers|
  {
    if markers != [] {
      assert Plain(markers[0]);
      StripAbsent(s, markers[0]);
      StripAllAbsent(s, markers[1..]);
    }
  }

  /** A text in which no marker other than "429" can occur: each of the others has
      one of these characters, the pair "ra" or the pair "yo". */
  ghost predicate Harmless(s: string) {
    && 'm' !in s && 'x' !in s && 'k' !in s && 'v' !in s && 'z' !in s
    && !HasPair(s, 'r', 'a') && !HasPair(s, 'y', 'o')
  }

  ghost predicate Recognisable(m: string) {
    'm' in m || 'x' in m || 'k' in m || 'v' in m || 'z' in m || HasPair(m, 'r', 'a') || HasPair(m, 'y', 'o')
  }

  lemma HarmlessLacks(s: string, m: string)
    requires Harmless(s) && Recognisable(m)
    ensures !Contains(s, m)
  {
    if 'm' in m {
      MissingChar(s, m, 'm');
    } else if 'x' in m {
      MissingChar(s, m, 'x');
    } else if 'k' in m {
      MissingChar(s, m, 'k');
    } else if 'v' in m {
      MissingChar(s, m, 'v');
    } else if 'z' in m {
      MissingChar(s, m, 'z');
    } else if HasPair(m, 'r', 'a') {
      MissingPair(s, m, 'r', 'a');
    } else {
      MissingPair(s, m, 'y', 'o');
    }
  }

  ghost predicate RecognisableMarkers(ms: Markers) {
    && PlainMarkers(ms)
    && (forall m :: m in ms.head || m in ms.range ==> Recognisable(m))
    && "429" in ms.rate
    && (forall m :: m in ms.rate && m != "429" ==> Recognisable(m))
  }

  lemma HarmlessSeverity(ms: Markers, s: string)
    requires RecognisableMarkers(ms) && Harmless(s) && Lower(s) == s
    ensures Severity(ms, s) == if Contains(s, "429") then 1 else 0
  {
    forall m | Recognisable(m)
      ensures !Contains(s, m)
    {
      HarmlessLacks(s, m);
    }
    StripAllAbsent(s, ms.head);
  }

  lemma MarkersAreRecognisable()
    ensures RecognisableMarkers(MARKERS)
  {
    MarkersArePlain();
    HeadMarkersAreRecognisable();
    RangeMarkersAreRecognisable();
    RateMarkersAreRecognisable();
  }

  lemma HeadMarkersAreRecognisable()
    ensures forall m :: m in HEAD_MARKERS ==> Recognisable(m)
  {
    var m := HEAD_MARKERS[2];
    assert m[2] == 'y' && m[3] == 'o';
    assert HEAD_MARKERS[0][4] == 'k';
    assert HEAD_MARKERS[1][2] == 'v';
  }

  lemma RangeMarkersAreRecognisable()
    ensures forall m :: m in RANGE_MARKERS ==> Recognisable(m)
  {
    forall m | m in RANGE_MARKERS
      ensures Recognisable(m)
    {
      if m == "range is too" || m == "range too" {
        assert m[0] == 'r' && m[1] == 'a';
      }
    }
  }

  lemma RateMarkersAreRecognisable()
    ensures "429" in RATE_MARKERS
    ensures forall m :: m in RATE_MARKERS && m != "429" ==> Recognisable(m)
  {
    assert RATE_MARKERS[0] == "429";
  }

  lemma PairAcross(s: string, t: string, c: char, d: char)
    requires !HasPair(s, c, d) && !HasPair(t, c, d) && (t == "" || t[0] != d)
    ensures !HasPair(s + t, c, d)
  {
    forall i | 0 < i < |s + t|
      ensures !((s + t)[i - 1] == c && (s + t)[i] == d)
    {
      if i > |s| {
        assert !(t[i - |s| - 1] == c && t[i - |s|] == d);
      }
    }
  }

  lemma HarmlessAcross(s: string, t: string)
    requires Harmless(s) && Harmless(t) && Lower(s) == s && Lower(t) == t
    requires t == "" || (t[0] != 'a' && t[0] != 'o')
    ensures Harmless(s + t) && Lower(s + t) == s + t
  {
    PairAcross(s, t, 'r', 'a');
    PairAcross(s, t, 'y', 'o');
    assert Lower(s + t) == Lower(s) + Lower(t);
  }

  lemma DecimalIsHarmless(n: nat)
    ensures Harmless(Decimal(n)) && Lower(Decimal(n)) == Decimal(n)
    ensures Decimal(n) != "" && Decimal(n)[0] != 'a' && Decimal(n)[0] != 'o'
  {
    DecimalIsRead(n);
    var d := Decimal(n);
    assert forall i :: 0 <= i < |d| ==> d[i] in d && IsDigit(d[i]);
  }

  /** A word of a fixed message part, short enough to check letter by letter. */
  ghost predicate HarmlessWord(s: string) {
    Harmless(s) && Lower(s) == s && '4' !in s && (s == "" || (s[0] != 'a' && s[0] != 'o'))
  }

  lemma HarmlessWords(s: string, t: string)
    requires HarmlessWord(s) && HarmlessWord(t)
    ensures HarmlessWord(s + t)
  {
    HarmlessAcross(s, t);
  }

  lemma FixedPartsAreHarmless()
    ensures HarmlessWord(HEAD_PART) && HarmlessWord(END_PART) && HarmlessWord(REST_PART)
  {
    HeadPartIsHarmless();
    EndPartIsHarmless();
    RestPartIsHarmless();
  }

  lemma HeadPartIsHarmless()
    ensures HarmlessWord(HEAD_PART)
  {
  }

  lemma EndPartIsHarmless()
    ensures HarmlessWord(END_PART)
  {
    assert HarmlessWord("is below ");
    assert HarmlessWord("requested log end");
    HarmlessWords("is below ", "requested log end");
  }

  lemma RestPartIsHarmless()
    ensures HarmlessWord(REST_PART)
  {
    assert HarmlessWord(" discarding the ");
    assert HarmlessWord("possibly ");
    HarmlessWords(" discarding the ", "possibly ");
    TruncatedResultIsHarmless();
    HarmlessWords(" discarding the " + "possibly ", "truncated result");
  }

  lemma TruncatedResultIsHarmless()
    ensures HarmlessWord("truncated result")
  {
  }

  /** The block numbers are the only part of the message's body that can matter. */
  lemma SeverityOfLagBody(ms: Markers, head: nat, end: nat)
    requires RecognisableMarkers(ms)
    ensures Severity(ms, LagBody(Decimal(head), Decimal(end)))
         == if Contains(Decimal(head), "429") || Contains(Decimal(end), "429") then 1 else 0
  {
    FixedPartsAreHarmless();
    DecimalIsHarmless(head);
    DecimalIsHarmless(end);
    LagBodyIsHarmless(Decimal(head), Decimal(end));
    HarmlessSeverity(ms, LagBody(Decimal(head), Decimal(end)));
    Between(HEAD_PART, Decimal(head), END_PART, Decimal(end), "429");
  }

  lemma LagBodyIsHarmless(h: string, e: string)
    requires HarmlessWord(HEAD_PART) && HarmlessWord(END_PART)
    requires Harmless(h) && Lower(h) == h && (h == "" || (h[0] != 'a' && h[0] != 'o'))
    requires Harmless(e) && Lower(e) == e && (e == "" || (e[0] != 'a' && e[0] != 'o'))
    ensures Harmless(LagBody(h, e)) && Lower(LagBody(h, e)) == LagBody(h, e)
  {
    assert HarmlessWord([' ']);
    HarmlessAcross(END_PART, [' ']);
    HarmlessAcross(END_PART + [' '], e);
    HarmlessAcross(h, [' ']);
    HarmlessAcross(h + [' '], END_PART + [' '] + e);
    HarmlessAcross(HEAD_PART, [' ']);
    HarmlessAcross(HEAD_PART + [' '], h + [' '] + (END_PART + [' '] + e));
  }

  lemma Between(before: string, h: string, middle: string, e: string, m: string)
    requires m == "429" && '4' !in before && '4' !in middle
    ensures Contains(before + [' '] + (h + [' '] + (middle + [' '] + e)), m) <==> Contains(h, m) || Contains(e, m)
  {
    assert m[0] == '4';
    MissingChar(before, m, '4');
    MissingChar(middle, m, '4');
    ContainsAround(middle, ' ', e, m);
    ContainsAround(h, ' ', middle + [' '] + e, m);
    ContainsAround(before, ' ', h + [' '] + (middle + [' '] + e), m);
  }

  /** When the endpoint's own name is innocuous, a lag rejection is never read as a
      range limit, and it is read as transient exactly when neither block number
      contains the digits 429. */
  lemma LagIsTransientExactly(host: string, head: nat, end: nat)
    requires Classify(host + " is behind").Transient?
    ensures !Classify(LagText(host, head, end)).RangeTooLarge?
    ensures Classify(LagText(host, head, end)).Transient?
       <==> !Contains(Decimal(head), "429") && !Contains(Decimal(end), "429")
  {
    MarkersAreRecognisable();
    SeverityOfLagText(MARKERS, host, head, end);
  }

  lemma SeverityOfLagText(ms: Markers, host: string, head: nat, end: nat)
    requires RecognisableMarkers(ms)
    ensures Severity(ms, LagText(host, head, end))
         == Max(Severity(ms, host + " is behind"),
                if Contains(Decimal(head), "429") || Contains(Decimal(end), "429") then 1 else 0)
  {
    var name, body := host + " is behind", LagBody(Decimal(head), Decimal(end));
    assert LagText(host, head, end) == name + [':'] + (body + [';'] + REST_PART);
    SeverityAround(ms, name, ':', body + [';'] + REST_PART);
    SeverityAround(ms, body, ';', REST_PART);
    SeverityOfLagBody(ms, head, end);
    FixedPartsAreHarmless();
    HarmlessSeverity(ms, REST_PART);
    MissingChar(REST_PART, "429", '4');
  }
}
