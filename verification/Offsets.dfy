/** Lifetime counters across node restarts: a token bucket per counter, and banking of
    each incarnation's accepted values. Accepted values are reals (rounding is not
    modelled); a reported value may also be NaN or infinite. */
module Offsets {
  import opened Wrappers

  datatype Counter =
    | UptimeSeconds | PacketsReceived | PacketsForwarded | CoverLoopGenerated | CoverDropGenerated
    | SphinxErrors | ReplayDuplicate | CumulativeAuthorizedRevenueUsd | CumulativeCostUsd
    | CumulativeMaximumCostUsd | ExitPayloadsDispatched | ExitEcho | ExitHttp | ExitRpc | ExitBroadcast
    | ExitEthereum | ExitTraffic | ProfitableCount | UnprofitableCount | EthTransactionsSubmitted
    | EgressForwarded | EgressExited

  const COUNTERS: set<Counter> := {
    UptimeSeconds, PacketsReceived, PacketsForwarded, CoverLoopGenerated, CoverDropGenerated,
    SphinxErrors, ReplayDuplicate, CumulativeAuthorizedRevenueUsd, CumulativeCostUsd,
    CumulativeMaximumCostUsd, ExitPayloadsDispatched, ExitEcho, ExitHttp, ExitRpc, ExitBroadcast,
    ExitEthereum, ExitTraffic, ProfitableCount, UnprofitableCount, EthTransactionsSubmitted,
    EgressForwarded, EgressExited
  }

  const PACKETS_PER_SEC: real := 1000.0
  const SUBMISSIONS_PER_SEC: real := 10.0
  const USD_PER_SEC: real := 1.0
  const UPTIME_PER_SEC: real := 2.0

  /** Largest increase per second accepted for a counter. */
  function RateCeiling(c: Counter): real {
    match c
    case UptimeSeconds => UPTIME_PER_SEC
    case CumulativeAuthorizedRevenueUsd => USD_PER_SEC
    case CumulativeCostUsd => USD_PER_SEC
    case CumulativeMaximumCostUsd => USD_PER_SEC
    case ExitEthereum => SUBMISSIONS_PER_SEC
    case ProfitableCount => SUBMISSIONS_PER_SEC
    case UnprofitableCount => SUBMISSIONS_PER_SEC
    case EthTransactionsSubmitted => SUBMISSIONS_PER_SEC
    case _ => PACKETS_PER_SEC
  }

  /** CumulativeMetrics: one total per field. The source generates its code from the
      list of fields; everything below is for any list of fields with the uptime in
      it, `COUNTERS` being the source's. */
  type Totals = map<Counter, real>

  function Zero(fields: set<Counter>): Totals {
    map c | c in fields :: 0.0
  }

  function Plus(a: Totals, b: Totals): Totals
    requires a.Keys == b.Keys
  {
    map c | c in a.Keys :: a[c] + b[c]
  }

  // ---- Readings ---------------------------------------------------------------

  datatype Reading = Finite(value: real) | PosInf | NegInf | NaN

  const I64_MAX: int := 0x7FFF_FFFF_FFFF_FFFF

  /** The saturating, truncating cast of a float to a 64-bit integer. */
  function AsI64(r: Reading): int {
    match r
    case NaN => 0
    case PosInf => I64_MAX
    case NegInf => -I64_MAX - 1
    case Finite(x) =>
      var whole := if x >= 0.0 then x.Floor else -((-x).Floor);
      Max(-I64_MAX - 1, Min(whole, I64_MAX))
  }

  predicate Below(r: Reading, x: real) {
    r == NegInf || (r.Finite? && r.value < x)
  }

  /** The part of a scraped report the counters depend on. */
  datatype Report = Report(nodeStartTime: Reading, counters: map<Counter, Reading>)

  // ---- Token bucket -------------------------------------------------------------

  datatype Bucket = Bucket(accepted: real, allowance: real)

  function Refilled(b: Bucket, refill: real, capacity: real): real {
    if b.allowance + refill <= capacity then b.allowance + refill else capacity
  }

  /** Whether a report is taken as is. */
  predicate Taken(b: Bucket, reported: Reading, refill: real, capacity: real) {
    reported.Finite? && b.accepted <= reported.value <= b.accepted + Refilled(b, refill, capacity)
  }

  function Advance(b: Bucket, reported: Reading, refill: real, capacity: real): Bucket {
    var available := Refilled(b, refill, capacity);
    if !reported.Finite? || reported.value < b.accepted then Bucket(b.accepted, available)
    else if reported.value - b.accepted > available then Bucket(b.accepted + available, 0.0)
    else Bucket(reported.value, available - (reported.value - b.accepted))
  }

  method AdvanceCounter(accepted: real, reported: Reading, allowance: real, refill: real, capacity: real)
    returns (accepted': real, allowance': real, adjusted: bool)
    ensures Bucket(accepted', allowance') == Advance(Bucket(accepted, allowance), reported, refill, capacity)
    ensures adjusted <==> !Taken(Bucket(accepted, allowance), reported, refill, capacity)
    // Growth is paid out of the allowance left and the refill, and what is not spent is kept.
    ensures 0.0 <= allowance && 0.0 <= refill && 0.0 <= capacity ==>
              && accepted' + allowance' == accepted + (if allowance + refill <= capacity then allowance + refill
                                                       else capacity)
              && (adjusted <==> !(reported.Finite? && accepted' == reported.value))
  {
    accepted' := accepted;
    allowance' := if allowance + refill <= capacity then allowance + refill else capacity;
    if !reported.Finite? || reported.value < accepted {
      return accepted', allowance', true;
    }
    var step := reported.value - accepted;
    if step > allowance' {
      return accepted + allowance', 0.0, true;
    }
    return reported.value, allowance' - step, false;
  }

  /** Whatever is reported, growth is paid out of the refilled allowance, never
      negative, never past the report; and a report taken as is becomes the value. */
  lemma AdvanceConserves(b: Bucket, reported: Reading, refill: real, capacity: real)
    requires 0.0 <= b.allowance && 0.0 <= refill && 0.0 <= capacity
    ensures var b' := Advance(b, reported, refill, capacity);
            && b'.accepted + b'.allowance == b.accepted + Refilled(b, refill, capacity)
            && b.accepted <= b'.accepted && 0.0 <= b'.allowance <= capacity
            && (b'.accepted > b.accepted ==> reported.Finite? && b'.accepted <= reported.value)
            && (Taken(b, reported, refill, capacity) ==> b'.accepted == reported.value)
            && (!Taken(b, reported, refill, capacity) ==>
                  b'.accepted == b.accepted || (b'.allowance == 0.0 && b'.accepted < reported.value))
  {
  }

  /** n times x. */
  function Times(x: real, n: nat): real {
    if n == 0 then 0.0 else Times(x, n - 1) + x
  }

  lemma {:induction false} TimesIsProduct(x: real, n: nat)
    ensures Times(x, n) == x * n as real
  {
    if n > 0 {
      TimesIsProduct(x, n - 1);
      assert x * n as real == x * (n - 1) as real + x;
    }
  }

  /** The bucket after n reports that grow by `growth` each, starting past `base`. */
  function AfterReports(b: Bucket, base: real, growth: real, refill: nat -> real, capacity: real, n: nat): Bucket {
    if n == 0 then b
    else Advance(AfterReports(b, base, growth, refill, capacity, n - 1),
                 Finite(base + Times(growth, n)), refill(n), capacity)
  }

  lemma {:induction false} GapShrinks(
    b: Bucket, base: real, growth: real, r: real, refill: nat -> real, capacity: real, n: nat)
    requires 0.0 <= b.allowance && b.accepted <= base && 0.0 <= growth < r <= capacity
    requires forall k :: r <= refill(k)
    ensures var now := AfterReports(b, base, growth, refill, capacity, n);
            && 0.0 <= now.allowance && now.accepted <= base + Times(growth, n)
            && (base + Times(growth, n) == now.accepted
                || base + Times(growth, n) - now.accepted <= base - b.accepted - Times(r - growth, n))
  {
    if n > 0 {
      GapShrinks(b, base, growth, r, refill, capacity, n - 1);
      assert r <= refill(n);
    }
  }

  /** A node that is D ahead and grows slower than the refill catches up: from the
      first n with n * (r - growth) >= D on, every report is taken as is. */
  lemma CatchesUp(b: Bucket, base: real, growth: real, r: real, refill: nat -> real, capacity: real, n: nat)
    requires 0.0 <= b.allowance && b.accepted <= base && 0.0 <= growth < r <= capacity
    requires forall k :: r <= refill(k)
    requires n >= 1 && base - b.accepted <= Times(r - growth, n)
    ensures Taken(AfterReports(b, base, growth, refill, capacity, n - 1),
                  Finite(base + Times(growth, n)), refill(n), capacity)
    ensures AfterReports(b, base, growth, refill, capacity, n).accepted == base + Times(growth, n)
  {
    GapShrinks(b, base, growth, r, refill, capacity, n - 1);
    assert r <= refill(n);
  }

  // ---- Which reports are taken --------------------------------------------------------

  /** The bucket around finite reports xs[1], xs[2], ..., refilled before each. */
  ghost predicate IsBucketRun(bs: seq<Bucket>, xs: seq<real>, refills: seq<real>, capacity: real) {
    && |bs| == |xs| == |refills| + 1 && bs[0].accepted == xs[0]
    && 0.0 <= bs[0].allowance <= capacity && (forall k :: 0 <= k < |refills| ==> 0.0 <= refills[k])
    && forall k :: 0 <= k < |refills| ==> bs[k + 1] == Advance(bs[k], Finite(xs[k + 1]), refills[k], capacity)
  }

  function SumOf(refills: seq<real>, i: nat, j: nat): real
    requires i <= j <= |refills|
  {
    if i == j then 0.0 else SumOf(refills, i, j - 1) + refills[j - 1]
  }

  /** The growth up to xs[k] leaves at least `spare`, both of the first allowance with all
      refills since, and, from any earlier report on, of a full allowance with the refills
      after the next one. */
  ghost predicate Affords(
    xs: seq<real>, refills: seq<real>, allowance: real, capacity: real, k: nat, spare: real)
    requires |xs| == |refills| + 1 && k < |xs|
  {
    && xs[k] - xs[0] + spare <= allowance + SumOf(refills, 0, k)
    && forall m :: 0 <= m < k ==> xs[k] - xs[m] + spare <= capacity + SumOf(refills, m + 1, k)
  }

  /** What is left is exactly what was not spent. */
  lemma {:induction false} AllowanceIs(
    bs: seq<Bucket>, xs: seq<real>, refills: seq<real>, capacity: real, k: nat, spare: real)
    requires IsBucketRun(bs, xs, refills, capacity) && k < |bs|
    requires forall l :: 0 <= l <= k ==> bs[l].accepted == xs[l]
    ensures spare <= bs[k].allowance <==> Affords(xs, refills, bs[0].allowance, capacity, k, spare)
  {
    if k > 0 {
      var step := xs[k] - xs[k - 1];
      assert bs[k - 1 + 1] == Advance(bs[k - 1], Finite(xs[k - 1 + 1]), refills[k - 1], capacity);
      AllowanceIs(bs, xs, refills, capacity, k - 1, spare + step - refills[k - 1]);
      AffordsNext(xs, refills, bs[0].allowance, capacity, k, spare);
      AllowanceOf(bs, xs, refills, capacity, k);
    }
  }

  /** One more report is paid out of the refilled allowance. */
  lemma AffordsNext(xs: seq<real>, refills: seq<real>, allowance: real, capacity: real, k: nat, spare: real)
    requires |xs| == |refills| + 1 && 0 < k < |xs|
    ensures Affords(xs, refills, allowance, capacity, k, spare)
       <==> Affords(xs, refills, allowance, capacity, k - 1, spare + (xs[k] - xs[k - 1]) - refills[k - 1])
            && spare + (xs[k] - xs[k - 1]) <= capacity
  {
    if Affords(xs, refills, allowance, capacity, k, spare) {
      forall m | 0 <= m < k - 1
        ensures xs[k - 1] - xs[m] + (spare + (xs[k] - xs[k - 1]) - refills[k - 1])
             <= capacity + SumOf(refills, m + 1, k - 1)
      {
        assert xs[k] - xs[m] + spare <= capacity + SumOf(refills, m + 1, k);
      }
      assert xs[k] - xs[k - 1] + spare <= capacity + SumOf(refills, k - 1 + 1, k);
    }
  }

  lemma AllowanceOf(bs: seq<Bucket>, xs: seq<real>, refills: seq<real>, capacity: real, k: nat)
    requires IsBucketRun(bs, xs, refills, capacity) && 0 < k < |bs|
    requires bs[k - 1].accepted == xs[k - 1] && bs[k].accepted == xs[k]
    ensures bs[k].allowance
         == (if bs[k - 1].allowance + refills[k - 1] <= capacity
             then bs[k - 1].allowance + refills[k - 1] else capacity)
            - (xs[k] - xs[k - 1])
  {
    assert bs[k - 1 + 1] == Advance(bs[k - 1], Finite(xs[k - 1 + 1]), refills[k - 1], capacity);
  }

  lemma {:induction false} BucketStaysFine(bs: seq<Bucket>, xs: seq<real>, refills: seq<real>, capacity: real, k: nat)
    requires IsBucketRun(bs, xs, refills, capacity) && k < |bs|
    ensures 0.0 <= bs[k].allowance <= capacity
  {
    if k > 0 {
      BucketStaysFine(bs, xs, refills, capacity, k - 1);
      assert bs[k - 1 + 1] == Advance(bs[k - 1], Finite(xs[k - 1 + 1]), refills[k - 1], capacity);
      AdvanceConserves(bs[k - 1], Finite(xs[k]), refills[k - 1], capacity);
    }
  }

  /** When the reports before n were taken as they are, so is report n exactly when it does
      not fall and its growth can be afforded. */
  lemma LastTakenExactly(bs: seq<Bucket>, xs: seq<real>, refills: seq<real>, capacity: real, n: nat)
    requires IsBucketRun(bs, xs, refills, capacity) && 0 < n < |bs|
    requires forall k :: 0 <= k < n ==> bs[k].accepted == xs[k]
    ensures bs[n].accepted == xs[n]
       <==> xs[n - 1] <= xs[n] && Affords(xs, refills, bs[0].allowance, capacity, n, 0.0)
  {
    BucketStaysFine(bs, xs, refills, capacity, n - 1);
    assert bs[n - 1 + 1] == Advance(bs[n - 1], Finite(xs[n - 1 + 1]), refills[n - 1], capacity);
    AllowanceIs(bs, xs, refills, capacity, n - 1, xs[n] - xs[n - 1] - refills[n - 1]);
    AffordsNext(xs, refills, bs[0].allowance, capacity, n, 0.0);
  }

  // ---- One node -------------------------------------------------------------------

  const NANOS_PER_SEC: nat := 1_000_000_000
  const FIRST_READING_WINDOW: nat := 60 * NANOS_PER_SEC
  const MIN_READING_WINDOW: nat := 1 * NANOS_PER_SEC
  const MAX_READING_WINDOW: nat := 60 * NANOS_PER_SEC

  /** Whole seconds credited to a reading at `now`. */
  function WindowSecs(lastAt: Option<nat>, now: nat): nat {
    var elapsed := if lastAt.None? then FIRST_READING_WINDOW else Max(now - lastAt.value, 0);
    Max(MIN_READING_WINDOW, Min(elapsed, MAX_READING_WINDOW)) / NANOS_PER_SEC
  }

  datatype View = View(
    fields: set<Counter>, start: int, banked: Totals, lastRaw: Totals, lastAt: Option<nat>, allowance: Totals)
  {
    predicate Valid() {
      banked.Keys == lastRaw.Keys == allowance.Keys == fields && UptimeSeconds in fields
    }
  }

  function Unseen(fields: set<Counter>): View {
    View(fields, 0, Zero(fields), Zero(fields), None, Zero(fields))
  }

  predicate Restarted(v: View, m: Report)
    requires v.Valid() && v.fields <= m.counters.Keys
  {
    var start := AsI64(m.nodeStartTime);
    if start > 0 && v.start > 0 then start != v.start
    else v.start != 0 && Below(m.counters[UptimeSeconds], v.lastRaw[UptimeSeconds])
  }

  function StartAfter(v: View, m: Report): int {
    var start := AsI64(m.nodeStartTime);
    if start > 0 then start else if v.start == 0 then -1 else v.start
  }

  /** The banked and current values after the restart check, before the reading counts. */
  function Rebased(v: View, m: Report): (u: View)
    requires v.Valid() && v.fields <= m.counters.Keys
    ensures u.Valid() && u.fields == v.fields
  {
    if Restarted(v, m)
    then v.(banked := Plus(v.banked, v.lastRaw), lastRaw := Zero(v.fields), start := StartAfter(v, m))
    else v.(start := StartAfter(v, m))
  }

  const MAX_WINDOW_SECS: real := 60.0

  /** The most allowance a counter can hold: a full window at its rate ceiling. */
  function Capacity(c: Counter): real {
    RateCeiling(c) * MAX_WINDOW_SECS
  }

  /** `secs` seconds at the counter's rate ceiling (see `RefillIsProduct`). */
  function Refill(c: Counter, secs: nat): real {
    Times(RateCeiling(c), secs)
  }

  lemma RefillIsProduct(c: Counter, secs: nat)
    ensures Refill(c, secs) == RateCeiling(c) * secs as real
  {
    TimesIsProduct(RateCeiling(c), secs);
  }

  function Moved(v: View, m: Report, secs: nat, c: Counter): Bucket
    requires v.Valid() && c in v.fields && c in m.counters
  {
    Advance(Bucket(v.lastRaw[c], v.allowance[c]), m.counters[c], Refill(c, secs), Capacity(c))
  }

  predicate Held(v: View, m: Report, secs: nat, c: Counter)
    requires v.Valid() && c in v.fields && c in m.counters
  {
    !Taken(Bucket(v.lastRaw[c], v.allowance[c]), m.counters[c], Refill(c, secs), Capacity(c))
  }

  /** At least one counter was not taken as reported. */
  ghost predicate AnyHeld(v: View, m: Report, secs: nat)
    requires v.Valid() && v.fields <= m.counters.Keys
  {
    exists c :: c in v.fields && Held(v, m, secs, c)
  }

  /** The report was finite and is now the accepted value. */
  predicate IsReport(r: Reading, accepted: real) {
    r.Finite? && accepted == r.value
  }

  /** At least one counter is not as reported. */
  ghost predicate AnyUnlike(v: View, m: Report)
    requires v.Valid() && v.fields <= m.counters.Keys
  {
    exists c :: c in v.fields && !IsReport(m.counters[c], v.lastRaw[c])
  }

  /** Every counter moved toward its report. */
  function MovedAll(v: View, m: Report, secs: nat): (u: View)
    requires v.Valid() && v.fields <= m.counters.Keys
    ensures u.Valid() && u.fields == v.fields
  {
    v.(lastRaw := map c | c in v.fields :: Moved(v, m, secs, c).accepted,
       allowance := map c | c in v.fields :: Moved(v, m, secs, c).allowance)
  }

  function Observe(v: View, m: Report, now: nat): (u: View)
    requires v.Valid() && v.fields <= m.counters.Keys
    ensures u.Valid() && u.fields == v.fields
  {
    MovedAll(Rebased(v, m), m, WindowSecs(v.lastAt, now)).(lastAt := Some(now))
  }

  function Lifetime(v: View, c: Counter): real
    requires v.Valid() && c in v.fields
  {
    v.banked[c] + v.lastRaw[c]
  }

  class NodeOffset {
    const fields: set<Counter>
    var lastNodeStartTime: int
    var banked: Totals
    var lastRaw: Totals
    var dirty: bool
    var lastObservedAt: Option<nat>
    var allowance: Totals

    function AsView(): View
      reads this
    {
      View(fields, lastNodeStartTime, banked, lastRaw, lastObservedAt, allowance)
    }

    constructor (fields: set<Counter>)
      ensures AsView() == Unseen(fields) && !dirty
    {
      this.fields := fields;
      lastNodeStartTime, banked, lastRaw, dirty := 0, Zero(fields), Zero(fields), false;
      lastObservedAt, allowance := None, Zero(fields);
    }

    /** A node's offset as it was left. */
    constructor Of(v: View, dirty: bool)
      ensures AsView() == v && this.dirty == dirty
    {
      fields, lastNodeStartTime, banked, lastRaw := v.fields, v.start, v.banked, v.lastRaw;
      this.dirty, lastObservedAt, allowance := dirty, v.lastAt, v.allowance;
    }

    /** Record a reading taken at `now`, banking the previous incarnation on a restart. */
    method ObserveReading(m: Report, now: nat) returns (restarted: bool, adjusted: bool)
      requires AsView().Valid() && fields <= m.counters.Keys
      modifies this
      ensures AsView() == Observe(old(AsView()), m, now)
      ensures restarted == Restarted(old(AsView()), m)
      ensures adjusted == AnyHeld(Rebased(old(AsView()), m), m, WindowSecs(old(lastObservedAt), now))
      ensures Sane(old(AsView())) ==> (adjusted <==> AnyUnlike(AsView(), m))
      ensures dirty == (old(dirty) || restarted || lastNodeStartTime != old(lastNodeStartTime))
    {
      restarted := BankRestart(m);
      var secs := WindowSecs(lastObservedAt, now);
      adjusted := AdvanceToward(m, secs);
      lastObservedAt := Some(now);
      if Sane(old(AsView())) {
        AdjustedExactly(old(AsView()), m, now);
      }
    }

    /** Bank the previous incarnation if the node restarted, and keep its start time. */
    method BankRestart(m: Report) returns (restarted: bool)
      requires AsView().Valid() && fields <= m.counters.Keys
      modifies this`banked, this`lastRaw, this`lastNodeStartTime, this`dirty
      ensures AsView() == Rebased(old(AsView()), m)
      ensures restarted == Restarted(old(AsView()), m)
      ensures dirty == (old(dirty) || restarted || lastNodeStartTime != old(lastNodeStartTime))
    {
      var start := AsI64(m.nodeStartTime);
      if start > 0 && lastNodeStartTime > 0 {
        restarted := start != lastNodeStartTime;
      } else {
        restarted := lastNodeStartTime != 0 && Below(m.counters[UptimeSeconds], lastRaw[UptimeSeconds]);
      }
      if restarted {
        banked, lastRaw := Plus(banked, lastRaw), Zero(fields);
        dirty := true;
      }
      if start > 0 && lastNodeStartTime != start {
        lastNodeStartTime := start;
        dirty := true;
      } else if start <= 0 && lastNodeStartTime == 0 {
        lastNodeStartTime := -1;
        dirty := true;
      }
    }

    /** Move every accepted counter toward its report. */
    method AdvanceToward(m: Report, secs: nat) returns (adjusted: bool)
      requires AsView().Valid() && fields <= m.counters.Keys
      modifies this`lastRaw, this`allowance
      ensures AsView() == MovedAll(old(AsView()), m, secs)
      ensures adjusted == AnyHeld(old(AsView()), m, secs)
    {
      ghost var was := AsView();
      adjusted := false;
      var todo := fields;
      while todo != {}
        invariant todo <= fields && AsView().Valid()
        invariant forall c :: c in todo ==> lastRaw[c] == was.lastRaw[c] && allowance[c] == was.allowance[c]
        invariant forall c :: c in fields - todo ==>
                    lastRaw[c] == Moved(was, m, secs, c).accepted && allowance[c] == Moved(was, m, secs, c).allowance
        invariant adjusted <==> exists c :: c in fields - todo && Held(was, m, secs, c)
        decreases todo
      {
        var c :| c in todo;
        var accepted, left, held := AdvanceCounter(lastRaw[c], m.counters[c], allowance[c],
                                                   Refill(c, secs), Capacity(c));
        assert held == Held(was, m, secs, c);
        lastRaw, allowance := lastRaw[c := accepted], allowance[c := left];
        adjusted := adjusted || held;
        todo := todo - {c};
      }
    }

    /** The reading as served: counters replaced by this node's lifetime totals. */
    method Apply() returns (served: Totals)
      requires AsView().Valid()
      ensures served.Keys == fields && forall c :: c in fields ==> served[c] == Lifetime(AsView(), c)
    {
      served := Plus(banked, lastRaw);
    }
  }

  // ---- Whole runs of one node --------------------------------------------------------

  /** What every observation keeps. */
  ghost predicate Sane(v: View) {
    && v.Valid()
    && forall c :: c in v.fields ==> 0.0 <= v.allowance[c] <= Capacity(c) && 0.0 <= v.lastRaw[c]
  }

  lemma MovedBudget(u: View, m: Report, secs: nat, c: Counter)
    requires Sane(u) && c in u.fields && c in m.counters
    ensures 0.0 <= Moved(u, m, secs, c).allowance <= Capacity(c)
    ensures u.lastRaw[c] <= Moved(u, m, secs, c).accepted
    ensures Moved(u, m, secs, c).accepted + Moved(u, m, secs, c).allowance
         <= u.lastRaw[c] + u.allowance[c] + Refill(c, secs)
  {
    RefillIsNonNegative(c, secs);
    AdvanceConserves(Bucket(u.lastRaw[c], u.allowance[c]), m.counters[c], Refill(c, secs), Capacity(c));
  }

  /** Growth of the lifetime is paid out of the allowance and this reading's refill,
      whatever is reported and whether or not the node restarted. */
  lemma ObserveBudget(v: View, m: Report, now: nat, c: Counter)
    requires Sane(v) && v.fields <= m.counters.Keys && c in v.fields
    ensures Sane(Observe(v, m, now))
    ensures Lifetime(v, c) <= Lifetime(Observe(v, m, now), c)
    ensures Lifetime(Observe(v, m, now), c) + Observe(v, m, now).allowance[c]
         <= Lifetime(v, c) + v.allowance[c] + Refill(c, WindowSecs(v.lastAt, now))
  {
    RebasedBudget(v, m, c);
    MovedAllBudget(Rebased(v, m), m, WindowSecs(v.lastAt, now), c);
  }

  /** Banking on a restart moves values without changing the lifetime. */
  lemma RebasedBudget(v: View, m: Report, c: Counter)
    requires Sane(v) && v.fields <= m.counters.Keys && c in v.fields
    ensures Sane(Rebased(v, m)) && Lifetime(Rebased(v, m), c) == Lifetime(v, c)
    ensures Rebased(v, m).allowance == v.allowance
  {
  }

  lemma MovedAllBudget(u: View, m: Report, secs: nat, c: Counter)
    requires Sane(u) && u.fields <= m.counters.Keys && c in u.fields
    ensures Sane(MovedAll(u, m, secs)) && Lifetime(u, c) <= Lifetime(MovedAll(u, m, secs), c)
    ensures Lifetime(MovedAll(u, m, secs), c) + MovedAll(u, m, secs).allowance[c]
         <= Lifetime(u, c) + u.allowance[c] + Refill(c, secs)
  {
    forall d | d in u.fields
      ensures 0.0 <= Moved(u, m, secs, d).allowance <= Capacity(d) && u.lastRaw[d] <= Moved(u, m, secs, d).accepted
    {
      MovedBudget(u, m, secs, d);
    }
    MovedBudget(u, m, secs, c);
  }

  lemma {:induction false} TimesIsNonNegative(x: real, n: nat)
    requires 0.0 <= x
    ensures 0.0 <= Times(x, n)
  {
    if n > 0 {
      TimesIsNonNegative(x, n - 1);
    }
  }

  lemma RefillIsNonNegative(c: Counter, secs: nat)
    ensures 0.0 <= Refill(c, secs)
  {
    TimesIsNonNegative(RateCeiling(c), secs);
  }

  lemma AdjustedExactly(v: View, m: Report, now: nat)
    requires Sane(v) && v.fields <= m.counters.Keys
    ensures AnyHeld(Rebased(v, m), m, WindowSecs(v.lastAt, now))
       <==> AnyUnlike(Observe(v, m, now), m)
  {
    var u, secs := Rebased(v, m), WindowSecs(v.lastAt, now);
    forall c | c in v.fields
      ensures Held(u, m, secs, c) <==> !IsReport(m.counters[c], Observe(v, m, now).lastRaw[c])
    {
      RebasedBudget(v, m, c);
      RefillIsNonNegative(c, secs);
    }
  }

  datatype Scrape = Scrape(report: Report, at: nat)

  ghost predicate Scraped(v: View, s: Scrape, v': View) {
    v.Valid() && v.fields <= s.report.counters.Keys && v' == Observe(v, s.report, s.at)
  }

  /** A node's states around a sequence of scrapes. */
  ghost predicate IsRun(views: seq<View>, scrapes: seq<Scrape>) {
    && |views| == |scrapes| + 1
    && forall k {:trigger Scraped(views[k], scrapes[k], views[k + 1])} ::
         0 <= k < |scrapes| ==> Scraped(views[k], scrapes[k], views[k + 1])
  }

  /** What one observation credited with `secs` seconds does to the budgets. */
  ghost predicate Budgeted(v: View, v': View, secs: nat) {
    Sane(v) ==> Sane(v') && v'.fields == v.fields && forall c :: c in v.fields ==> Paid(v, v', secs, c)
  }

  ghost predicate Paid(v: View, v': View, secs: nat, c: Counter)
    requires v.Valid() && v'.Valid() && c in v.fields && c in v'.fields
  {
    && Lifetime(v, c) <= Lifetime(v', c)
    && Lifetime(v', c) + v'.allowance[c] <= Lifetime(v, c) + v.allowance[c] + Refill(c, secs)
  }

  function Total(xs: seq<nat>, i: nat, j: nat): nat
    requires i <= j <= |xs|
  {
    if i == j then 0 else Total(xs, i, j - 1) + xs[j - 1]
  }

  lemma {:induction false} BudgetsAdd(views: seq<View>, secs: seq<nat>, i: nat, j: nat, c: Counter)
    requires |views| == |secs| + 1 && i <= j <= |secs| && Sane(views[i]) && c in views[i].fields
    requires forall k :: i <= k < j ==> Budgeted(views[k], views[k + 1], secs[k])
    ensures Sane(views[j]) && views[j].fields == views[i].fields
    ensures Paid(views[i], views[j], Total(secs, i, j), c)
    decreases j - i
  {
    if i < j {
      BudgetsAdd(views, secs, i, j - 1, c);
      assert Budgeted(views[j - 1], views[j - 1 + 1], secs[j - 1]);
      assert Paid(views[j - 1], views[j], secs[j - 1], c);
      RefillAdds(c, Total(secs, i, j - 1), secs[j - 1]);
    }
  }

  /** The seconds credited to each scrape. */
  ghost function Credits(views: seq<View>, scrapes: seq<Scrape>): seq<nat>
    requires |views| == |scrapes| + 1
  {
    seq(|scrapes|, k requires 0 <= k < |scrapes| => WindowSecs(views[k].lastAt, scrapes[k].at))
  }

  /** Token bucket over whole runs: between two observations each lifetime counter
      never falls, and grows by at most the allowance left, hence a full allowance,
      plus the refills between them, with any readings and any number of restarts. */
  lemma GrowthIsBounded(views: seq<View>, scrapes: seq<Scrape>, i: nat, j: nat, c: Counter)
    requires IsRun(views, scrapes) && i <= j <= |scrapes| && Sane(views[i]) && c in views[i].fields
    ensures Sane(views[j]) && views[j].fields == views[i].fields
    ensures Paid(views[i], views[j], Total(Credits(views, scrapes), i, j), c)
    ensures 0.0 <= Lifetime(views[j], c) - Lifetime(views[i], c)
                <= Capacity(c) + Refill(c, Total(Credits(views, scrapes), i, j))
  {
    RunIsBudgeted(views, scrapes);
    BudgetsAdd(views, Credits(views, scrapes), i, j, c);
  }

  lemma RunIsBudgeted(views: seq<View>, scrapes: seq<Scrape>)
    requires IsRun(views, scrapes)
    ensures forall k :: 0 <= k < |scrapes| ==> Budgeted(views[k], views[k + 1], Credits(views, scrapes)[k])
  {
    forall k | 0 <= k < |scrapes|
      ensures Budgeted(views[k], views[k + 1], Credits(views, scrapes)[k])
    {
      assert Scraped(views[k], scrapes[k], views[k + 1]);
      ObserveIsBudgeted(views[k], scrapes[k], views[k + 1]);
    }
  }

  lemma ObserveIsBudgeted(v: View, s: Scrape, v': View)
    requires Scraped(v, s, v')
    ensures Budgeted(v, v', WindowSecs(v.lastAt, s.at))
  {
    if Sane(v) {
      forall c | c in v.fields
        ensures Sane(v') && v'.fields == v.fields && Paid(v, v', WindowSecs(v.lastAt, s.at), c)
      {
        ObserveBudget(v, s.report, s.at, c);
      }
    }
  }

  lemma {:induction false} TimesAdds(x: real, m: nat, n: nat)
    ensures Times(x, m) + Times(x, n) == Times(x, m + n)
  {
    if n > 0 {
      TimesAdds(x, m, n - 1);
    }
  }

  lemma RefillAdds(c: Counter, m: nat, n: nat)
    ensures Refill(c, m) + Refill(c, n) == Refill(c, m + n)
  {
    TimesAdds(RateCeiling(c), m, n);
  }

  lemma WindowIsTime(previous: nat, now: nat)
    requires now >= previous + NANOS_PER_SEC
    ensures WindowSecs(Some(previous), now) * NANOS_PER_SEC <= now - previous
  {
  }

  /** Readings at least a second apart are credited no more than the time that passed. */
  lemma {:induction false} CreditIsTime(scrapes: seq<Scrape>, secs: seq<nat>, i: nat, j: nat)
    requires 1 <= i <= j <= |scrapes| == |secs|
    requires forall k :: i <= k < j ==> scrapes[k].at >= scrapes[k - 1].at + NANOS_PER_SEC
                                        && secs[k] == WindowSecs(Some(scrapes[k - 1].at), scrapes[k].at)
    ensures Total(secs, i, j) * NANOS_PER_SEC <= scrapes[j - 1].at - scrapes[i - 1].at
    decreases j - i
  {
    if i < j {
      CreditIsTime(scrapes, secs, i, j - 1);
      assert scrapes[j - 1].at >= scrapes[j - 1 - 1].at + NANOS_PER_SEC;
      WindowIsTime(scrapes[j - 2].at, scrapes[j - 1].at);
    }
  }

  lemma CreditIsSinceLast(views: seq<View>, scrapes: seq<Scrape>, k: nat)
    requires IsRun(views, scrapes) && 1 <= k < |scrapes|
    ensures Credits(views, scrapes)[k] == WindowSecs(Some(scrapes[k - 1].at), scrapes[k].at)
  {
    var i := k - 1;
    assert Scraped(views[i], scrapes[i], views[i + 1]);
  }

  /** So between any two readings a counter grows at most at its rate ceiling for the
      time that passed plus one minute. */
  lemma GrowthIsBoundedByTime(views: seq<View>, scrapes: seq<Scrape>, i: nat, j: nat, c: Counter, seconds: nat)
    requires IsRun(views, scrapes) && 1 <= i <= j <= |scrapes| && Sane(views[i]) && c in views[i].fields
    requires forall k :: i <= k < j ==> scrapes[k].at >= scrapes[k - 1].at + NANOS_PER_SEC
    requires scrapes[j - 1].at - scrapes[i - 1].at <= seconds * NANOS_PER_SEC
    ensures Sane(views[j]) && views[j].fields == views[i].fields
    ensures Lifetime(views[j], c) - Lifetime(views[i], c)
         <= RateCeiling(c) * MAX_WINDOW_SECS + RateCeiling(c) * seconds as real
  {
    GrowthIsBounded(views, scrapes, i, j, c);
    var secs := Credits(views, scrapes);
    forall k | i <= k < j
      ensures secs[k] == WindowSecs(Some(scrapes[k - 1].at), scrapes[k].at)
    {
      CreditIsSinceLast(views, scrapes, k);
    }
    CreditIsTime(scrapes, secs, i, j);
    RefillMonotone(c, Total(secs, i, j), seconds);
    RefillIsProduct(c, seconds);
  }

  // ---- Which readings are adjusted ------------------------------------------------------------

  /** The scrape names its incarnation's start and a finite value of the counter. */
  predicate IsTimed(s: Scrape, c: Counter) {
    AsI64(s.report.nodeStartTime) > 0 && c in s.report.counters && s.report.counters[c].Finite?
  }

  ghost predicate AllTimed(v: View, scrapes: seq<Scrape>, i: nat, j: nat, c: Counter)
    requires i <= j <= |scrapes|
  {
    v.start > 0 && forall k :: i <= k < j ==> IsTimed(scrapes[k], c)
  }

  function Reported(s: Scrape, c: Counter): real {
    if c in s.report.counters && s.report.counters[c].Finite? then s.report.counters[c].value else 0.0
  }

  /** What the incarnation of scrape k had reported before it. */
  function Since(v: View, scrapes: seq<Scrape>, i: nat, k: nat, c: Counter): real
    requires v.Valid() && c in v.fields && i <= k < |scrapes|
  {
    var start := AsI64(scrapes[k].report.nodeStartTime);
    if k == i then (if start == v.start then v.lastRaw[c] else 0.0)
    else if start == AsI64(scrapes[k - 1].report.nodeStartTime) then Reported(scrapes[k - 1], c)
    else 0.0
  }

  /** What the node counted up to scrape k, from a known lifetime on: each incarnation's
      growth, from zero after each restart. */
  function Counted(v: View, scrapes: seq<Scrape>, i: nat, k: nat, c: Counter): real
    requires v.Valid() && c in v.fields && i <= k <= |scrapes|
  {
    if k == i then Lifetime(v, c)
    else Counted(v, scrapes, i, k - 1, c) + Reported(scrapes[k - 1], c) - Since(v, scrapes, i, k - 1, c)
  }

  function CountedUp(v: View, scrapes: seq<Scrape>, i: nat, j: nat, c: Counter): (xs: seq<real>)
    requires v.Valid() && c in v.fields && i <= j <= |scrapes|
    ensures |xs| == j - i + 1 && forall k: nat :: k <= j - i ==> xs[k] == Counted(v, scrapes, i, i + k, c)
  {
    seq(j - i + 1, k requires 0 <= k <= j - i => Counted(v, scrapes, i, i + k, c))
  }

  /** Up to level k the counter grew by no more than the first allowance and the refills
      since, and since any earlier level by no more than a full allowance and the refills
      after the next one. */
  ghost predicate Earned(xs: seq<real>, allowance: real, c: Counter, secs: seq<nat>, i: nat, k: nat)
    requires k < |xs| && i + k <= |secs|
  {
    && xs[k] - xs[0] <= allowance + Refill(c, Total(secs, i, i + k))
    && forall m :: 0 <= m < k ==> xs[k] - xs[m] <= Capacity(c) + Refill(c, Total(secs, i + m + 1, i + k))
  }

  /** The counter never falls, and each growth was earned. */
  ghost predicate WithinAllowance(xs: seq<real>, allowance: real, c: Counter, secs: seq<nat>, i: nat)
    requires xs != [] && i + |xs| - 1 <= |secs|
  {
    && (forall k :: 0 <= k < |xs| - 1 ==> xs[k] <= xs[k + 1])
    && (forall k :: 0 <= k < |xs| ==> Earned(xs, allowance, c, secs, i, k))
  }

  /** After the scrape the counter stands as reported. */
  predicate TakenAsReported(s: Scrape, v: View, c: Counter) {
    c in s.report.counters && c in v.lastRaw && IsReport(s.report.counters[c], v.lastRaw[c])
  }

  ghost predicate AllTaken(views: seq<View>, scrapes: seq<Scrape>, i: nat, j: nat, c: Counter)
    requires i <= j <= |scrapes| && |views| == |scrapes| + 1
  {
    forall k :: i <= k < j ==> TakenAsReported(scrapes[k], views[k + 1], c)
  }

  /** The unused allowance is carried over, and restarts are counted on: readings i, ..., j - 1
      are all taken as reported exactly when what the node counted stays within the
      allowance, over any number of restarts; and then the lifetime is what it counted. */
  lemma {:induction false} TakenAsReportedExactly(
    views: seq<View>, scrapes: seq<Scrape>, i: nat, j: nat, c: Counter)
    requires IsRun(views, scrapes) && i <= j <= |scrapes| && Sane(views[i]) && c in views[i].fields
    requires AllTimed(views[i], scrapes, i, j, c)
    ensures AllTaken(views, scrapes, i, j, c)
       <==> WithinAllowance(CountedUp(views[i], scrapes, i, j, c), views[i].allowance[c], c,
                            Credits(views, scrapes), i)
    ensures AllTaken(views, scrapes, i, j, c) ==>
              && views[j].Valid() && c in views[j].fields
              && Lifetime(views[j], c) == Counted(views[i], scrapes, i, j, c)
    decreases j
  {
    if i < j {
      TakenAsReportedExactly(views, scrapes, i, j - 1, c);
      WithinNext(views[i], scrapes, i, j, c, Credits(views, scrapes));
      AllTakenNext(views, scrapes, i, j, c);
      if AllTaken(views, scrapes, i, j - 1, c) {
        LastReadingTakenExactly(views, scrapes, i, j, c);
      }
      if AllTaken(views, scrapes, i, j, c) {
        LifetimeIsCounted(views, scrapes, i, j, c);
      }
    }
  }

  lemma LifetimeIsCounted(views: seq<View>, scrapes: seq<Scrape>, i: nat, j: nat, c: Counter)
    requires IsRun(views, scrapes) && i < j <= |scrapes| && views[i].Valid() && c in views[i].fields
    requires AllTimed(views[i], scrapes, i, j, c) && AllTaken(views, scrapes, i, j, c)
    ensures views[j].Valid() && c in views[j].fields
    ensures Lifetime(views[j], c) == Counted(views[i], scrapes, i, j, c)
  {
    var n := j - 1;
    OfferedIsCounted(views, scrapes, i, n, j, c);
    TakenMeansOffered(views, scrapes, i, n, j, c);
    assert TakenAsReported(scrapes[n], views[n + 1], c);
  }

  lemma AllTakenNext(views: seq<View>, scrapes: seq<Scrape>, i: nat, j: nat, c: Counter)
    requires i < j <= |scrapes| && |views| == |scrapes| + 1
    ensures AllTaken(views, scrapes, i, j, c)
       <==> AllTaken(views, scrapes, i, j - 1, c) && TakenAsReported(scrapes[j - 1], views[j], c)
  {
    var n := j - 1;
    assert TakenAsReported(scrapes[n], views[n + 1], c) <==> TakenAsReported(scrapes[j - 1], views[j], c);
  }

  /** Whether the last growth was earned. */
  ghost predicate LastEarned(v: View, scrapes: seq<Scrape>, i: nat, j: nat, c: Counter, secs: seq<nat>)
    requires v.Valid() && c in v.fields && i < j <= |scrapes| == |secs|
  {
    var xs, n := CountedUp(v, scrapes, i, j, c), j - i;
    xs[n - 1] <= xs[n] && Earned(xs, v.allowance[c], c, secs, i, n)
  }

  lemma WithinNext(v: View, scrapes: seq<Scrape>, i: nat, j: nat, c: Counter, secs: seq<nat>)
    requires v.Valid() && c in v.fields && i < j <= |scrapes| == |secs|
    ensures WithinAllowance(CountedUp(v, scrapes, i, j, c), v.allowance[c], c, secs, i)
       <==> WithinAllowance(CountedUp(v, scrapes, i, j - 1, c), v.allowance[c], c, secs, i)
            && LastEarned(v, scrapes, i, j, c, secs)
  {
    var xs := CountedUp(v, scrapes, i, j, c);
    assert xs[..j - i] == CountedUp(v, scrapes, i, j - 1, c);
    WithinOneMore(xs, v.allowance[c], c, secs, i);
  }

  lemma WithinOneMore(xs: seq<real>, allowance: real, c: Counter, secs: seq<nat>, i: nat)
    requires |xs| > 1 && i + |xs| - 1 <= |secs|
    ensures var n := |xs| - 1;
            WithinAllowance(xs, allowance, c, secs, i)
            <==> WithinAllowance(xs[..n], allowance, c, secs, i) && xs[n - 1] <= xs[n]
                 && Earned(xs, allowance, c, secs, i, n)
  {
    var n := |xs| - 1;
    forall k | 0 <= k < n
      ensures Earned(xs[..n], allowance, c, secs, i, k) <==> Earned(xs, allowance, c, secs, i, k)
    {
      assert forall m :: 0 <= m <= k ==> xs[..n][m] == xs[m];
    }
    if WithinAllowance(xs, allowance, c, secs, i) {
      forall k | 0 <= k < n - 1
        ensures xs[..n][k] <= xs[..n][k + 1]
      {
        assert xs[k] <= xs[k + 1];
      }
      assert xs[n - 1] <= xs[n - 1 + 1];
    }
    if WithinAllowance(xs[..n], allowance, c, secs, i) && xs[n - 1] <= xs[n] {
      forall k | 0 <= k < n
        ensures xs[k] <= xs[k + 1]
      {
        if k < n - 1 {
          assert xs[..n][k] <= xs[..n][k + 1];
        }
      }
    }
  }

  /** A counter's lifetime as a bucket. */
  function BucketOf(v: View, c: Counter): Bucket {
    if v.Valid() && c in v.fields then Bucket(Lifetime(v, c), v.allowance[c]) else Bucket(0.0, 0.0)
  }

  /** The lifetime if the scrape were taken as reported. */
  function Offered(v: View, s: Scrape, c: Counter): real {
    if v.Valid() && v.fields <= s.report.counters.Keys && c in v.fields
    then Rebased(v, s.report).banked[c] + Reported(s, c)
    else 0.0
  }

  lemma LastReadingTakenExactly(views: seq<View>, scrapes: seq<Scrape>, i: nat, j: nat, c: Counter)
    requires IsRun(views, scrapes) && i < j <= |scrapes| && Sane(views[i]) && c in views[i].fields
    requires AllTimed(views[i], scrapes, i, j, c) && AllTaken(views, scrapes, i, j - 1, c)
    ensures TakenAsReported(scrapes[j - 1], views[j], c)
       <==> LastEarned(views[i], scrapes, i, j, c, Credits(views, scrapes))
  {
    var n, secs := j - i, Credits(views, scrapes);
    var xs, bs, refills :=
      CountedUp(views[i], scrapes, i, j, c), BucketsOf(views, i, j, c), RefillsOf(c, secs, i, j);
    BucketsAreARun(views, scrapes, i, j, c);
    BucketsHoldCounted(views, scrapes, i, j, c);
    LastTakenExactly(bs, xs, refills, Capacity(c), n);
    EarnedMeansAffords(xs, refills, views[i].allowance[c], c, secs, i, n);
    LastBucket(views, scrapes, i, j, c);
  }

  lemma LastBucket(views: seq<View>, scrapes: seq<Scrape>, i: nat, j: nat, c: Counter)
    requires IsRun(views, scrapes) && i < j <= |scrapes| && Sane(views[i]) && c in views[i].fields
    requires AllTimed(views[i], scrapes, i, j, c) && AllTaken(views, scrapes, i, j - 1, c)
    ensures BucketsOf(views, i, j, c)[0].allowance == views[i].allowance[c]
    ensures BucketsOf(views, i, j, c)[j - i].accepted == CountedUp(views[i], scrapes, i, j, c)[j - i]
       <==> TakenAsReported(scrapes[j - 1], views[j], c)
  {
    var n := j - 1;
    assert BucketsOf(views, i, j, c)[0] == BucketOf(views[i + 0], c);
    assert BucketsOf(views, i, j, c)[j - i] == BucketOf(views[i + (j - i)], c);
    assert CountedUp(views[i], scrapes, i, j, c)[j - i] == Counted(views[i], scrapes, i, i + (j - i), c);
    OfferedIsCounted(views, scrapes, i, n, j, c);
    TakenMeansOffered(views, scrapes, i, n, j, c);
  }

  lemma BucketsHoldCounted(views: seq<View>, scrapes: seq<Scrape>, i: nat, j: nat, c: Counter)
    requires IsRun(views, scrapes) && i < j <= |scrapes| && Sane(views[i]) && c in views[i].fields
    requires AllTimed(views[i], scrapes, i, j, c) && AllTaken(views, scrapes, i, j - 1, c)
    ensures forall k :: 0 <= k < j - i ==>
              BucketsOf(views, i, j, c)[k].accepted == CountedUp(views[i], scrapes, i, j, c)[k]
  {
    forall k: nat | k < j - i
      ensures BucketsOf(views, i, j, c)[k].accepted == CountedUp(views[i], scrapes, i, j, c)[k]
    {
      OfferedIsCounted(views, scrapes, i, i + k, j, c);
      assert CountedUp(views[i], scrapes, i, j, c)[k] == Counted(views[i], scrapes, i, i + k, c);
    }
  }

  lemma TakenMeansOffered(views: seq<View>, scrapes: seq<Scrape>, i: nat, at: nat, j: nat, c: Counter)
    requires IsRun(views, scrapes) && i <= at < j <= |scrapes| && views[i].Valid() && c in views[i].fields
    requires AllTimed(views[i], scrapes, i, j, c)
    ensures views[at + 1].Valid() && c in views[at + 1].fields
    ensures TakenAsReported(scrapes[at], views[at + 1], c)
       <==> Lifetime(views[at + 1], c) == Offered(views[at], scrapes[at], c)
  {
    StaysTimed(views, scrapes, i, at, c);
    assert Scraped(views[at], scrapes[at], views[at + 1]) && IsTimed(scrapes[at], c);
  }

  function RefillsOf(c: Counter, secs: seq<nat>, i: nat, j: nat): (refills: seq<real>)
    requires i <= j <= |secs|
    ensures |refills| == j - i && forall k :: 0 <= k < j - i ==> refills[k] == Refill(c, secs[i + k])
  {
    seq(j - i, k requires 0 <= k < j - i => Refill(c, secs[i + k]))
  }

  function BucketsOf(views: seq<View>, i: nat, j: nat, c: Counter): (bs: seq<Bucket>)
    requires i <= j < |views|
    ensures |bs| == j - i + 1 && forall k :: 0 <= k <= j - i ==> bs[k] == BucketOf(views[i + k], c)
  {
    seq(j - i + 1, k requires 0 <= k <= j - i => BucketOf(views[i + k], c))
  }

  /** With the readings before j - 1 taken, the lifetimes move as a bucket that is offered
      what the node counted. */
  lemma BucketsAreARun(views: seq<View>, scrapes: seq<Scrape>, i: nat, j: nat, c: Counter)
    requires IsRun(views, scrapes) && i < j <= |scrapes| && Sane(views[i]) && c in views[i].fields
    requires AllTimed(views[i], scrapes, i, j, c) && AllTaken(views, scrapes, i, j - 1, c)
    ensures IsBucketRun(BucketsOf(views, i, j, c), CountedUp(views[i], scrapes, i, j, c),
                        RefillsOf(c, Credits(views, scrapes), i, j), Capacity(c))
  {
    var bs, xs, refills :=
      BucketsOf(views, i, j, c), CountedUp(views[i], scrapes, i, j, c), RefillsOf(c, Credits(views, scrapes), i, j);
    assert bs[0] == BucketOf(views[i + 0], c) && xs[0] == Counted(views[i], scrapes, i, i + 0, c);
    forall k: nat | k < j - i
      ensures 0.0 <= refills[k] && bs[k + 1] == Advance(bs[k], Finite(xs[k + 1]), refills[k], Capacity(c))
    {
      CountedMoves(views, scrapes, i, i + k, j, c);
      assert bs[k] == BucketOf(views[i + k], c) && bs[k + 1] == BucketOf(views[i + (k + 1)], c);
      assert xs[k + 1] == Counted(views[i], scrapes, i, i + (k + 1), c);
    }
  }

  lemma CountedMoves(views: seq<View>, scrapes: seq<Scrape>, i: nat, at: nat, j: nat, c: Counter)
    requires IsRun(views, scrapes) && i <= at < j <= |scrapes| && views[i].Valid() && c in views[i].fields
    requires AllTimed(views[i], scrapes, i, j, c) && AllTaken(views, scrapes, i, j - 1, c)
    ensures 0.0 <= Refill(c, Credits(views, scrapes)[at])
    ensures BucketOf(views[at + 1], c)
         == Advance(BucketOf(views[at], c), Finite(Counted(views[i], scrapes, i, at + 1, c)),
                    Refill(c, Credits(views, scrapes)[at]), Capacity(c))
  {
    OfferedIsCounted(views, scrapes, i, at, j, c);
    AdvancesAt(views, scrapes, i, at, j, c);
    CreditAt(views, scrapes, at);
    RefillIsNonNegative(c, Credits(views, scrapes)[at]);
  }

  /** A reading moves the lifetime as it moves the accepted value. */
  lemma AdvancesAt(views: seq<View>, scrapes: seq<Scrape>, i: nat, at: nat, j: nat, c: Counter)
    requires IsRun(views, scrapes) && i <= at < j <= |scrapes| && views[i].Valid() && c in views[i].fields
    requires AllTimed(views[i], scrapes, i, j, c)
    ensures BucketOf(views[at + 1], c)
         == Advance(BucketOf(views[at], c), Finite(Offered(views[at], scrapes[at], c)),
                    Refill(c, WindowSecs(views[at].lastAt, scrapes[at].at)), Capacity(c))
  {
    StaysTimed(views, scrapes, i, at, c);
    assert Scraped(views[at], scrapes[at], views[at + 1]) && IsTimed(scrapes[at], c);
    NextBucket(views[at], scrapes[at], views[at + 1], c);
  }

  lemma NextBucket(v: View, s: Scrape, v': View, c: Counter)
    requires Scraped(v, s, v') && IsTimed(s, c) && c in v.fields
    ensures c in v'.fields
    ensures BucketOf(v', c)
         == Advance(BucketOf(v, c), Finite(Offered(v, s, c)), Refill(c, WindowSecs(v.lastAt, s.at)), Capacity(c))
  {
    var u := Rebased(v, s.report);
    ShiftedAdvance(Bucket(u.lastRaw[c], u.allowance[c]), u.banked[c], Reported(s, c),
                   Refill(c, WindowSecs(v.lastAt, s.at)), Capacity(c));
  }

  lemma ShiftedAdvance(b: Bucket, shift: real, x: real, refill: real, capacity: real)
    ensures var b' := Advance(b, Finite(x), refill, capacity);
            Advance(b.(accepted := shift + b.accepted), Finite(shift + x), refill, capacity)
            == b'.(accepted := shift + b'.accepted)
  {
  }

  lemma CreditAt(views: seq<View>, scrapes: seq<Scrape>, k: nat)
    requires |views| == |scrapes| + 1 && k < |scrapes|
    ensures Credits(views, scrapes)[k] == WindowSecs(views[k].lastAt, scrapes[k].at)
  {
  }

  /** With the readings before it taken, a scrape offers what the node counted. */
  lemma {:induction false} OfferedIsCounted(
    views: seq<View>, scrapes: seq<Scrape>, i: nat, at: nat, j: nat, c: Counter)
    requires IsRun(views, scrapes) && i <= at < j <= |scrapes| && views[i].Valid() && c in views[i].fields
    requires AllTimed(views[i], scrapes, i, j, c) && AllTaken(views, scrapes, i, j - 1, c)
    ensures BucketOf(views[at], c).accepted == Counted(views[i], scrapes, i, at, c)
    ensures Offered(views[at], scrapes[at], c) == Counted(views[i], scrapes, i, at + 1, c)
    decreases at
  {
    if i < at {
      var n := at - 1;
      OfferedIsCounted(views, scrapes, i, n, j, c);
      TakenMeansOffered(views, scrapes, i, n, j, c);
      assert TakenAsReported(scrapes[n], views[n + 1], c);
    }
    SinceLastReport(views, scrapes, i, at, j, c);
    OffersMore(views[at], scrapes[at], Since(views[i], scrapes, i, at, c), c);
  }

  lemma SinceLastReport(views: seq<View>, scrapes: seq<Scrape>, i: nat, at: nat, j: nat, c: Counter)
    requires IsRun(views, scrapes) && i <= at < j <= |scrapes| && views[i].Valid() && c in views[i].fields
    requires AllTimed(views[i], scrapes, i, j, c) && AllTaken(views, scrapes, i, j - 1, c)
    ensures views[at].Valid() && views[at].fields <= scrapes[at].report.counters.Keys && c in views[at].fields
    ensures views[at].start > 0 && IsTimed(scrapes[at], c)
    ensures Since(views[i], scrapes, i, at, c)
         == if AsI64(scrapes[at].report.nodeStartTime) == views[at].start then views[at].lastRaw[c] else 0.0
  {
    StaysTimed(views, scrapes, i, at, c);
    assert Scraped(views[at], scrapes[at], views[at + 1]) && IsTimed(scrapes[at], c);
    if i < at {
      var n := at - 1;
      assert TakenAsReported(scrapes[n], views[n + 1], c);
    }
  }

  /** An offer adds the growth since the incarnation's last report, or since zero. */
  lemma OffersMore(v: View, s: Scrape, since: real, c: Counter)
    requires v.Valid() && v.fields <= s.report.counters.Keys && c in v.fields && v.start > 0 && IsTimed(s, c)
    requires since == if AsI64(s.report.nodeStartTime) == v.start then v.lastRaw[c] else 0.0
    ensures Offered(v, s, c) == Lifetime(v, c) + Reported(s, c) - since
  {
  }

  /** The start time known is the last one named. */
  lemma {:induction false} StaysTimed(views: seq<View>, scrapes: seq<Scrape>, i: nat, k: nat, c: Counter)
    requires IsRun(views, scrapes) && i <= k <= |scrapes| && views[i].Valid() && views[i].start > 0
    requires forall l :: i <= l < k ==> IsTimed(scrapes[l], c)
    ensures views[k].Valid() && views[k].fields == views[i].fields && views[k].start > 0
    ensures i < k ==> views[k].start == AsI64(scrapes[k - 1].report.nodeStartTime)
    decreases k
  {
    if i < k {
      var n := k - 1;
      StaysTimed(views, scrapes, i, n, c);
      assert Scraped(views[n], scrapes[n], views[n + 1]) && IsTimed(scrapes[n], c);
      NamesStart(views[n], scrapes[n], views[n + 1], c);
    }
  }

  lemma NamesStart(v: View, s: Scrape, v': View, c: Counter)
    requires Scraped(v, s, v') && IsTimed(s, c)
    ensures v'.Valid() && v'.fields == v.fields && v'.start == AsI64(s.report.nodeStartTime) > 0
  {
  }

  lemma {:induction false} SumOfRefills(refills: seq<real>, c: Counter, secs: seq<nat>, i: nat, m: nat, k: nat)
    requires m <= k <= |refills| && i + |refills| <= |secs|
    requires forall l :: 0 <= l < |refills| ==> refills[l] == Refill(c, secs[i + l])
    ensures SumOf(refills, m, k) == Refill(c, Total(secs, i + m, i + k))
    decreases k
  {
    if m < k {
      SumOfRefills(refills, c, secs, i, m, k - 1);
      RefillAdds(c, Total(secs, i + m, i + k - 1), secs[i + k - 1]);
    }
  }

  lemma EarnedMeansAffords(
    xs: seq<real>, refills: seq<real>, allowance: real, c: Counter, secs: seq<nat>, i: nat, k: nat)
    requires |xs| == |refills| + 1 && i + |refills| <= |secs| && k < |xs|
    requires forall l :: 0 <= l < |refills| ==> refills[l] == Refill(c, secs[i + l])
    ensures Affords(xs, refills, allowance, Capacity(c), k, 0.0) <==> Earned(xs, allowance, c, secs, i, k)
  {
    SumOfRefills(refills, c, secs, i, 0, k);
    AffordsIfEarned(xs, refills, allowance, c, secs, i, k);
    if Affords(xs, refills, allowance, Capacity(c), k, 0.0) {
      forall m | 0 <= m < k
        ensures xs[k] - xs[m] <= Capacity(c) + Refill(c, Total(secs, i + m + 1, i + k))
      {
        assert xs[k] - xs[m] + 0.0 <= Capacity(c) + SumOf(refills, m + 1, k);
        SumOfRefills(refills, c, secs, i, m + 1, k);
      }
    }
  }

  lemma AffordsIfEarned(
    xs: seq<real>, refills: seq<real>, allowance: real, c: Counter, secs: seq<nat>, i: nat, k: nat)
    requires |xs| == |refills| + 1 && i + |refills| <= |secs| && k < |xs|
    requires forall l :: 0 <= l < |refills| ==> refills[l] == Refill(c, secs[i + l])
    ensures Earned(xs, allowance, c, secs, i, k) ==> Affords(xs, refills, allowance, Capacity(c), k, 0.0)
  {
    SumOfRefills(refills, c, secs, i, 0, k);
    if Earned(xs, allowance, c, secs, i, k) {
      forall m | 0 <= m < k
        ensures xs[k] - xs[m] + 0.0 <= Capacity(c) + SumOf(refills, m + 1, k)
      {
        assert xs[k] - xs[m] <= Capacity(c) + Refill(c, Total(secs, i + m + 1, i + k));
        SumOfRefills(refills, c, secs, i, m + 1, k);
      }
    }
  }

  const UPTIME_STEP: nat := 30
  const SCRAPE_EVERY: nat := 5

  /** The uptime a node reports that refreshes it every 30 seconds, k scrapes after one at
      which `phase` scrapes had passed since the last refresh, when it reported `base`. */
  function Stepped(base: real, phase: nat, k: nat): real {
    base + (UPTIME_STEP * ((phase + k) / (UPTIME_STEP / SCRAPE_EVERY))) as real
  }

  ghost predicate EverySoOften(scrapes: seq<Scrape>, i: nat, j: nat, since: nat)
    requires i <= j <= |scrapes|
  {
    forall k :: i <= k < j ==> scrapes[k].at == since + SCRAPE_EVERY * (k - i + 1) * NANOS_PER_SEC
  }

  /** Whole seconds up to a minute are credited in full. */
  lemma WindowIsElapsed(last: nat, seconds: nat)
    requires 1 <= seconds <= 60
    ensures WindowSecs(Some(last), last + seconds * NANOS_PER_SEC) == seconds
  {
    assert seconds * NANOS_PER_SEC / NANOS_PER_SEC == seconds;
  }

  lemma CreditedInFull(views: seq<View>, scrapes: seq<Scrape>, i: nat, j: nat)
    requires IsRun(views, scrapes) && i <= j <= |scrapes|
    requires views[i].lastAt.Some? && EverySoOften(scrapes, i, j, views[i].lastAt.value)
    ensures forall k :: i <= k < j ==> Credits(views, scrapes)[k] == SCRAPE_EVERY
  {
    forall k | i <= k < j
      ensures Credits(views, scrapes)[k] == SCRAPE_EVERY
    {
      CreditAt(views, scrapes, k);
      var before := k - 1;
      if i < k {
        assert Scraped(views[before], scrapes[before], views[before + 1]);
        assert scrapes[before].at == views[i].lastAt.value + SCRAPE_EVERY * (before - i + 1) * NANOS_PER_SEC;
      }
      WindowIsElapsed(views[k].lastAt.value, SCRAPE_EVERY);
    }
  }

  /** Without a start time a restart shows by the uptime falling: then the lifetime counts on
      from where it was, and otherwise nothing is banked. */
  lemma UntimedRestartCountsOn(v: View, m: Report, now: nat, c: Counter)
    requires Sane(v) && v.fields <= m.counters.Keys && c in v.fields && v.start != 0
    requires AsI64(m.nodeStartTime) <= 0 && m.counters[UptimeSeconds].Finite? && m.counters[c].Finite?
    requires m.counters[c].value >= 0.0
    requires m.counters[c].value <= Capacity(c)
    requires m.counters[c].value <= v.allowance[c] + Refill(c, WindowSecs(v.lastAt, now))
    ensures m.counters[UptimeSeconds].value < v.lastRaw[UptimeSeconds] ==>
              Lifetime(Observe(v, m, now), c) == Lifetime(v, c) + m.counters[c].value
    ensures m.counters[UptimeSeconds].value >= v.lastRaw[UptimeSeconds] ==>
              Observe(v, m, now).banked == v.banked
  {
  }

  /** Scraped every five seconds, such a node is never adjusted. */
  lemma SteppedUptimeIsTaken(views: seq<View>, scrapes: seq<Scrape>, i: nat, j: nat, phase: nat)
    requires IsRun(views, scrapes) && i <= j <= |scrapes| && Sane(views[i])
    requires AllTimed(views[i], scrapes, i, j, UptimeSeconds)
    requires phase < 6 && 10.0 * (phase as real) - 30.0 <= views[i].allowance[UptimeSeconds]
    requires views[i].lastAt.Some? && EverySoOften(scrapes, i, j, views[i].lastAt.value)
    requires forall k :: i <= k < j ==>
               AsI64(scrapes[k].report.nodeStartTime) == views[i].start
               && Reported(scrapes[k], UptimeSeconds) == Stepped(views[i].lastRaw[UptimeSeconds], phase, k - i + 1)
    ensures AllTaken(views, scrapes, i, j, UptimeSeconds)
  {
    var c, secs, xs := UptimeSeconds, Credits(views, scrapes), CountedUp(views[i], scrapes, i, j, UptimeSeconds);
    var base := Lifetime(views[i], c);
    CreditedInFull(views, scrapes, i, j);
    forall k: nat | k < |xs|
      ensures xs[k] == Stepped(base, phase, k)
    {
      SteppedIsCounted(views[i], scrapes, i, i + k, phase);
    }
    forall k: nat | k < |xs|
      ensures Earned(xs, views[i].allowance[c], c, secs, i, k)
    {
      SteppedIsEarnedAt(xs, base, phase, views[i].allowance[c], secs, i, j, k);
    }
    forall k: nat | k < |xs| - 1
      ensures xs[k] <= xs[k + 1]
    {
      assert xs[k] == Stepped(base, phase, k) && xs[k + 1] == Stepped(base, phase, k + 1);
      SteppedIsEarned(base, phase, k, k + 1);
    }
    assert WithinAllowance(xs, views[i].allowance[c], c, secs, i);
    TakenAsReportedExactly(views, scrapes, i, j, c);
  }

  lemma {:induction false} SteppedIsCounted(v: View, scrapes: seq<Scrape>, i: nat, k: nat, phase: nat)
    requires v.Valid() && i <= k <= |scrapes| && phase < 6
    requires forall l :: i <= l < k ==>
               AsI64(scrapes[l].report.nodeStartTime) == v.start
               && Reported(scrapes[l], UptimeSeconds) == Stepped(v.lastRaw[UptimeSeconds], phase, l - i + 1)
    ensures Counted(v, scrapes, i, k, UptimeSeconds) == Stepped(Lifetime(v, UptimeSeconds), phase, k - i)
    decreases k
  {
    if i < k {
      SteppedIsCounted(v, scrapes, i, k - 1, phase);
    }
  }

  lemma SteppedIsEarnedAt(
    xs: seq<real>, base: real, phase: nat, allowance: real, secs: seq<nat>, i: nat, j: nat, k: nat)
    requires phase < 6 && 0.0 <= allowance && 10.0 * (phase as real) - 30.0 <= allowance
    requires i <= j <= |secs| && |xs| == j - i + 1 && k < |xs| && forall l :: i <= l < j ==> secs[l] == SCRAPE_EVERY
    requires forall l: nat :: l < |xs| ==> xs[l] == Stepped(base, phase, l)
    ensures Earned(xs, allowance, UptimeSeconds, secs, i, k)
  {
    SteppedIsEarned(base, phase, 0, k);
    assert xs[0] == Stepped(base, phase, 0) && xs[k] == Stepped(base, phase, k);
    EvenCredits(secs, i, i, i + k, j);
    UptimeRefill(k);
    forall m: nat | m < k
      ensures xs[k] - xs[m] <= Capacity(UptimeSeconds) + Refill(UptimeSeconds, Total(secs, i + m + 1, i + k))
    {
      assert xs[m] == Stepped(base, phase, m);
      SteppedIsEarned(base, phase, m, k);
      EvenCredits(secs, i, i + m + 1, i + k, j);
      UptimeRefill(k - m - 1);
    }
  }

  lemma UptimeRefill(k: nat)
    ensures Refill(UptimeSeconds, SCRAPE_EVERY * k) == 10.0 * (k as real)
  {
    RefillIsProduct(UptimeSeconds, SCRAPE_EVERY * k);
    assert (SCRAPE_EVERY * k) as real == 5.0 * (k as real);
  }

  lemma SteppedIsEarned(base: real, phase: nat, m: nat, k: nat)
    requires phase < 6 && m <= k
    ensures 0.0 <= Stepped(base, phase, k) - Stepped(base, phase, m) <= 10.0 * (k - m) as real + 110.0
    ensures m == 0 ==> Stepped(base, phase, k) - Stepped(base, phase, m) <= 10.0 * (k as real)
                       || Stepped(base, phase, k) - Stepped(base, phase, m) <= 10.0 * (phase + k) as real - 30.0
  {
    var a, b := (phase + m) / 6, (phase + k) / 6;
    assert 0 <= 30 * b - 30 * a <= 10 * (k - m) + 110;
    assert (30 * b) as real - (30 * a) as real == (30 * b - 30 * a) as real;
    if m == 0 && b > 0 {
      assert 30 * b - 30 * a <= 10 * (phase + k) - 30;
    }
  }

  lemma {:induction false} EvenCredits(secs: seq<nat>, i: nat, m: nat, k: nat, j: nat)
    requires i <= m <= k <= j <= |secs| && forall l :: i <= l < j ==> secs[l] == SCRAPE_EVERY
    ensures Total(secs, m, k) == SCRAPE_EVERY * (k - m)
    decreases k
  {
    if m < k {
      EvenCredits(secs, i, m, k - 1, j);
    }
  }

  lemma EveryCounterIsAField(c: Counter)
    ensures c in COUNTERS
  {
    match c
    case _ =>
  }

  /** For the indexer's counters: none of them grows faster. */
  lemma EveryCounterIsBounded(views: seq<View>, scrapes: seq<Scrape>, i: nat, j: nat, seconds: nat)
    requires IsRun(views, scrapes) && 1 <= i <= j <= |scrapes| && Sane(views[i]) && views[i].fields == COUNTERS
    requires forall k :: i <= k < j ==> scrapes[k].at >= scrapes[k - 1].at + NANOS_PER_SEC
    requires scrapes[j - 1].at - scrapes[i - 1].at <= seconds * NANOS_PER_SEC
    ensures Sane(views[j]) && views[j].fields == COUNTERS
    ensures forall c :: c in COUNTERS ==>
              Lifetime(views[j], c) - Lifetime(views[i], c)
              <= RateCeiling(c) * MAX_WINDOW_SECS + RateCeiling(c) * seconds as real
  {
    forall c | c in COUNTERS
      ensures Sane(views[j]) && views[j].fields == COUNTERS
      ensures Lifetime(views[j], c) - Lifetime(views[i], c)
           <= RateCeiling(c) * MAX_WINDOW_SECS + RateCeiling(c) * seconds as real
    {
      GrowthIsBoundedByTime(views, scrapes, i, j, c, seconds);
    }
    EveryCounterIsAField(UptimeSeconds);
    GrowthIsBoundedByTime(views, scrapes, i, j, UptimeSeconds, seconds);
  }

  lemma RefillMonotone(c: Counter, m: nat, n: nat)
    requires m <= n
    ensures Refill(c, m) <= Refill(c, n)
  {
    RefillAdds(c, m, n - m);
    RefillIsNonNegative(c, n - m);
  }

  // ---- Crashes of the indexer -----------------------------------------------------------

  /** A row as it is persisted and as a fresh process loads it. */
  datatype Row = Row(start: int, banked: Totals, lastRaw: Totals)

  function Persisted(v: View): Row {
    Row(v.start, v.banked, v.lastRaw)
  }

  /** A row whose last reading cannot be decoded. */
  function BankedOnly(fields: set<Counter>, r: Row): Row {
    r.(lastRaw := Zero(fields))
  }

  function Loaded(fields: set<Counter>, r: Row): View {
    View(fields, r.start, r.banked, r.lastRaw, None, Zero(fields))
  }

  /** One node's counter in the indexer: its state, every row saved so far, and, for
      each incarnation of the node so far, the highest value it reported. */
  datatype World = World(view: View, rows: seq<Row>, highest: seq<real>)

  datatype Step =
    | NodeStarts                       // the node begins a new incarnation
    | Reads(report: Report, at: nat)   // the indexer reads the current incarnation
    | Saves                            // the indexer persists the row
    | Restarts(row: nat)               // the indexer crashes and loads some row saved earlier
    | RestartsOnTotals(row: nat)       // it crashes and cannot decode the row's last reading
    | StartsOver                       // it crashes with no row saved, or none that can be decoded

  function Higher(x: real, r: Reading): real {
    if r.Finite? && r.value > x then r.value else x
  }

  /** The indexer read `m`. */
  function AfterRead(w: World, m: Report, at: nat, c: Counter): World
    requires w.view.Valid() && w.view.fields <= m.counters.Keys && w.highest != [] && c in w.view.fields
  {
    var last := |w.highest| - 1;
    w.(view := Observe(w.view, m, at), highest := w.highest[last := Higher(w.highest[last], m.counters[c])])
  }

  ghost predicate Next(w: World, step: Step, w': World, c: Counter, starts: nat -> int)
    requires w.view.Valid()
  {
    match step
    case NodeStarts => w' == w.(highest := w.highest + [0.0])
    case Reads(m, at) =>
      && w.highest != [] && w.view.fields <= m.counters.Keys && c in w.view.fields
      && AsI64(m.nodeStartTime) == starts(|w.highest| - 1)
      && w' == AfterRead(w, m, at, c)
    case Saves => w' == w.(rows := w.rows + [Persisted(w.view)])
    case Restarts(i) => i < |w.rows| && w' == w.(view := Loaded(w.view.fields, w.rows[i]))
    case RestartsOnTotals(i) =>
      i < |w.rows| && w' == w.(view := Loaded(w.view.fields, BankedOnly(w.view.fields, w.rows[i])))
    case StartsOver => w' == w.(view := Unseen(w.view.fields))
  }

  function Sum(xs: seq<real>): real {
    if xs == [] then 0.0 else Sum(xs[..|xs| - 1]) + xs[|xs| - 1]
  }

  /** A row holds at most what incarnations 0, ..., k - 1 reported before its current
      one k, and at most what k reported. */
  ghost predicate RowOk(r: Row, fields: set<Counter>, c: Counter, highest: seq<real>, starts: nat -> int) {
    && r.banked.Keys == r.lastRaw.Keys == fields && UptimeSeconds in fields && c in fields
    && ((r.start == 0 && r.banked[c] == r.lastRaw[c] == 0.0)
        || exists k: nat :: HoldsFor(r, c, highest, starts, k))
  }

  ghost predicate HoldsFor(r: Row, c: Counter, highest: seq<real>, starts: nat -> int, k: nat)
    requires c in r.banked && c in r.lastRaw
  {
    k < |highest| && r.start == starts(k) && r.banked[c] <= Sum(highest[..k]) && 0.0 <= r.lastRaw[c] <= highest[k]
  }

  ghost predicate WorldOk(w: World, c: Counter, starts: nat -> int) {
    && w.view.Valid() && Sane(w.view)
    && RowOk(Persisted(w.view), w.view.fields, c, w.highest, starts)
    && (forall i :: 0 <= i < |w.rows| ==> RowOk(w.rows[i], w.view.fields, c, w.highest, starts) && SaneRow(w.rows[i]))
    && (forall k :: 0 <= k < |w.highest| ==> w.highest[k] >= 0.0)
  }

  ghost predicate SaneRow(r: Row) {
    forall d :: d in r.lastRaw ==> 0.0 <= r.lastRaw[d]
  }

  /** `later` has at least the incarnations of `earlier`, each at least as high. */
  ghost predicate Grown(earlier: seq<real>, later: seq<real>) {
    |earlier| <= |later| && forall k :: 0 <= k < |earlier| ==> 0.0 <= earlier[k] <= later[k]
  }

  lemma {:induction false} SumGrows(earlier: seq<real>, later: seq<real>)
    requires Grown(earlier, later) && (forall k :: 0 <= k < |later| ==> later[k] >= 0.0)
    ensures 0.0 <= Sum(earlier) <= Sum(later)
    decreases |later|
  {
    if later != [] {
      var n := |later| - 1;
      if |earlier| == |later| {
        SumGrows(earlier[..n], later[..n]);
      } else {
        SumGrows(earlier, later[..n]);
      }
    }
  }

  lemma RowStaysOk(r: Row, fields: set<Counter>, c: Counter, earlier: seq<real>, later: seq<real>, starts: nat -> int)
    requires RowOk(r, fields, c, earlier, starts) && Grown(earlier, later)
    requires forall k :: 0 <= k < |later| ==> later[k] >= 0.0
    ensures RowOk(r, fields, c, later, starts)
  {
    if k: nat :| HoldsFor(r, c, earlier, starts, k) {
      SumGrows(earlier[..k], later[..k]);
      assert HoldsFor(r, c, later, starts, k);
    }
  }

  /** Incarnations have distinct positive start times. */
  ghost predicate DistinctStarts(starts: nat -> int) {
    forall i: nat, j: nat :: starts(i) > 0 && (starts(i) == starts(j) ==> i == j)
  }

  /** After the restart check the node's current incarnation is the newest one. */
  lemma RebasedHolds(v: View, m: Report, c: Counter, highest: seq<real>, starts: nat -> int)
    requires v.Valid() && v.fields <= m.counters.Keys && c in v.fields && highest != [] && DistinctStarts(starts)
    requires AsI64(m.nodeStartTime) == starts(|highest| - 1)
    requires RowOk(Persisted(v), v.fields, c, highest, starts)
    requires forall k :: 0 <= k < |highest| ==> highest[k] >= 0.0
    ensures HoldsFor(Persisted(Rebased(v, m)), c, highest, starts, |highest| - 1)
  {
    var n := |highest| - 1;
    assert starts(n) > 0;
    if v.start == 0 {
      SumGrows([], highest[..n]);
    } else {
      var k: nat :| HoldsFor(Persisted(v), c, highest, starts, k);
      assert starts(k) > 0;
      if k < n {
        assert v.start != starts(n);
        assert highest[..k + 1][..k] == highest[..k];
        SumGrows(highest[..k + 1], highest[..n]);
      }
    }
  }

  /** A reading that is no higher than `high` moves the accepted value no higher. */
  lemma MovesUnder(u: View, m: Report, secs: nat, c: Counter, high: real)
    requires Sane(u) && c in u.fields && c in m.counters
    requires u.lastRaw[c] <= high && (m.counters[c].Finite? ==> m.counters[c].value <= high)
    ensures 0.0 <= Moved(u, m, secs, c).accepted <= high
  {
    RefillIsNonNegative(c, secs);
    AdvanceConserves(Bucket(u.lastRaw[c], u.allowance[c]), m.counters[c], Refill(c, secs), Capacity(c));
  }

  lemma ReadKeepsRowOk(v: View, m: Report, at: nat, c: Counter, highest: seq<real>, starts: nat -> int)
    requires Sane(v) && v.fields <= m.counters.Keys && c in v.fields && highest != [] && DistinctStarts(starts)
    requires AsI64(m.nodeStartTime) == starts(|highest| - 1)
    requires RowOk(Persisted(v), v.fields, c, highest, starts)
    requires forall k :: 0 <= k < |highest| ==> highest[k] >= 0.0
    requires m.counters[c].Finite? ==> m.counters[c].value <= highest[|highest| - 1]
    ensures RowOk(Persisted(Observe(v, m, at)), v.fields, c, highest, starts)
  {
    RebasedHolds(v, m, c, highest, starts);
    MovesUnder(Rebased(v, m), m, WindowSecs(v.lastAt, at), c, highest[|highest| - 1]);
    assert HoldsFor(Persisted(Observe(v, m, at)), c, highest, starts, |highest| - 1);
  }

  /** More incarnations or higher reports keep every row fine. */
  lemma RowsStayOk(w: World, highest: seq<real>, c: Counter, starts: nat -> int)
    requires WorldOk(w, c, starts) && Grown(w.highest, highest)
    requires forall k :: 0 <= k < |highest| ==> highest[k] >= 0.0
    ensures WorldOk(w.(highest := highest), c, starts)
  {
    RowStaysOk(Persisted(w.view), w.view.fields, c, w.highest, highest, starts);
    forall i | 0 <= i < |w.rows|
      ensures RowOk(w.rows[i], w.view.fields, c, highest, starts)
    {
      RowStaysOk(w.rows[i], w.view.fields, c, w.highest, highest, starts);
    }
  }

  lemma ReadKeepsWorldOk(w: World, m: Report, at: nat, c: Counter, starts: nat -> int)
    requires WorldOk(w, c, starts) && DistinctStarts(starts) && w.highest != []
    requires w.view.fields <= m.counters.Keys && AsI64(m.nodeStartTime) == starts(|w.highest| - 1)
    requires m.counters[c].Finite? ==> m.counters[c].value <= w.highest[|w.highest| - 1]
    ensures WorldOk(w.(view := Observe(w.view, m, at)), c, starts)
  {
    ObserveBudget(w.view, m, at, c);
    ReadKeepsRowOk(w.view, m, at, c, w.highest, starts);
  }

  lemma HighestGrows(highest: seq<real>, r: Reading)
    requires highest != [] && forall k :: 0 <= k < |highest| ==> highest[k] >= 0.0
    ensures var last := |highest| - 1;
            var later := highest[last := Higher(highest[last], r)];
            && Grown(highest, later) && (forall k :: 0 <= k < |later| ==> later[k] >= 0.0)
            && (r.Finite? ==> r.value <= later[last])
  {
  }

  lemma RaisedReadKeepsWorldOk(w: World, highest: seq<real>, m: Report, at: nat, c: Counter, starts: nat -> int)
    requires WorldOk(w, c, starts) && DistinctStarts(starts) && highest != []
    requires w.view.fields <= m.counters.Keys && AsI64(m.nodeStartTime) == starts(|highest| - 1)
    requires Grown(w.highest, highest) && (forall k :: 0 <= k < |highest| ==> highest[k] >= 0.0)
    requires m.counters[c].Finite? ==> m.counters[c].value <= highest[|highest| - 1]
    ensures WorldOk(w.(view := Observe(w.view, m, at), highest := highest), c, starts)
  {
    var raised := w.(highest := highest);
    RowsStayOk(w, highest, c, starts);
    ReadKeepsWorldOk(raised, m, at, c, starts);
    assert raised.(view := Observe(w.view, m, at)) == w.(view := Observe(w.view, m, at), highest := highest);
  }

  lemma ReadStepKeepsWorldOk(w: World, m: Report, at: nat, c: Counter, starts: nat -> int)
    requires WorldOk(w, c, starts) && DistinctStarts(starts) && w.highest != []
    requires w.view.fields <= m.counters.Keys && c in w.view.fields && AsI64(m.nodeStartTime) == starts(|w.highest| - 1)
    ensures WorldOk(AfterRead(w, m, at, c), c, starts)
  {
    HighestGrows(w.highest, m.counters[c]);
    RaisedReadKeepsWorldOk(w, AfterRead(w, m, at, c).highest, m, at, c, starts);
  }

  lemma SaveKeepsWorldOk(w: World, c: Counter, starts: nat -> int)
    requires WorldOk(w, c, starts)
    ensures WorldOk(w.(rows := w.rows + [Persisted(w.view)]), c, starts)
  {
  }

  lemma RestartKeepsWorldOk(w: World, i: nat, c: Counter, starts: nat -> int)
    requires WorldOk(w, c, starts) && i < |w.rows|
    ensures WorldOk(w.(view := Loaded(w.view.fields, w.rows[i])), c, starts)
  {
    assert SaneRow(w.rows[i]);
  }

  lemma BankedOnlyStaysOk(r: Row, fields: set<Counter>, c: Counter, highest: seq<real>, starts: nat -> int)
    requires RowOk(r, fields, c, highest, starts) && forall k :: 0 <= k < |highest| ==> highest[k] >= 0.0
    ensures RowOk(BankedOnly(fields, r), fields, c, highest, starts)
  {
    if k: nat :| HoldsFor(r, c, highest, starts, k) {
      assert HoldsFor(BankedOnly(fields, r), c, highest, starts, k);
    }
  }

  lemma RestartOnTotalsKeepsWorldOk(w: World, i: nat, c: Counter, starts: nat -> int)
    requires WorldOk(w, c, starts) && i < |w.rows|
    ensures WorldOk(w.(view := Loaded(w.view.fields, BankedOnly(w.view.fields, w.rows[i]))), c, starts)
  {
    BankedOnlyStaysOk(w.rows[i], w.view.fields, c, w.highest, starts);
  }

  lemma StartingOverKeepsWorldOk(w: World, c: Counter, starts: nat -> int)
    requires WorldOk(w, c, starts)
    ensures WorldOk(w.(view := Unseen(w.view.fields)), c, starts)
  {
    assert forall d :: d in w.view.fields ==> 0.0 <= Capacity(d);
  }

  lemma StepKeepsWorldOk(w: World, step: Step, w': World, c: Counter, starts: nat -> int)
    requires WorldOk(w, c, starts) && DistinctStarts(starts) && Next(w, step, w', c, starts)
    ensures WorldOk(w', c, starts) && w'.view.fields == w.view.fields
  {
    match step
    case NodeStarts =>
      RowsStayOk(w, w'.highest, c, starts);
    case Reads(report, at) =>
      ReadStepKeepsWorldOk(w, report, at, c, starts);
    case Saves =>
      SaveKeepsWorldOk(w, c, starts);
    case Restarts(row) =>
      RestartKeepsWorldOk(w, row, c, starts);
    case RestartsOnTotals(row) =>
      RestartOnTotalsKeepsWorldOk(w, row, c, starts);
    case StartsOver =>
      StartingOverKeepsWorldOk(w, c, starts);
  }

  /** No double counting: however often the indexer crashes and whichever saved row it
      resumes from, whole or without its last reading, or none, a lifetime counter never
      exceeds the sum over the node's incarnations of the highest value each reported. */
  lemma {:induction false} NoDoubleCounting(
    run: seq<World>, steps: seq<Step>, fields: set<Counter>, c: Counter, starts: nat -> int)
    requires |run| == |steps| + 1 && c in fields && UptimeSeconds in fields && DistinctStarts(starts)
    requires run[0] == World(Unseen(fields), [], [])
    requires forall i :: 0 <= i < |steps| ==> run[i].view.Valid() && Next(run[i], steps[i], run[i + 1], c, starts)
    ensures WorldOk(run[|steps|], c, starts) && run[|steps|].view.fields == fields
    ensures Lifetime(run[|steps|].view, c) <= Sum(run[|steps|].highest)
    decreases |steps|
  {
    var n := |steps|;
    if n == 0 {
      assert forall d :: d in fields ==> 0.0 <= Capacity(d);
    } else {
      NoDoubleCounting(run[..n], steps[..n - 1], fields, c, starts);
      StepKeepsWorldOk(run[n - 1], steps[n - 1], run[n], c, starts);
    }
    OkMeansCounted(run[n], c, starts);
  }

  /** For the indexer's counters: none of them is counted twice. */
  lemma NoCounterIsDoubleCounted(run: seq<World>, steps: seq<Step>, c: Counter, starts: nat -> int)
    requires |run| == |steps| + 1 && DistinctStarts(starts) && run[0] == World(Unseen(COUNTERS), [], [])
    requires forall i :: 0 <= i < |steps| ==> run[i].view.Valid() && Next(run[i], steps[i], run[i + 1], c, starts)
    ensures run[|steps|].view.Valid() && c in run[|steps|].view.fields
    ensures Lifetime(run[|steps|].view, c) <= Sum(run[|steps|].highest)
  {
    EveryCounterIsAField(c);
    EveryCounterIsAField(UptimeSeconds);
    NoDoubleCounting(run, steps, COUNTERS, c, starts);
  }

  lemma OkMeansCounted(w: World, c: Counter, starts: nat -> int)
    requires WorldOk(w, c, starts)
    ensures Lifetime(w.view, c) <= Sum(w.highest)
  {
    if k: nat :| HoldsFor(Persisted(w.view), c, w.highest, starts, k) {
      assert w.highest[..k + 1][..k] == w.highest[..k];
      SumGrows(w.highest[..k + 1], w.highest);
    } else {
      SumGrows([], w.highest);
    }
  }
}
