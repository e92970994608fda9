/** Backoff delays, the bounded retry loop, and adaptive log-range sizing. */
module Retry {
  import opened Wrappers

  // ---- Backoff ---------------------------------------------------------------

  /** A duration in nanoseconds. */
  type Duration = nat
  const NANOS_PER_MILLI: nat := 1_000_000
  const DURATION_MAX: nat := U64_MAX * 1_000_000_000 + 999_999_999
  const MAX_EXPONENT: nat := 20

  const CHUNK_BACKOFF_BASE: Duration := 500 * NANOS_PER_MILLI
  const CHUNK_BACKOFF_CAP: Duration := 30_000 * NANOS_PER_MILLI

  function Pow2(n: nat): (p: nat)
    ensures p >= 1
  {
    if n == 0 then 1 else 2 * Pow2(n - 1)
  }

  /** The jitter modulus does not overflow 64 bits. */
  predicate IsCap(cap: Duration) {
    cap <= DURATION_MAX && cap / 2 / NANOS_PER_MILLI < U64_MAX
  }

  /** The widest delay after `attempt` failures. */
  function Window(attempt: nat, base: Duration, cap: Duration): Duration {
    var exponent := Min(if attempt == 0 then 0 else attempt - 1, MAX_EXPONENT);
    var product := base * Pow2(exponent);
    if product > DURATION_MAX then cap else Min(product, cap)
  }

  /** The window with its upper half randomised by `entropy`. */
  function Jittered(window: Duration, entropy: nat): Duration {
    var half := window / 2;
    var spanMs := half / NANOS_PER_MILLI;
    half + (if spanMs == 0 then 0 else entropy % (spanMs + 1)) * NANOS_PER_MILLI
  }

  /** Exponential backoff. */
  function BackoffDelay(attempt: nat, base: Duration, cap: Duration, entropy: nat): Duration
    requires IsCap(cap)
  {
    Jittered(Window(attempt, base, cap), entropy)
  }

  lemma JitteredWithin(window: Duration, entropy: nat)
    ensures window / 2 <= Jittered(window, entropy) <= window
  {
    var spanMs := window / 2 / NANOS_PER_MILLI;
    if spanMs > 0 {
      assert entropy % (spanMs + 1) <= spanMs;
    }
  }

  /** Up to attempt 21 every delay lies in the upper half of
      min(cap, base * 2^(attempt - 1)); later attempts keep the window of attempt 21. */
  lemma DelayWithinWindow(attempt: nat, base: Duration, cap: Duration, entropy: nat)
    requires IsCap(cap) && attempt >= 1
    ensures var c := Min(cap, base * Pow2(Min(attempt - 1, MAX_EXPONENT)));
            c / 2 <= BackoffDelay(attempt, base, cap, entropy) <= c
  {
    JitteredWithin(Window(attempt, base, cap), entropy);
  }

  /** The delays after failed attempts 1, ..., n. */
  ghost function TotalDelay(n: nat, base: Duration, cap: Duration, entropy: nat -> nat): Duration
    requires IsCap(cap)
  {
    if n == 0 then 0 else TotalDelay(n - 1, base, cap, entropy) + BackoffDelay(n, base, cap, entropy(n))
  }

  lemma {:induction false} TotalDelayUnderCap(n: nat, base: Duration, cap: Duration, entropy: nat -> nat)
    requires IsCap(cap)
    ensures TotalDelay(n, base, cap, entropy) <= cap * n
  {
    if n > 0 {
      TotalDelayUnderCap(n - 1, base, cap, entropy);
      DelayWithinWindow(n, base, cap, entropy(n));
      Distribute(cap, n - 1, 1);
    }
  }

  lemma {:induction false} TotalDelayUnderDoubling(n: nat, base: Duration, cap: Duration, entropy: nat -> nat)
    requires IsCap(cap) && n <= MAX_EXPONENT + 1
    ensures TotalDelay(n, base, cap, entropy) <= base * (Pow2(n) - 1)
  {
    if n == 0 {
      assert Pow2(n) - 1 == 0;
    } else {
      TotalDelayUnderDoubling(n - 1, base, cap, entropy);
      DelayWithinWindow(n, base, cap, entropy(n));
      Distribute(base, Pow2(n - 1) - 1, Pow2(n - 1));
    }
  }

  lemma TotalDelayWithin(n: nat, attempts: nat, base: Duration, cap: Duration, entropy: nat -> nat)
    requires IsCap(cap) && n < attempts
    ensures TotalDelay(n, base, cap, entropy) <= cap * (attempts - 1)
    ensures attempts <= MAX_EXPONENT + 2 ==> TotalDelay(n, base, cap, entropy) <= base * (Pow2(attempts - 1) - 1)
  {
    TotalDelayUnderCap(n, base, cap, entropy);
    MultiplyMonotone(cap, n, attempts - 1);
    if attempts <= MAX_EXPONENT + 2 {
      TotalDelayUnderDoubling(n, base, cap, entropy);
      Pow2Monotone(n, attempts - 1);
      MultiplyMonotone(base, Pow2(n) - 1, Pow2(attempts - 1) - 1);
    }
  }

  lemma Distribute(factor: nat, x: nat, y: nat)
    ensures factor * x + factor * y == factor * (x + y)
  {
  }

  lemma MultiplyMonotone(factor: nat, x: nat, y: nat)
    requires x <= y
    ensures factor * x <= factor * y
  {
  }

  /** `operation(k)` is what the k-th call answers, `cancelled(k)` whether shutdown
      interrupts the sleep after it. Returns the calls made and the time slept. */
  method RetryRpcAttempts<T, E>(
    maxAttempts: nat, operation: nat -> Result<T, E>, entropy: nat -> nat, cancelled: nat -> bool)
    returns (r: Option<Result<T, E>>, calls: nat, slept: Duration)
    ensures 1 <= calls <= Max(maxAttempts, 1)
    ensures forall k :: 0 <= k < calls - 1 ==> operation(k).Err? && !cancelled(k)
    ensures r == None ==> operation(calls - 1).Err? && cancelled(calls - 1) && calls < maxAttempts
    ensures r.Some? ==> r.value == operation(calls - 1) && (r.value.Ok? || calls == Max(maxAttempts, 1))
    ensures slept <= CHUNK_BACKOFF_CAP * (Max(maxAttempts, 1) - 1)
    ensures maxAttempts <= MAX_EXPONENT + 2 ==>
              slept <= CHUNK_BACKOFF_BASE * (Pow2(Max(maxAttempts, 1) - 1) - 1)
    ensures slept == TotalDelay(calls - 1, CHUNK_BACKOFF_BASE, CHUNK_BACKOFF_CAP, entropy)
  {
    r, calls, slept := AttemptAll(maxAttempts, operation, entropy, cancelled);
    TotalDelayWithin(calls - 1, Max(maxAttempts, 1), CHUNK_BACKOFF_BASE, CHUNK_BACKOFF_CAP, entropy);
  }

  /** The attempts, with a sleep after each that failed but the last. */
  method AttemptAll<T, E>(
    maxAttempts: nat, operation: nat -> Result<T, E>, entropy: nat -> nat, cancelled: nat -> bool)
    returns (r: Option<Result<T, E>>, calls: nat, slept: Duration)
    ensures 1 <= calls <= Max(maxAttempts, 1)
    ensures forall k :: 0 <= k < calls - 1 ==> operation(k).Err? && !cancelled(k)
    ensures r == None ==> operation(calls - 1).Err? && cancelled(calls - 1) && calls < maxAttempts
    ensures r.Some? ==> r.value == operation(calls - 1) && (r.value.Ok? || calls == Max(maxAttempts, 1))
    ensures slept == TotalDelay(calls - 1, CHUNK_BACKOFF_BASE, CHUNK_BACKOFF_CAP, entropy)
  {
    var attempt := 0;
    slept := 0;
    while true
      invariant attempt <= Max(maxAttempts, 1) - 1
      invariant forall k :: 0 <= k < attempt ==> operation(k).Err? && !cancelled(k)
      invariant slept == TotalDelay(attempt, CHUNK_BACKOFF_BASE, CHUNK_BACKOFF_CAP, entropy)
      decreases Max(maxAttempts, 1) - attempt
    {
      var outcome := operation(attempt);
      if outcome.Ok? {
        return Some(outcome), attempt + 1, slept;
      }
      attempt := attempt + 1;
      if attempt >= maxAttempts {
        return Some(outcome), attempt, slept;
      }
      if cancelled(attempt - 1) {
        return None, attempt, slept;
      }
      slept := slept + BackoffDelay(attempt, CHUNK_BACKOFF_BASE, CHUNK_BACKOFF_CAP, entropy(attempt));
    }
  }

  lemma {:induction false} Pow2Monotone(m: nat, n: nat)
    requires m <= n
    ensures Pow2(m) <= Pow2(n)
  {
    if m < n {
      Pow2Monotone(m, n - 1);
    }
  }

  // ---- Adaptive range size ---------------------------------------------------

  const GROW_AFTER_SUCCESSES: nat := 2

  datatype Chunk = Chunk(size: nat, min: nat, ceiling: nat, streak: nat) {
    function OnSuccess(): Chunk {
      if streak + 1 >= GROW_AFTER_SUCCESSES && size < ceiling
      then this.(size := Min(Min(size * 2, U64_MAX), ceiling), streak := 0)
      else this.(streak := streak + 1)
    }

    /** `failedSpan` blocks were rejected; `hint` is the limit the provider named. */
    function OnRangeError(failedSpan: nat, hint: Option<nat>): Chunk {
      if failedSpan <= min then this.(streak := 0)
      else
        var next := if hint.Some? && hint.value < failedSpan then hint.value else failedSpan / 2;
        var size' := Max(next, min);
        Chunk(size', min, Max(Min(ceiling, size'), min), 0)
    }

    function OnRateLimited(): Chunk {
      this.(size := Max(size / 2, min), streak := 0)
    }

    /** What one task alone keeps. */
    predicate Valid() {
      1 <= min <= size <= ceiling <= U64_MAX
    }

    /** What still holds when two tasks report spans read at different sizes. */
    predicate WeaklyValid(max: nat) {
      1 <= min <= size <= max && min <= ceiling <= max <= U64_MAX
    }
  }

  class AdaptiveChunk {
    var size: nat
    const min: nat
    var ceiling: nat
    var streak: nat

    function State(): Chunk
      reads this
    {
      Chunk(size, min, ceiling, streak)
    }

    constructor (initial: nat, min: nat, max: nat)
      requires initial <= U64_MAX && min <= U64_MAX && max <= U64_MAX
      ensures State().Valid()
      ensures this.min == Max(min, 1) && ceiling == Max(max, this.min)
      ensures min <= initial <= max && 1 <= min ==> size == initial
    {
      var floor := Max(min, 1);
      var limit := Max(max, floor);
      this.min := floor;
      this.size := Max(floor, Min(initial, limit));
      this.ceiling := limit;
      this.streak := 0;
    }

    method OnSuccess()
      modifies this
      ensures State() == old(State()).OnSuccess()
    {
      streak := streak + 1;
      if streak >= GROW_AFTER_SUCCESSES && size < ceiling {
        size := Min(Min(size * 2, U64_MAX), ceiling);
        streak := 0;
      }
    }

    method OnRangeError(failedSpan: nat, hint: Option<nat>)
      modifies this
      ensures State() == old(State()).OnRangeError(failedSpan, hint)
    {
      streak := 0;
      if failedSpan <= min {
        return;
      }
      var halved := failedSpan / 2;
      var next := if hint.Some? && hint.value < failedSpan then hint.value else halved;
      size := Max(next, min);
      ceiling := Max(Min(ceiling, size), min);
    }

    method OnRateLimited()
      modifies this
      ensures State() == old(State()).OnRateLimited()
    {
      size := Max(size / 2, min);
      streak := 0;
    }
  }

  datatype Report = Success | RangeError(span: nat, hint: Option<nat>) | RateLimited

  function AfterReport(c: Chunk, r: Report): Chunk {
    match r
    case Success => c.OnSuccess()
    case RangeError(span, hint) => c.OnRangeError(span, hint)
    case RateLimited => c.OnRateLimited()
  }

  function AfterReports(c: Chunk, reports: seq<Report>): Chunk
    decreases |reports|
  {
    if reports == [] then c else AfterReports(AfterReport(c, reports[0]), reports[1..])
  }

  /** One task at a time: a rejected span never exceeds the size it was read from. */
  predicate OneTask(c: Chunk, reports: seq<Report>)
    decreases |reports|
  {
    reports == [] ||
    ((reports[0].RangeError? ==> reports[0].span <= c.size) && OneTask(AfterReport(c, reports[0]), reports[1..]))
  }

  /** With one task, min <= size <= ceiling in every run, and the ceiling never rises. */
  lemma {:induction false} OneTaskKeepsOrder(c: Chunk, reports: seq<Report>)
    requires c.Valid() && OneTask(c, reports)
    ensures AfterReports(c, reports).Valid()
    ensures AfterReports(c, reports).min == c.min && AfterReports(c, reports).ceiling <= c.ceiling
    decreases |reports|
  {
    if reports != [] {
      OneTaskKeepsOrder(AfterReport(c, reports[0]), reports[1..]);
    }
  }

  /** Once a provider named a usable limit, no run ever asks for more again. */
  lemma LearnedLimitHolds(c: Chunk, span: nat, limit: nat, reports: seq<Report>)
    requires c.Valid() && span <= c.size && c.min <= limit < span
    requires OneTask(c.OnRangeError(span, Some(limit)), reports)
    ensures AfterReports(c.OnRangeError(span, Some(limit)), reports).size <= limit
  {
    OneTaskKeepsOrder(c.OnRangeError(span, Some(limit)), reports);
  }

  /** A range error keeps size <= ceiling exactly when the span is at the floor or
      the next size is within the ceiling as it stands. */
  lemma RangeErrorKeepsOrderExactly(c: Chunk, span: nat, hint: Option<nat>)
    requires c.Valid()
    ensures c.OnRangeError(span, hint).size <= c.OnRangeError(span, hint).ceiling
       <==> span <= c.min
            || c.min >= (if hint.Some? && hint.value < span then hint.value else span / 2)
            || c.ceiling >= (if hint.Some? && hint.value < span then hint.value else span / 2)
  {
  }

  function AfterSuccesses(c: Chunk, n: nat): Chunk {
    if n == 0 then c else AfterSuccesses(c, n - 1).OnSuccess()
  }

  /** The size comes back: it doubles with every second success, up to the ceiling. */
  lemma {:induction false} SuccessesDouble(c: Chunk, n: nat)
    requires c.Valid() && c.streak == 0
    ensures AfterSuccesses(c, n).size == Min(c.size * Pow2(n / 2), c.ceiling)
    ensures AfterSuccesses(c, n).min == c.min && AfterSuccesses(c, n).ceiling == c.ceiling
    ensures AfterSuccesses(c, n).size < c.ceiling ==> AfterSuccesses(c, n).streak == n % 2
  {
    if n > 0 {
      var m := n - 1;
      SuccessesDouble(c, m);
      if n % 2 == 0 {
        assert Pow2(n / 2) == 2 * Pow2(m / 2);
        DoubledPower(c.size, m / 2);
      } else {
        assert n / 2 == m / 2;
      }
    }
  }

  lemma DoubledPower(size: nat, n: nat)
    ensures size * Pow2(n + 1) == 2 * (size * Pow2(n))
  {
    assert size * (2 * Pow2(n)) == 2 * (size * Pow2(n));
  }

  function AfterRateLimits(c: Chunk, n: nat): Chunk {
    if n == 0 then c else AfterRateLimits(c, n - 1).OnRateLimited()
  }

  /** Rate limits halve the size down to the floor and leave the ceiling. */
  lemma {:induction false} RateLimitsHalve(c: Chunk, n: nat)
    requires c.Valid()
    ensures AfterRateLimits(c, n) == c.(size := Max(c.size / Pow2(n), c.min), streak := if n == 0 then c.streak else 0)
  {
    if n > 0 {
      RateLimitsHalve(c, n - 1);
      HalvedPower(c.size, n - 1);
      if c.size / Pow2(n - 1) < c.min {
        assert c.min / 2 <= c.min;
      }
    }
  }

  lemma HalvedPower(size: nat, n: nat)
    ensures size / Pow2(n + 1) == size / Pow2(n) / 2
  {
    DivideTwice(size, Pow2(n));
  }

  lemma DivideTwice(x: nat, p: nat)
    requires p > 0
    ensures x / (2 * p) == x / p / 2
  {
    var q, r := x / p, x % p;
    assert x == p * q + r;
    assert q == 2 * (q / 2) + q % 2;
    assert p * q == 2 * p * (q / 2) + p * (q % 2);
    Quotient(x, 2 * p, q / 2, p * (q % 2) + r);
  }

  lemma Quotient(x: nat, d: nat, q: nat, r: nat)
    requires d > 0 && x == d * q + r && r < d
    ensures x / d == q
  {
    var e := x / d;
    assert x == d * e + x % d;
    if e < q {
      Distribute(d, e, 1);
      MultiplyMonotone(d, e + 1, q);
    } else if q < e {
      Distribute(d, q, 1);
      MultiplyMonotone(d, q + 1, e);
    }
  }

  /** The size after full spans were rejected, no limit being named, until one is within `limit`. */
  function Settled(c: Chunk, limit: nat): Chunk
    requires c.Valid() && c.min <= limit
    decreases c.size
  {
    if c.size <= limit then c else Settled(c.OnRangeError(c.size, None), limit)
  }

  /** It gives up less than half of the limit, and becomes the ceiling. */
  lemma {:induction false} RangeErrorsSettleNearTheLimit(c: Chunk, limit: nat)
    requires c.Valid() && c.min <= limit < c.size
    ensures var s := Settled(c, limit); s.size <= limit < 2 * s.size + 2 && s.ceiling == s.size && s.Valid()
    decreases c.size
  {
    var next := c.OnRangeError(c.size, None);
    if limit < next.size {
      RangeErrorsSettleNearTheLimit(next, limit);
    }
  }

  /** The size shared by several tasks, with the span each has in flight. */
  datatype Shared = Shared(chunk: Chunk, inFlight: map<nat, nat>)
  datatype SharedStep = Begin(task: nat, span: nat) | Finish(task: nat, report: Report)

  ghost predicate SharedNext(s: Shared, step: SharedStep, s': Shared) {
    match step
    case Begin(task, span) =>
      task !in s.inFlight && span <= s.chunk.size && s' == s.(inFlight := s.inFlight[task := span])
    case Finish(task, report) =>
      && task in s.inFlight && (report.RangeError? ==> report.span == s.inFlight[task])
      && s' == Shared(AfterReport(s.chunk, report), s.inFlight - {task})
  }

  ghost predicate SharedInv(s: Shared, max: nat) {
    s.chunk.WeaklyValid(max) && forall t :: t in s.inFlight ==> s.inFlight[t] <= max
  }

  ghost predicate SharedRun(run: seq<Shared>, steps: seq<SharedStep>) {
    |run| == |steps| + 1 && forall i :: 0 <= i < |steps| ==> SharedNext(run[i], steps[i], run[i + 1])
  }

  /** With any number of tasks, size stays in [min, configured max] and the ceiling
      never rises. */
  lemma {:induction false} SharedRunsStayBounded(run: seq<Shared>, steps: seq<SharedStep>, max: nat)
    requires SharedRun(run, steps) && SharedInv(run[0], max)
    ensures SharedInv(run[|steps|], max)
    ensures run[|steps|].chunk.ceiling <= run[0].chunk.ceiling && run[|steps|].chunk.min == run[0].chunk.min
    decreases |steps|
  {
    var n := |steps|;
    if n > 0 {
      SharedRunsStayBounded(run[..n], steps[..n - 1], max);
      assert SharedNext(run[n - 1], steps[n - 1], run[n]);
    }
  }

  /** But size <= ceiling can fail: two tasks read 50000, one is told 10000, then the
      other halves its own span. */
  lemma TwoTasksCanPassTheCeiling() returns (run: seq<Shared>, steps: seq<SharedStep>)
    ensures SharedRun(run, steps)
    ensures run[0].chunk.Valid() && run[0].inFlight == map[]
    ensures run[|steps|].chunk.size == 25_000 && run[|steps|].chunk.ceiling == 10_000
  {
    var start := Chunk(50_000, 500, 1_000_000, 0);
    var told := start.OnRangeError(50_000, Some(10_000));
    steps := [Begin(0, 50_000), Begin(1, 50_000),
              Finish(0, RangeError(50_000, Some(10_000))), Finish(1, RangeError(50_000, None))];
    run := [Shared(start, map[]), Shared(start, map[0 := 50_000]), Shared(start, map[0 := 50_000][1 := 50_000]),
            Shared(told, map[0 := 50_000][1 := 50_000] - {0}),
            Shared(told.OnRangeError(50_000, None), map[0 := 50_000][1 := 50_000] - {0} - {1})];
  }
}
