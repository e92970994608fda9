/** Fetching logs through several unreliable endpoints: sticky failover, the head
    check against truncated results, and the adaptive, retrying chunk fetch.

    Everything the network may do is in `World`: how endpoint i answers request
    number t. One task fetches at a time. */
module Rpc {
  import opened Wrappers
  import opened Registry
  import opened Retry
  import opened ErrorText

  /** How an endpoint answers eth_getLogs: with the logs of the requested blocks up
      to its own head at that moment (`cut`), or not at all. */
  datatype Answer = Served(cut: nat) | Refused(text: string, deterministic: bool)
  datatype HeadAnswer = Head(block: nat) | NoHead(text: string, deterministic: bool)

  datatype World<!T> = World(
    endpoints: nat,
    host: nat -> string,
    blocks: Blocks<T>,
    answer: (nat, nat, nat, nat) -> Answer, // request, endpoint, first block, last block
    head: (nat, nat) -> HeadAnswer,         // request, endpoint
    cancelled: nat -> bool)                 // request

  /** A head read as some request from some endpoint. */
  datatype HeadRead = HeadRead(request: nat, endpoint: nat)

  /** The safe head it found. */
  function SafeBlock(w: World, confirmations: nat, read: HeadRead): Option<nat> {
    match w.head(read.request, read.endpoint)
    case Head(block) => if read.endpoint < w.endpoints then Some(Max(block - confirmations, 0)) else None
    case NoHead(_, _) => None
  }

  // ---- Failover -----------------------------------------------------------------

  datatype Reply = Answered | Bad(text: string, deterministic: bool)
  datatype Routed = ServedBy(index: nat) | Rejected(index: nat) | AllFailed

  function Turn(start: nat, offset: nat, count: nat): nat
    requires count > 0
  {
    (start + offset) % count
  }

  /** Where a request ends up that tries the endpoints in turn from `offset` on. */
  function Route(count: nat, ask: nat -> Reply, start: nat, offset: nat): Routed
    requires 0 < count && offset <= count
    decreases count - offset
  {
    if offset == count then AllFailed
    else
      var i := Turn(start, offset, count);
      match ask(i)
      case Answered => ServedBy(i)
      case Bad(_, true) => Rejected(i)
      case Bad(_, false) => Route(count, ask, start, offset + 1)
  }

  ghost predicate SkippedUpTo(count: nat, ask: nat -> Reply, start: nat, from: nat, offset: nat)
    requires count > 0
  {
    forall k :: from <= k < offset ==> ask(Turn(start, k, count)).Bad? && !ask(Turn(start, k, count)).deterministic
  }

  /** The endpoint that decides a request is the first in turn that does not ask for
      the next one. */
  lemma {:induction false} RouteIsFirst(count: nat, ask: nat -> Reply, start: nat, offset: nat) returns (k: nat)
    requires 0 < count && offset <= count
    ensures offset <= k <= count && SkippedUpTo(count, ask, start, offset, k)
    ensures match Route(count, ask, start, offset)
            case ServedBy(i) => k < count && i == Turn(start, k, count) && ask(i).Answered?
            case Rejected(i) => k < count && i == Turn(start, k, count) && ask(i).Bad? && ask(i).deterministic
            case AllFailed => k == count
    decreases count - offset
  {
    k := offset;
    if offset < count {
      var reply := ask(Turn(start, offset, count));
      if reply.Bad? && !reply.deterministic {
        k := RouteIsFirst(count, ask, start, offset + 1);
      }
    }
  }

  function Failures(w: World, ask: nat -> Reply, start: nat, n: nat): seq<Failure>
    requires w.endpoints > 0
  {
    if n == 0 then []
    else
      var i := Turn(start, n - 1, w.endpoints);
      Failures(w, ask, start, n - 1) + [Failure(w.host(i), if ask(i).Bad? then ask(i).text else "")]
  }

  function Intro(count: nat, name: string): string {
    "all " + Decimal(count) + " RPC endpoint(s) failed for " + name
  }

  const GET_LOGS := "eth_getLogs"
  const BLOCK_NUMBER := "eth_blockNumber"

  /** The logs an endpoint returns for [from, to] when its head is `cut`. */
  function Returned<T>(blocks: Blocks<T>, from: nat, to: nat, cut: nat): seq<T> {
    Logs(blocks, from, Min(to, cut) + 1)
  }

  /** How the endpoints answer eth_getLogs for [from, to] as request `t`. */
  function LogsReply(w: World, t: nat, from: nat, to: nat): nat -> Reply {
    (i: nat) =>
      match w.answer(t, i, from, to)
      case Served(_) => Answered
      case Refused(text, deterministic) => Bad(text, deterministic)
  }

  function HeadReply(w: World, t: nat): nat -> Reply {
    (i: nat) =>
      match w.head(t, i)
      case Head(_) => Answered
      case NoHead(text, deterministic) => Bad(text, deterministic)
  }

  class FailoverHttp<!T> {
    const world: World<T>
    var preferred: nat
    var logsServedBy: nat
    /** Requests made so far. */
    var requests: nat

    predicate Valid()
      reads this
    {
      preferred < world.endpoints && logsServedBy < world.endpoints
    }

    constructor (world: World<T>)
      requires world.endpoints > 0
      ensures Valid() && this.world == world && preferred == logsServedBy == requests == 0
    {
      this.world := world;
      preferred, logsServedBy, requests := 0, 0, 0;
    }

    /** One request, tried on every endpoint in turn from the preferred one. */
    method Request(name: string, ask: nat -> Reply) returns (r: Result<nat, string>)
      requires Valid()
      modifies this`preferred, this`logsServedBy
      ensures Valid()
      ensures match Route(world.endpoints, ask, old(preferred), 0)
              case ServedBy(i) => r == Ok(i) && preferred == i
                                  && logsServedBy == if name == GET_LOGS then i else old(logsServedBy)
              case Rejected(i) => ask(i).Bad? && r == Err(world.host(i) + ": " + ask(i).text)
                                  && preferred == old(preferred) && logsServedBy == old(logsServedBy)
              case AllFailed => r == Err(Summary(Intro(world.endpoints, name),
                                                 Failures(world, ask, old(preferred), world.endpoints)))
                                && preferred == (old(preferred) + 1) % world.endpoints
                                && logsServedBy == old(logsServedBy)
    {
      var count := world.endpoints;
      var start := preferred % count;
      var failures := [];
      for offset := 0 to count
        invariant preferred == start && logsServedBy == old(logsServedBy)
        invariant Route(count, ask, start, 0) == Route(count, ask, start, offset)
        invariant failures == Failures(world, ask, start, offset)
      {
        var index := (start + offset) % count;
        match ask(index) {
          case Answered =>
            if name == GET_LOGS {
              logsServedBy := index;
            }
            if index != start {
              preferred := index;
            }
            return Ok(index);
          case Bad(text, deterministic) =>
            if deterministic {
              return Err(world.host(index) + ": " + text);
            }
            failures := failures + [Failure(world.host(index), text)];
        }
      }
      preferred := (start + 1) % count;
      return Err(Summary(Intro(count, name), failures));
    }

    method GetLogs(from: nat, to: nat) returns (r: Result<seq<T>, string>)
      requires Valid() && from <= to
      modifies this
      ensures Valid() && requests == old(requests) + 1
      ensures match Route(world.endpoints, LogsReply(world, requests, from, to), old(preferred), 0)
              case ServedBy(i) => world.answer(requests, i, from, to).Served? && preferred == logsServedBy == i
                                  && r == Ok(Returned(world.blocks, from, to, world.answer(requests, i, from, to).cut))
              case Rejected(i) => LogsReply(world, requests, from, to)(i).Bad? && preferred == old(preferred)
                                  && r == Err(world.host(i) + ": " + LogsReply(world, requests, from, to)(i).text)
              case AllFailed => preferred == (old(preferred) + 1) % world.endpoints
                                && r == Err(Summary(Intro(world.endpoints, GET_LOGS),
                                                    Failures(world, LogsReply(world, requests, from, to),
                                                             old(preferred), world.endpoints)))
    {
      requests := requests + 1;
      var ask := LogsReply(world, requests, from, to);
      ghost var k := RouteIsFirst(world.endpoints, ask, preferred, 0);
      var routed := Request(GET_LOGS, ask);
      if routed.Err? {
        return Err(routed.error);
      }
      var answer := world.answer(requests, routed.value, from, to);
      return Ok(Returned(world.blocks, from, to, answer.cut));
    }

    method BlockNumber() returns (r: Result<nat, string>)
      requires Valid()
      modifies this
      ensures Valid() && requests == old(requests) + 1 && logsServedBy == old(logsServedBy)
      ensures r.Ok? ==> preferred < world.endpoints && world.head(requests, preferred) == Head(r.value)
      ensures Healthy(world) ==> r.Ok?
    {
      requests := requests + 1;
      var ask := HeadReply(world, requests);
      ghost var k := RouteIsFirst(world.endpoints, ask, preferred, 0);
      var routed := Request(BLOCK_NUMBER, ask);
      if routed.Err? {
        return Err(routed.error);
      }
      return Ok(world.head(requests, routed.value).block);
    }

    method Demote(index: nat)
      requires Valid()
      modifies this`preferred
      ensures Valid()
      ensures preferred == if world.endpoints > 1 && old(preferred) == index
                           then (index + 1) % world.endpoints else old(preferred)
    {
      if world.endpoints > 1 && preferred == index {
        preferred := (index + 1) % world.endpoints;
      }
    }
  }

  // ---- Complete and truncated results ------------------------------------------------

  const HEAD_CHECK_WINDOW: nat := 100_000

  /** The test for a chunk that ends at `end` of a sync up to `to`. */
  predicate Accepted(end: nat, to: nat, head: nat) {
    to - end >= HEAD_CHECK_WINDOW || head >= end
  }

  /** The chunk an endpoint with head `cut` served is complete exactly when it holds
      no log in (cut, end]. */
  lemma CompleteExactly<T>(blocks: Blocks<T>, from: nat, end: nat, cut: nat)
    requires from <= end
    ensures Returned(blocks, from, end, cut) == Logs(blocks, from, end + 1)
       <==> Logs(blocks, Max(from, cut + 1), Max(end, cut) + 1) == []
  {
    if cut < end {
      var mid := Max(from, cut + 1);
      LogsSplit(blocks, from, mid, end + 1);
      assert Returned(blocks, from, end, cut) == Logs(blocks, from, mid);
    }
  }

  /** `PassedIsComplete` below needs both of its conditions: a head read after the endpoint moved on, or an
      endpoint further behind than the window, lets a cut chunk through. */
  lemma CutChunkCanBeAccepted(from: nat, end: nat) returns (blocks: Blocks<nat>, lateHead: nat, cut: nat, farTo: nat)
    requires from < end
    ensures cut < end && Accepted(end, end, lateHead) && cut < lateHead
    ensures Accepted(end, farTo, cut) && end <= farTo && farTo > cut + HEAD_CHECK_WINDOW
    ensures Returned(blocks, from, end, cut) != Logs(blocks, from, end + 1)
  {
    blocks := b => if b == end then [0] else [];
    cut, lateHead, farTo := end - 1, end, end + HEAD_CHECK_WINDOW;
    assert Logs(blocks, end, end + 1) == [0];
    CompleteExactly(blocks, from, end, cut);
  }

  /** The head an endpoint reports after a request was already its head when it
      answered that request. */
  ghost predicate HeadsAreAtomic(w: World) {
    forall t, i, from, to :: w.answer(t, i, from, to).Served? && w.head(t, i).Head?
                             ==> w.head(t, i).block <= w.answer(t, i, from, to).cut
  }

  /** No answer after request `t0` comes from an endpoint further than the window
      behind `to`. */
  ghost predicate Reaches(w: World, t0: nat, to: nat) {
    forall t, i, from, end :: t > t0 && w.answer(t, i, from, end).Served?
                              ==> to <= w.answer(t, i, from, end).cut + HEAD_CHECK_WINDOW
  }

  /** No endpoint ever lags a head reported earlier by more than the window. */
  ghost predicate LagIsBounded(w: World) {
    forall t, i :: w.head(t, i).Head? ==> Reaches(w, t, w.head(t, i).block)
  }

  /** Accepted chunks of a sync up to `to` can be relied on after request `t0`. */
  ghost predicate Trusted(w: World, t0: nat, to: nat) {
    HeadsAreAtomic(w) && Reaches(w, t0, to)
  }

  // ---- Stable endpoints ----------------------------------------------------------------

  datatype Standing = Down | Lagging(head: nat) | CaughtUp

  /** From request t0 on every endpoint keeps failing over, keeps a head below `to`,
      or has reached `to`; those that answer refuse more than `limit` blocks, with a
      text that says so, and serve the rest; and nothing is cancelled. */
  ghost predicate Stable(w: World, t0: nat, from: nat, to: nat, limit: nat, standing: seq<Standing>) {
    && |standing| == w.endpoints
    && (forall t :: t > t0 ==> !w.cancelled(t))
    && forall t, i, end :: t > t0 && 0 <= i < w.endpoints && from <= end <= to ==>
         match standing[i]
         case Down => w.answer(t, i, from, end).Refused? && !w.answer(t, i, from, end).deterministic
         case Lagging(h) =>
           h < to && ServesUpTo(w.answer(t, i, from, end), end - from + 1, limit) && w.head(t, i) == Head(h)
         case CaughtUp =>
           && ServesUpTo(w.answer(t, i, from, end), end - from + 1, limit)
           && w.head(t, i).Head? && w.head(t, i).block >= to
  }

  ghost predicate ServesUpTo(a: Answer, span: nat, limit: nat) {
    if span <= limit then a.Served? else a.Refused? && Classify(a.text).RangeTooLarge?
  }

  /** Endpoint `goal` is one that has caught up. */
  ghost predicate CanCatchUp(
    w: World, t0: nat, from: nat, to: nat, limit: nat, standing: seq<Standing>, goal: nat) {
    goal < |standing| && standing[goal].CaughtUp? && Stable(w, t0, from, to, limit, standing)
  }

  /** After request t0 every endpoint reports a head, and one at or past `to`. */
  ghost predicate HeadsReach(w: World, t0: nat, to: nat) {
    forall t, i :: t > t0 ==> w.head(t, i).Head? && to <= w.head(t, i).block
  }

  /** A network that works: every endpoint answers, none is ever behind a head that any
      reported before, and nothing is cancelled. */
  ghost predicate Healthy(w: World) {
    && (forall t, i, from, to :: w.answer(t, i, from, to).Served?)
    && (forall t, i :: w.head(t, i).Head? && HeadsReach(w, t, w.head(t, i).block))
    && (forall t :: !w.cancelled(t))
  }

  function AllCaughtUp(w: World): seq<Standing> {
    seq(w.endpoints, _ => CaughtUp)
  }

  lemma HealthySucceeds(w: World, t0: nat, from: nat, to: nat)
    requires w.endpoints > 0
    ensures Healthy(w) && HeadsReach(w, t0, to) ==> WillSucceed(w, t0, from, to, U64_MAX + to, AllCaughtUp(w), 0)
  {
    assert LaggingAll(AllCaughtUp(w)) == {};
  }

  lemma ReachesLater(w: World, t0: nat, t1: nat, to: nat)
    requires t0 <= t1 && Reaches(w, t0, to)
    ensures Reaches(w, t1, to)
  {
  }

  /** Steps from `i` forward to `goal` around the ring. */
  function Distance(i: nat, goal: nat, count: nat): nat
    requires i < count && goal < count
  {
    if i <= goal then goal - i else goal + count - i
  }

  /** Lagging endpoints a rotation from `start` can still meet before `goal`. */
  ghost function LaggingAhead(standing: seq<Standing>, start: nat, goal: nat): set<nat>
    requires start < |standing| && goal < |standing|
  {
    set i | 0 <= i < |standing| && standing[i].Lagging?
            && Distance(i, goal, |standing|) <= Distance(start, goal, |standing|)
  }

  ghost function LaggingAll(standing: seq<Standing>): set<nat> {
    set i | 0 <= i < |standing| && standing[i].Lagging?
  }

  lemma TurnDistance(start: nat, k: nat, goal: nat, count: nat)
    requires start < count && goal < count && k <= Distance(start, goal, count)
    ensures Turn(start, k, count) < count
    ensures Distance(Turn(start, k, count), goal, count) == Distance(start, goal, count) - k
  {
    if start + k >= count {
      assert (start + k) % count == start + k - count;
    } else {
      assert (start + k) % count == start + k;
    }
  }

  /** While one endpoint has caught up, a request is served by one no further along
      the ring, so the caught-up one is never passed. */
  lemma ServedBeforeGoal(count: nat, ask: nat -> Reply, start: nat, goal: nat)
    requires start < count && goal < count && ask(goal).Answered?
    requires forall i :: 0 <= i < count && ask(i).Bad? ==> !ask(i).deterministic
    ensures Route(count, ask, start, 0).ServedBy?
    ensures Route(count, ask, start, 0).index < count && ask(Route(count, ask, start, 0).index).Answered?
    ensures Distance(Route(count, ask, start, 0).index, goal, count) <= Distance(start, goal, count)
  {
    var d := Distance(start, goal, count);
    TurnDistance(start, d, goal, count);
    assert Turn(start, d, count) == goal;
    var k := RouteIsFirst(count, ask, start, 0);
    TurnDistance(start, k, goal, count);
  }

  /** Each lag rejection strictly lowers the number of lagging endpoints ahead. */
  lemma RejectionAdvances(standing: seq<Standing>, start: nat, i: nat, goal: nat)
    requires start < |standing| && i < |standing| && goal < |standing|
    requires standing[i].Lagging? && standing[goal].CaughtUp?
    requires Distance(i, goal, |standing|) <= Distance(start, goal, |standing|)
    ensures (i + 1) % |standing| < |standing| && |standing| > 1
    ensures Distance((i + 1) % |standing|, goal, |standing|) < Distance(start, goal, |standing|)
    ensures |LaggingAhead(standing, (i + 1) % |standing|, goal)| < |LaggingAhead(standing, start, goal)|
  {
    var next := (i + 1) % |standing|;
    assert i != goal;
    TurnDistance(i, 1, goal, |standing|);
    var before, after := LaggingAhead(standing, start, goal), LaggingAhead(standing, next, goal);
    assert after <= before - {i};
    SubsetSize(after, before - {i});
  }

  lemma {:induction false} SubsetSize(s: set<nat>, t: set<nat>)
    requires s <= t
    ensures |s| <= |t|
  {
    if x :| x in s {
      SubsetSize(s - {x}, t - {x});
    }
  }

  // ---- Chunk fetch -----------------------------------------------------------------------

  const MAX_CHUNK_ATTEMPTS: nat := 8

  datatype Fetched<+T> = Fetched(logs: seq<T>, end: nat)

  /** How often a range error was retried at once, and whether any of them named a
      usable limit; kept for the bounds below. */
  datatype FreeRetries = FreeRetries(count: nat, hinted: bool)

  /** Each free retry strictly shrinks the size, and without a usable hint at least
      halves it until it reaches the floor. */
  ghost predicate FreeRetryBound(start: Chunk, now: Chunk, free: FreeRetries) {
    && now.min == start.min && now.size + free.count <= start.size
    && (!free.hinted ==> now.size == now.min || now.size * Pow2(free.count) <= start.size)
    && (!free.hinted && free.count > 0 ==> Pow2(free.count - 1) * now.min < start.size)
  }

  /** What the bound says once the fetch returns. */
  ghost predicate FewFreeRetries(start: Chunk, free: FreeRetries) {
    && free.count <= start.size - start.min
    && (!free.hinted && free.count > 0 ==> Pow2(free.count - 1) * start.min < start.size)
  }

  lemma BoundMeansFew(start: Chunk, now: Chunk, free: FreeRetries)
    requires FreeRetryBound(start, now, free) && now.Valid()
    ensures FewFreeRetries(start, free)
  {
  }

  function AfterError(c: Chunk, kind: Kind, span: nat): Chunk {
    match kind
    case RangeTooLarge(hint) => c.OnRangeError(span, hint)
    case RateLimited => c.OnRateLimited()
    case Transient => c
  }

  /** A range error that left the size below the rejected span is retried at once. */
  predicate RetriedForFree(c: Chunk, kind: Kind, span: nat) {
    kind.RangeTooLarge? && AfterError(c, kind, span).size < span
  }

  function CountRetry(c: Chunk, kind: Kind, span: nat, free: FreeRetries): FreeRetries {
    FreeRetries(if RetriedForFree(c, kind, span) then free.count + 1 else free.count,
                free.hinted || (kind.RangeTooLarge? && kind.hint.Some? && kind.hint.value < span))
  }

  lemma ErrorKeepsBound(start: Chunk, now: Chunk, free: FreeRetries, kind: Kind, span: nat)
    requires now.Valid() && span <= now.size && FreeRetryBound(start, now, free)
    ensures FreeRetryBound(start, AfterError(now, kind, span), CountRetry(now, kind, span, free))
  {
    var next, counted := AfterError(now, kind, span), CountRetry(now, kind, span, free);
    if RetriedForFree(now, kind, span) {
      ShrinkKeepsBound(start, now, next, free, counted);
    } else {
      SmallerKeepsBound(start, now, next, free, counted);
    }
  }

  lemma SmallerKeepsBound(start: Chunk, now: Chunk, next: Chunk, free: FreeRetries, counted: FreeRetries)
    requires FreeRetryBound(start, now, free) && next.min == now.min && next.min <= next.size <= now.size
    requires counted.count == free.count && (free.hinted ==> counted.hinted)
    ensures FreeRetryBound(start, next, counted)
  {
    MultiplyMonotone(Pow2(free.count), next.size, now.size);
  }

  lemma ShrinkKeepsBound(start: Chunk, now: Chunk, next: Chunk, free: FreeRetries, counted: FreeRetries)
    requires FreeRetryBound(start, now, free) && next.min == now.min < now.size && next.size < now.size
    requires counted.count == free.count + 1 && (free.hinted ==> counted.hinted)
    requires counted.hinted || next.size == next.min || 2 * next.size <= now.size
    ensures FreeRetryBound(start, next, counted)
  {
    HalvingKeepsBound(Pow2(free.count), now.min, now.size, next.size);
  }

  lemma HalvingKeepsBound(p: nat, min: nat, size: nat, next: nat)
    requires p >= 1 && min < size
    ensures p * min < size * p
    ensures 2 * next <= size ==> next * (2 * p) <= size * p
  {
    if 2 * next <= size {
      MultiplyMonotone(p, 2 * next, size);
      assert next * (2 * p) == p * (2 * next);
    }
  }

  /** One endpoint has caught up and at most seven lag. Stated of whatever equals the request's
      number, so that it is only looked into where needed. */
  ghost predicate WillSucceed(
    w: World, t0: nat, from: nat, to: nat, limit: nat, standing: seq<Standing>, goal: nat) {
    && goal < |standing| == w.endpoints
    && forall u: nat :: u == t0 ==>
         CanCatchUp(w, u, from, to, limit, standing, goal) && |LaggingAll(standing)| < MAX_CHUNK_ATTEMPTS
  }

  lemma FewAhead(
    w: World, t0: nat, from: nat, to: nat, limit: nat, standing: seq<Standing>, start: nat, goal: nat)
    requires start < w.endpoints
    ensures WillSucceed(w, t0, from, to, limit, standing, goal) ==>
              |LaggingAhead(standing, start, goal)| < MAX_CHUNK_ATTEMPTS
  {
    if WillSucceed(w, t0, from, to, limit, standing, goal) {
      assert CanCatchUp(w, t0, from, to, limit, standing, goal);
      SubsetSize(LaggingAhead(standing, start, goal), LaggingAll(standing));
    }
  }

  datatype Round<+T> =
    | Delivered(fetched: Fetched<T>)
    | Shrunk(kind: Kind, span: nat)
    | Failed(kind: Kind, span: nat, error: string)

  /** `logs` were served by endpoint `i` as request `t` and passed the head check. */
  ghost predicate Passed<T>(w: World<T>, t: nat, i: nat, from: nat, end: nat, to: nat, logs: seq<T>)
    requires end <= to
  {
    && w.answer(t, i, from, end).Served?
    && logs == Returned(w.blocks, from, end, w.answer(t, i, from, end).cut)
    && (to - end >= HEAD_CHECK_WINDOW || (w.head(t, i).Head? && w.head(t, i).block >= end))
  }

  /** What a failed round reports: the refusal, every endpoint's failure, or the head check's. */
  ghost predicate Explains(w: World, t: nat, from: nat, end: nat, start: nat, error: string)
    requires w.endpoints > 0
  {
    match Route(w.endpoints, LogsReply(w, t, from, end), start, 0)
    case ServedBy(i) =>
      (match w.head(t, i)
       case Head(block) => error == LagText(w.host(i), block, end)
       case NoHead(text, _) => error == w.host(i) + ": eth_blockNumber failed: " + text)
    case Rejected(i) =>
      LogsReply(w, t, from, end)(i).Bad? && error == w.host(i) + ": " + LogsReply(w, t, from, end)(i).text
    case AllFailed =>
      error == Summary(Intro(w.endpoints, GET_LOGS), Failures(w, LogsReply(w, t, from, end), start, w.endpoints))
  }

  /** The round failed with this error and moved the preferred endpoint so. Stated of whatever
      equals the request's number, so that it is only looked into where needed. */
  ghost predicate FailedWith(w: World, t: nat, from: nat, end: nat, start: nat, next: nat, error: string)
    requires w.endpoints > 0
  {
    forall u: nat :: u == t ==> Explains(w, u, from, end, start, error) && Turned(w, u, from, end, start, next)
  }

  lemma {:induction false} FailuresAt(w: World, ask: nat -> Reply, start: nat, n: nat, k: nat)
    requires w.endpoints > 0 && k < n
    ensures |Failures(w, ask, start, n)| == n
    ensures var i := Turn(start, k, w.endpoints);
            Failures(w, ask, start, n)[k] == Failure(w.host(i), if ask(i).Bad? then ask(i).text else "")
  {
    if n > 1 {
      FailuresAt(w, ask, start, n - 1, if k < n - 1 then k else 0);
    }
  }

  /** A span over the limit is answered with a range error, whichever endpoint is asked. */
  lemma TooLongIsRangeError(
    w: World, t0: nat, t: nat, from: nat, end: nat, to: nat, limit: nat, start: nat, error: string,
    standing: seq<Standing>, goal: nat)
    requires t0 < t && from <= end <= to && start < w.endpoints && limit < end - from + 1
    requires CanCatchUp(w, t0, from, to, limit, standing, goal) && Explains(w, t, from, end, start, error)
    ensures Classify(error).RangeTooLarge?
  {
    var ask := LogsReply(w, t, from, end);
    forall i | 0 <= i < w.endpoints
      ensures ask(i).Bad? && (!ask(i).deterministic || Classify(ask(i).text).RangeTooLarge?)
    {
      assert standing[i].Down? || ServesUpTo(w.answer(t, i, from, end), end - from + 1, limit);
    }
    var k := RouteIsFirst(w.endpoints, ask, start, 0);
    match Route(w.endpoints, ask, start, 0) {
      case ServedBy(i) =>
      case Rejected(i) =>
        NamedRangeErrorWins(w.host(i), ask(i).text);
      case AllFailed =>
        GoalFailed(w, t, from, end, start, goal);
        assert ServesUpTo(w.answer(t, goal, from, end), end - from + 1, limit);
        AnyRangeErrorWins(Intro(w.endpoints, GET_LOGS), Failures(w, ask, start, w.endpoints),
                          Distance(start, goal, w.endpoints));
    }
  }

  lemma GoalFailed(w: World, t: nat, from: nat, end: nat, start: nat, goal: nat)
    requires start < w.endpoints && goal < w.endpoints && w.answer(t, goal, from, end).Refused?
    ensures var ask, d := LogsReply(w, t, from, end), Distance(start, goal, w.endpoints);
            && d < |Failures(w, ask, start, w.endpoints)|
            && Failures(w, ask, start, w.endpoints)[d].text == w.answer(t, goal, from, end).text
  {
    var d := Distance(start, goal, w.endpoints);
    TurnDistance(start, d, goal, w.endpoints);
    FailuresAt(w, LogsReply(w, t, from, end), start, w.endpoints, d);
  }

  /** Such an error shrinks the size and is retried at once. */
  lemma TooLongIsRetried(c: Chunk, span: nat, kind: Kind, limit: nat)
    requires c.Valid() && c.min <= limit < span <= c.size && kind.RangeTooLarge?
    ensures RetriedForFree(c, kind, span)
  {
  }

  /** What was served was not over the limit. */
  lemma PassedIsShort<T>(
    w: World<T>, t0: nat, t: nat, i: nat, from: nat, end: nat, to: nat, limit: nat, logs: seq<T>,
    standing: seq<Standing>, goal: nat)
    requires t0 < t && from <= end <= to && i < w.endpoints && Passed(w, t, i, from, end, to, logs)
    ensures WillSucceed(w, t0, from, to, limit, standing, goal) ==> end - from + 1 <= limit
  {
    if WillSucceed(w, t0, from, to, limit, standing, goal) {
      assert CanCatchUp(w, t0, from, to, limit, standing, goal);
      assert standing[i].Down? || ServesUpTo(w.answer(t, i, from, end), end - from + 1, limit);
    }
  }

  /** How the preferred endpoint moved in a failed round. */
  ghost predicate Turned(w: World, t: nat, from: nat, end: nat, start: nat, next: nat)
    requires w.endpoints > 0
  {
    match Route(w.endpoints, LogsReply(w, t, from, end), start, 0)
    case ServedBy(i) => w.head(t, i).Head? ==>
                          w.head(t, i).block < end && next == if w.endpoints > 1 then (i + 1) % w.endpoints else i
    case Rejected(i) => next == start
    case AllFailed => next == (start + 1) % w.endpoints
  }

  lemma PassedIsComplete<T>(w: World<T>, t0: nat, t: nat, i: nat, from: nat, end: nat, to: nat, logs: seq<T>)
    requires t0 < t && from <= end <= to && Passed(w, t, i, from, end, to, logs)
    ensures Trusted(w, t0, to) ==> logs == Logs(w.blocks, from, end + 1)
  {
    if Trusted(w, t0, to) {
      var cut := w.answer(t, i, from, end).cut;
      assert to <= cut + HEAD_CHECK_WINDOW;
      if to - end < HEAD_CHECK_WINDOW {
        assert w.head(t, i).block <= cut;
      }
    }
  }

  lemma TurnedIsProgress(w: World, t0: nat, t: nat, from: nat, end: nat, to: nat, limit: nat, start: nat, next: nat,
                         standing: seq<Standing>, goal: nat)
    requires t0 < t && from <= end <= to && end - from + 1 <= limit
    requires start < w.endpoints && next < w.endpoints
    requires Turned(w, t, from, end, start, next)
    ensures CanCatchUp(w, t0, from, to, limit, standing, goal) ==>
              !w.cancelled(t)
              && |LaggingAhead(standing, next, goal)| < |LaggingAhead(standing, start, goal)|
  {
    if CanCatchUp(w, t0, from, to, limit, standing, goal) {
      var ask := LogsReply(w, t, from, end);
      forall i | 0 <= i < w.endpoints
        ensures w.answer(t, i, from, end).Served? == !standing[i].Down?
      {
        assert standing[i].Down? || ServesUpTo(w.answer(t, i, from, end), end - from + 1, limit);
      }
      ServedBeforeGoal(w.endpoints, ask, start, goal);
      var i := Route(w.endpoints, ask, start, 0).index;
      assert w.answer(t, i, from, end).Served?;
      RejectionAdvances(standing, start, i, goal);
    }
  }

  class ChainConfig<!T> {
    const transport: FailoverHttp<T>
    const chunk: AdaptiveChunk
    const confirmations: nat

    predicate Valid()
      reads this, transport, chunk
    {
      transport.Valid() && chunk.State().Valid()
    }

    constructor (world: World<T>, initial: nat, min: nat, max: nat, confirmations: nat)
      requires world.endpoints > 0 && initial <= U64_MAX && min <= U64_MAX && max <= U64_MAX
      ensures Valid() && transport.world == world && fresh(transport) && fresh(chunk)
      ensures transport.preferred == transport.logsServedBy == transport.requests == 0
      ensures this.confirmations == confirmations
    {
      transport := new FailoverHttp(world);
      chunk := new AdaptiveChunk(initial, min, max);
      this.confirmations := confirmations;
    }

    method SafeHead() returns (r: Result<nat, string>)
      requires Valid()
      modifies transport
      ensures Valid() && transport.requests == old(transport.requests) + 1
      ensures r.Ok? ==>
                && transport.world.head(transport.requests, transport.preferred).Head?
                && r.value
                   == Max(transport.world.head(transport.requests, transport.preferred).block - confirmations, 0)
      ensures r.Ok? && LagIsBounded(transport.world) ==> Reaches(transport.world, transport.requests, r.value)
      ensures Healthy(transport.world) ==> r.Ok? && HeadsReach(transport.world, transport.requests, r.value)
    {
      var block := transport.BlockNumber();
      if block.Err? {
        return block;
      }
      return Ok(Max(block.value - confirmations, 0));
    }

    /** The endpoint behind the last logs must have reached `end`, or is demoted. */
    method CheckLogsEndpointHead(end: nat, to: nat) returns (r: Result<(), string>)
      requires Valid() && end <= to
      modifies transport`preferred
      ensures Valid()
      ensures var head := transport.world.head(transport.requests, transport.logsServedBy);
              && (r.Ok? <==> to - end >= HEAD_CHECK_WINDOW || (head.Head? && Accepted(end, to, head.block)))
              && (r.Err? && head.Head? ==>
                    r.error == LagText(transport.world.host(transport.logsServedBy), head.block, end))
              && (r.Err? && head.NoHead? ==>
                    r.error
                    == transport.world.host(transport.logsServedBy) + ": eth_blockNumber failed: " + head.text)
              && transport.preferred ==
                   if r.Err? && head.Head? && transport.world.endpoints > 1
                      && old(transport.preferred) == transport.logsServedBy
                   then (transport.logsServedBy + 1) % transport.world.endpoints
                   else old(transport.preferred)
    {
      if to - end >= HEAD_CHECK_WINDOW {
        return Ok(());
      }
      var index := transport.logsServedBy;
      match transport.world.head(transport.requests, index) {
        case NoHead(text, _) =>
          return Err(transport.world.host(index) + ": eth_blockNumber failed: " + text);
        case Head(head) =>
          if head >= end {
            return Ok(());
          }
          transport.Demote(index);
          return Err(LagText(transport.world.host(index), head, end));
      }
    }

    /** One eth_getLogs followed by the head check. */
    method TryChunk(from: nat, end: nat, to: nat) returns (r: Result<seq<T>, string>)
      requires Valid() && from <= end <= to
      modifies transport
      ensures Valid() && transport.requests == old(transport.requests) + 1
      ensures r.Ok? ==> Passed(transport.world, transport.requests, transport.logsServedBy, from, end, to, r.value)
      ensures r.Err? ==>
                FailedWith(transport.world, transport.requests, from, end, old(transport.preferred),
                           transport.preferred, r.error)
      ensures transport.logsServedBy < transport.world.endpoints
    {
      ghost var w, start := transport.world, transport.preferred;
      var answer := transport.GetLogs(from, end);
      if answer.Err? {
        return Err(answer.error);
      }
      var check := CheckLogsEndpointHead(end, to);
      if check.Err? {
        return Err(check.error);
      }
      return Ok(answer.value);
    }

    /** Adjust the range size to an error; `shrunk` means the range itself was retried. */
    method ReactTo(error: string, requested: nat) returns (shrunk: bool)
      modifies chunk
      ensures chunk.State() == AfterError(old(chunk.State()), Classify(error), requested)
      ensures shrunk <==> RetriedForFree(old(chunk.State()), Classify(error), requested)
    {
      shrunk := false;
      match Classify(error) {
        case RangeTooLarge(hint) =>
          chunk.OnRangeError(requested, hint);
          shrunk := chunk.size < requested;
        case RateLimited =>
          chunk.OnRateLimited();
        case Transient =>
      }
    }

    /** One round of the fetch loop: a chunk sized as the chunk size allows. */
    method TryRound(from: nat, to: nat) returns (r: Round<T>, ghost error: string)
      requires Valid() && from <= to
      modifies transport, chunk
      ensures Valid() && transport.requests == old(transport.requests) + 1
      ensures r.Delivered? ==>
                from <= r.fetched.end <= to && chunk.State() == old(chunk.State()).OnSuccess()
                && Passed(transport.world, transport.requests, transport.logsServedBy, from, r.fetched.end, to,
                          r.fetched.logs)
      ensures !r.Delivered? ==>
                && 1 <= r.span <= old(chunk.size) && from + r.span - 1 <= to
                && chunk.State() == AfterError(old(chunk.State()), r.kind, r.span)
      // It reacts to what the endpoints said.
      ensures !r.Delivered? ==>
                && r.span == Min(old(chunk.size), to - from + 1) && r.kind == Classify(error)
                && FailedWith(transport.world, transport.requests, from, from + r.span - 1, old(transport.preferred),
                              transport.preferred, error)
      ensures r.Failed? ==> r.error == error
      ensures r.Shrunk? ==> RetriedForFree(old(chunk.State()), r.kind, r.span)
      ensures r.Failed? ==> !RetriedForFree(old(chunk.State()), r.kind, r.span)
    {
      var span := chunk.size;
      // The source saturates this sum at 64 bits, which the minimum with `to` hides.
      var end := Min(from + (span - 1), to);
      var requested := end - from + 1;
      var answer := TryChunk(from, end, to);
      if answer.Ok? {
        chunk.OnSuccess();
        return Delivered(Fetched(answer.value, end)), "";
      }
      error := answer.error;
      assert end == from + requested - 1;
      r := AfterFailure(answer.error, requested);
    }

    method AfterFailure(error: string, requested: nat) returns (r: Round<T>)
      modifies chunk
      ensures !r.Delivered? && r.kind == Classify(error) && r.span == requested
      ensures chunk.State() == AfterError(old(chunk.State()), r.kind, requested)
      ensures r.Shrunk? <==> RetriedForFree(old(chunk.State()), r.kind, requested)
      ensures r.Failed? ==> r.error == error
    {
      var shrunk := ReactTo(error, requested);
      var kind := Classify(error);
      r := if shrunk then Shrunk(kind, requested) else Failed(kind, requested, error);
    }

    /** Logs from `from` on, for as many blocks up to `to` as the chunk size allows.
        `limit`, `standing` and `goal` only serve to state the liveness guarantee. */
    method FetchFilteredLogsChunk(from: nat, to: nat, ghost limit: nat, ghost standing: seq<Standing>, ghost goal: nat)
      returns (r: Result<Fetched<T>, string>, ghost free: FreeRetries)
      requires Valid() && from <= to
      modifies transport, chunk
      ensures Valid() && transport.requests > old(transport.requests)
      ensures chunk.State().min == old(chunk.State()).min && chunk.State().ceiling <= old(chunk.State()).ceiling
      // Safety: what is returned is complete.
      ensures r.Ok? ==> from <= r.value.end <= to
      ensures r.Ok? && Trusted(transport.world, old(transport.requests), to) ==>
                r.value.logs == Logs(transport.world.blocks, from, r.value.end + 1)
      // Liveness: one caught-up endpoint and at most seven lagging ones suffice, whatever
      // limit on the number of blocks they have, down to the smallest chunk.
      ensures WillSucceed(transport.world, old(transport.requests), from, to, limit, standing, goal)
              && chunk.State().min <= limit
              ==> r.Ok? && r.value.end - from + 1 <= limit
      // Retries that skip the attempt counter are few.
      ensures FewFreeRetries(old(chunk.State()), free)
    {
      var attempt := 0;
      free := FreeRetries(0, false);
      ghost var t0, start, w := transport.requests, chunk.State(), transport.world;
      ghost var live := WillSucceed(w, t0, from, to, limit, standing, goal) && start.min <= limit;
      FewAhead(w, t0, from, to, limit, standing, transport.preferred, goal);
      while true
        invariant Valid() && transport.requests >= t0 && attempt < MAX_CHUNK_ATTEMPTS
        invariant chunk.State().min == start.min && chunk.State().ceiling <= start.ceiling
        invariant FreeRetryBound(start, chunk.State(), free)
        invariant live ==> OnTrack(from, to, limit, standing, goal, chunk.size, transport.preferred, attempt)
        decreases MAX_CHUNK_ATTEMPTS - attempt, chunk.size
      {
        BoundMeansFew(start, chunk.State(), free);
        var round;
        round, free := CountedRound(from, to, t0, start, free, limit, standing, goal, attempt);
        if round.Delivered? {
          return Ok(round.fetched), free;
        }
        BoundMeansFew(start, chunk.State(), free);
        if round.Shrunk? {
          continue;
        }
        attempt := attempt + 1;
        if attempt >= MAX_CHUNK_ATTEMPTS {
          return Err(round.error), free;
        }
        if transport.world.cancelled(transport.requests) {
          return Err("eth_getLogs: shutting down"), free;
        }
      }
    }

    /** One round, and what it means for the guarantees of the fetch. */
    method CountedRound(
      from: nat, to: nat, ghost t0: nat, ghost start: Chunk, ghost free: FreeRetries,
      ghost limit: nat, ghost standing: seq<Standing>, ghost goal: nat, ghost attempt: nat)
      returns (round: Round<T>, ghost counted: FreeRetries)
      requires Valid() && from <= to && t0 <= transport.requests && FreeRetryBound(start, chunk.State(), free)
      requires WillSucceed(transport.world, t0, from, to, limit, standing, goal) && chunk.min <= limit ==>
                 OnTrack(from, to, limit, standing, goal, chunk.size, transport.preferred, attempt)
      modifies transport, chunk
      ensures Valid() && transport.requests == old(transport.requests) + 1
      ensures chunk.State().ceiling <= old(chunk.State()).ceiling
      ensures round.Delivered? ==>
                && from <= round.fetched.end <= to && counted == free
                && (Trusted(transport.world, t0, to) ==>
                      round.fetched.logs == Logs(transport.world.blocks, from, round.fetched.end + 1))
                && (WillSucceed(transport.world, t0, from, to, limit, standing, goal) ==>
                      round.fetched.end - from + 1 <= limit)
      ensures !round.Delivered? ==> FreeRetryBound(start, chunk.State(), counted)
      ensures round.Shrunk? ==> chunk.size < old(chunk.size)
      ensures !round.Delivered? && WillSucceed(transport.world, t0, from, to, limit, standing, goal)
              && chunk.min <= limit ==>
                && !transport.world.cancelled(transport.requests)
                && OnTrack(from, to, limit, standing, goal, chunk.size, transport.preferred,
                           if round.Shrunk? then attempt else attempt + 1)
    {
      ghost var w, before, preferred := transport.world, chunk.State(), transport.preferred;
      ghost var error;
      round, error := TryRound(from, to);
      counted := free;
      if round.Delivered? {
        PassedIsComplete(w, t0, transport.requests, transport.logsServedBy, from, round.fetched.end, to,
                         round.fetched.logs);
        PassedIsShort(w, t0, transport.requests, transport.logsServedBy, from, round.fetched.end, to, limit,
                      round.fetched.logs, standing, goal);
      } else {
        RoundIsProgress(w, t0, transport.requests, from, to, limit, before, round.span, error, preferred,
                        transport.preferred, standing, goal);
        ErrorKeepsBound(start, before, free, round.kind, round.span);
        counted := CountRetry(before, round.kind, round.span, free);
      }
    }
  }

  /** Spans over the limit come first, before any attempt is counted; and the lagging endpoints
      that can still be met are no more than the attempts left. */
  ghost predicate OnTrack(
    from: nat, to: nat, limit: nat, standing: seq<Standing>, goal: nat, size: nat, preferred: nat, attempt: nat) {
    && goal < |standing| && preferred < |standing|
    && (limit < Min(size, to - from + 1) ==> attempt == 0)
    && attempt + |LaggingAhead(standing, preferred, goal)| < MAX_CHUNK_ATTEMPTS
  }

  /** A failed round shrinks a span over the limit at once, or turns away from an endpoint
      that lags. */
  lemma RoundIsProgress(
    w: World, t0: nat, t: nat, from: nat, to: nat, limit: nat, c: Chunk, span: nat, error: string, start: nat,
    next: nat, standing: seq<Standing>, goal: nat)
    requires t0 < t && from <= to && c.Valid() && 1 <= span <= c.size && span == Min(c.size, to - from + 1)
    requires start < w.endpoints && next < w.endpoints
    requires FailedWith(w, t, from, from + span - 1, start, next, error)
    ensures WillSucceed(w, t0, from, to, limit, standing, goal) && c.min <= limit ==>
              && !w.cancelled(t)
              && |LaggingAhead(standing, next, goal)| < MAX_CHUNK_ATTEMPTS
              && (limit < span ==> RetriedForFree(c, Classify(error), span))
              && (span <= limit ==>
                    |LaggingAhead(standing, next, goal)| < |LaggingAhead(standing, start, goal)|)
  {
    FewAhead(w, t0, from, to, limit, standing, next, goal);
    assert Explains(w, t, from, from + span - 1, start, error);
    if WillSucceed(w, t0, from, to, limit, standing, goal) && c.min <= limit {
      assert CanCatchUp(w, t0, from, to, limit, standing, goal);
      assert !w.cancelled(t);
      if limit < span {
        TooLongIsRangeError(w, t0, t, from, from + span - 1, to, limit, start, error, standing, goal);
        TooLongIsRetried(c, span, Classify(error), limit);
      } else {
        TurnedIsProgress(w, t0, t, from, from + span - 1, to, limit, start, next, standing, goal);
      }
    }
  }

  // ---- Two tasks -------------------------------------------------------------------------

  /** Two endpoints, the first with head 4, the second with head 10, and one log in block 5.
      The first endpoint fails over the second request. */
  function LaggingPair(): World<nat> {
    World(2, i => if i == 0 then "a" else "b", b => if b == 5 then [0] else [],
          (t, i, from, to) =>
            if i == 1 then Served(10) else if t == 2 then Refused("busy", false) else Served(4),
          (t, i) => Head(if i == 1 then 10 else 4), t => false)
  }

  /** With two tasks fetching, a cut chunk can pass the head check, although heads are read
      atomically and no endpoint lags by more than the window: between the first task's
      request, served by the lagging endpoint, and its head check, the second task's request
      is served by the other one, which the check then asks. */
  method TwoTasksCanAcceptACutChunk() returns (logs: seq<nat>, check: Result<(), string>)
    ensures HeadsAreAtomic(LaggingPair()) && LagIsBounded(LaggingPair())
    ensures check.Ok? && logs != Logs(LaggingPair().blocks, 0, 6)
  {
    var w := LaggingPair();
    LaggingPairIsSound();
    LaggingPairServes();
    NothingBelow(w.blocks, 5);
    var chain := new ChainConfig(w, 50_000, 500, 50_000, 0);
    var first := chain.transport.GetLogs(0, 5);
    assert first == Ok([]);
    var second := chain.transport.GetLogs(0, 5);
    assert chain.transport.logsServedBy == 1;
    check := chain.CheckLogsEndpointHead(5, 5);
    logs := first.value;
  }

  lemma LaggingPairIsSound()
    ensures HeadsAreAtomic(LaggingPair()) && LagIsBounded(LaggingPair())
  {
  }

  lemma LaggingPairServes()
    ensures Route(2, LogsReply(LaggingPair(), 1, 0, 5), 0, 0) == ServedBy(0)
    ensures Route(2, LogsReply(LaggingPair(), 2, 0, 5), 0, 0) == ServedBy(1)
    ensures Logs(LaggingPair().blocks, 0, 6) == Logs(LaggingPair().blocks, 0, 5) + [0]
  {
    SecondServes(LogsReply(LaggingPair(), 2, 0, 5));
    assert Turn(0, 0, 2) == 0;
  }

  lemma SecondServes(ask: nat -> Reply)
    requires ask(0).Bad? && !ask(0).deterministic && ask(1).Answered?
    ensures Route(2, ask, 0, 0) == ServedBy(1)
  {
    assert Turn(0, 0, 2) == 0 && Turn(0, 1, 2) == 1;
    assert Route(2, ask, 0, 0) == Route(2, ask, 0, 1);
  }

  lemma {:induction false} NothingBelow(blocks: Blocks<nat>, n: nat)
    requires forall b :: 0 <= b < n ==> blocks(b) == []
    ensures Logs(blocks, 0, n) == []
  {
    if n > 0 {
      NothingBelow(blocks, n - 1);
    }
  }
}
