/** Registry sync: plan, resumable replay, membership check, reconciliation, the live
    loop and the supervisor that retries forever.

    `tick` numbers the steps of the sync; `SyncEnv` says what happens at each of
    them. The process shuts down at tick `shutdownAt`, so that a run of the endless
    supervisor is any run that is shut down at the right moment. */
module Discovery {
  import opened Wrappers
  import opened Registry
  import opened Fingerprint
  import opened Rpc
  import Retry

  const MISMATCHES_BEFORE_RESYNC: nat := 2
  const MIN_RESYNC_INTERVAL: nat := 600
  const VERIFY_INTERVAL: nat := 60
  const FULL_REPLAY_MISMATCH_TOLERANCE: nat := 2
  const VERIFY_ATTEMPTS: nat := 5
  const SAME_BLOCK_VERIFY_ATTEMPTS: nat := 3

  datatype SyncPlan = FullPlan(from: nat) | ResumePlan(from: nat)

  function PlanSync(checkpoint: Option<nat>, fromBlock: nat, forceFull: bool): SyncPlan {
    if checkpoint.Some? && !forceFull && Min(checkpoint.value + 1, U64_MAX) >= fromBlock
    then ResumePlan(checkpoint.value + 1)
    else FullPlan(fromBlock)
  }

  /** What the registry reports about its members at a block. */
  datatype Reading = Reading(count: nat, fingerprint: Digest)

  type BlockNumber = n: nat | n <= U64_MAX

  datatype SyncEnv = SyncEnv(
    deploy: BlockNumber,
    hash: Hash,
    shutdownAt: nat,
    clock: nat -> nat,                            // tick -> seconds
    fails: (nat, nat) -> bool,                    // tick, operation: database or read failure
    reading: (nat, nat, nat) -> Option<Reading>,  // tick, attempt, block
    entropy: nat -> nat,
    readAt: (nat, Address) -> nat,                // requests made so far: block whose profile reconciliation reads
    handling: (nat, nat) -> Handling)             // requests made so far, event: how the live loop fared

  /** One replay attempt: the members after every block below `nextBlock`. */
  class ReplayProgress {
    const plan: SyncPlan
    var nextBlock: nat
    var members: Members
    /** The set the plan started from. */
    ghost const base: Members

    ghost predicate Valid(blocks: Blocks<Event>)
      reads this
    {
      && plan.from <= nextBlock
      && members == Replay(base, Logs(blocks, plan.from, nextBlock))
      && (plan.FullPlan? ==> base == {})
    }

    constructor (plan: SyncPlan, members: Members)
      ensures this.plan == plan && nextBlock == plan.from && this.members == base == members
    {
      this.plan, this.nextBlock, this.members, this.base := plan, plan.from, members, members;
    }

    /** Whether membership changed. */
    method ApplyMembershipEvent(e: Event) returns (changed: bool)
      modifies this`members
      ensures members == Apply(old(members), e)
      ensures changed <==> members != old(members)
    {
      match e {
        case Registered(a) =>
          changed := a !in members;
          members := members + {a};
        case Removed(a) =>
          changed := a in members;
          members := members - {a};
        case Unstaked(a, _) =>
          changed := a in members;
          members := members - {a};
        case ProfileChanged(_) =>
          changed := false;
      }
    }

    method ApplyAll(events: seq<Event>)
      modifies this`members
      ensures members == Replay(old(members), events)
    {
      for i := 0 to |events|
        invariant members == Replay(old(members), events[..i])
      {
        assert events[..i + 1][..i] == events[..i];
        var _ := ApplyMembershipEvent(events[i]);
      }
      assert events[..|events|] == events;
    }

    /** Replay the blocks up to `end`. */
    method ReplayOn(ghost blocks: Blocks<Event>, events: seq<Event>, end: nat)
      requires Valid(blocks) && nextBlock <= end && events == Logs(blocks, nextBlock, end + 1)
      modifies this`members, this`nextBlock
      ensures Valid(blocks) && nextBlock == end + 1
    {
      ReplayNext(blocks, base, plan.from, nextBlock, end + 1);
      ApplyAll(events);
      nextBlock := end + 1;
    }
  }

  // ---- What a run did ---------------------------------------------------------------

  datatype Entry =
    | Started(checkpoint: Option<nat>, stored: Members)
    | Planned(plan: SyncPlan, base: Members)
    | Round(plan: SyncPlan, base: Members, block: nat, members: Members)
    | Reconciled(
        plan: SyncPlan, base: Members, block: nat, members: Members, reading: Reading, verified: bool, kept: Members)
    | Interrupted(
        plan: SyncPlan, base: Members, block: nat, members: Members, kept: Members,
        checkpoint: Option<nat>, before: Members, stored: Members)
    | Disagreed(plan: SyncPlan, base: Members, block: nat, members: Members, reading: Reading)
    | LiveStarted(at: nat)
    | FollowedOn(
        after: nat, last: nat, how: seq<Handling>, checkpoint: Option<nat>, read: HeadRead, complete: bool)
    | LiveCheck(at: nat, block: nat, members: Members, reading: Reading, passed: bool)
    | Forced(at: nat)

  type History = seq<Entry>

  /** A reconciliation to a block below the checkpoint removed stored members and then
      failed before it moved the checkpoint. */
  predicate PrunedBelow(e: Entry) {
    e.Interrupted? && e.checkpoint.Some? && e.block < e.checkpoint.value && !(e.before <= e.stored)
  }

  /** The set is the plan's starting set folded over exactly the plan's blocks. */
  ghost predicate Folded(blocks: Blocks<Event>, plan: SyncPlan, base: Members, block: nat, members: Members) {
    && plan.from <= block + 1
    && members == Replay(base, Logs(blocks, plan.from, block + 1))
    && (plan.FullPlan? ==> base == {})
  }

  /** The registry was read at `block` and reported this. */
  ghost predicate WasRead(env: SyncEnv, block: nat, reading: Reading) {
    exists t, attempt :: env.reading(t, attempt, block) == Some(reading)
  }

  /** The comparison of a set with what the registry reported. */
  ghost predicate Agrees(env: SyncEnv, members: Members, reading: Reading) {
    Passes(env.hash, members, reading.count, reading.fingerprint)
  }

  /** It did so at time `at`. */
  ghost predicate WasReadAt(env: SyncEnv, at: nat, block: nat, reading: Reading) {
    exists t :: env.clock(t) == at && env.reading(t, 0, block) == Some(reading)
  }

  ghost predicate EntryOk(blocks: Blocks<Event>, env: SyncEnv, e: Entry) {
    match e
    case Round(plan, base, block, members) => Folded(blocks, plan, base, block, members)
    case Reconciled(plan, base, block, members, reading, verified, kept) =>
      && Folded(blocks, plan, base, block, members) && WasRead(env, block, reading)
      && (verified <==> Agrees(env, members, reading))
      && (!verified ==> plan.FullPlan?) && KeptBy(blocks, env, members, kept)
    case Disagreed(plan, base, block, members, reading) =>
      && Folded(blocks, plan, base, block, members) && WasRead(env, block, reading)
      && !Agrees(env, members, reading)
    case Interrupted(plan, base, block, members, kept, checkpoint, before, stored) =>
      && Folded(blocks, plan, base, block, members) && KeptBy(blocks, env, members, kept)
      && (stored == kept || (before <= stored && stored - before <= kept))
    case FollowedOn(after, last, how, _, _, _) =>
      after <= last && |how| == |Logs(blocks, after + 1, last + 1)| && FromEnv(env, how)
    case LiveCheck(at, block, members, reading, passed) =>
      WasRead(env, block, reading) && WasReadAt(env, at, block, reading) && (passed <==> Agrees(env, members, reading))
    case _ => true
  }

  /** The members whose profile still existed when reconciliation read it. */
  ghost predicate KeptBy(blocks: Blocks<Event>, env: SyncEnv, members: Members, kept: Members) {
    exists t :: kept == Surviving(blocks, env.deploy, members, ProfileReads(env, t))
  }

  /** The block after which each profile is read. */
  function ProfileReads(env: SyncEnv, t: nat): Address -> nat {
    (a: Address) => env.readAt(t, a)
  }

  /** Every event was handled as the environment let some event be handled. */
  ghost predicate FromEnv(env: SyncEnv, how: seq<Handling>) {
    forall k :: 0 <= k < |how| ==> HandledBy(env, how[k])
  }

  ghost predicate HandledBy(env: SyncEnv, h: Handling) {
    exists t, i :: env.handling(t, i) == h
  }

  datatype Polls = Polls(count: nat, lastRequest: nat)

  /** What the supervisor's decisions depend on:
      - mismatches: full replays that disagreed since the last reconciliation;
      - failedChecks: failed live checks since the last passed one or the start of the live loop;
      - lastForced: when the last forced replay was ordered;
      - drifted: the last live check made two such failures, and the last forced replay is
        long enough ago;
      - replays: a replay has been forced, or a full one disagreed;
      - rejected: a resumed set disagreed since the last reconciliation;
      - plans: the plans made;
      - forced, synced: how many forced replays were ordered and sets reconciled;
      - polled: how many polls were completed, and the request of the last one;
      - checked: when the last live check was made, or the live loop started;
      - below: how many interrupted reconciliations had pruned below the checkpoint. */
  datatype Tally = Tally(
    mismatches: nat, failedChecks: nat, lastForced: Option<nat>, drifted: bool, replays: bool, rejected: bool,
    plans: seq<Entry>, forced: nat, synced: nat, polled: Polls, checked: nat, below: nat)
  {
    function Add(e: Entry): Tally {
      match e
      case Planned(_, _) => this.(plans := plans + [e])
      case Reconciled(_, _, _, _, _, _, _) => this.(mismatches := 0, synced := synced + 1, rejected := false)
      case Interrupted(_, _, _, _, _, _, _, _) => this.(below := below + if PrunedBelow(e) then 1 else 0)
      case Disagreed(plan, _, _, _, _) =>
        if plan.FullPlan? then this.(mismatches := mismatches + 1, replays := true) else this.(rejected := true)
      case LiveStarted(at) => this.(failedChecks := 0, checked := at)
      case FollowedOn(_, _, _, _, read, complete) =>
        this.(polled := Polls(polled.count + if complete then 1 else 0, read.request))
      case LiveCheck(at, _, _, _, passed) =>
        var failures := if passed then 0 else failedChecks + 1;
        this.(failedChecks := failures, checked := at,
              drifted := failures >= MISMATCHES_BEFORE_RESYNC && LongSince(lastForced, at))
      case Forced(at) => this.(lastForced := Some(at), forced := forced + 1, drifted := false, replays := true)
      case _ => this
    }
  }

  /** A replay may be forced again. */
  predicate LongSince(lastForced: Option<nat>, at: nat) {
    lastForced.Some? ==> at >= lastForced.value + MIN_RESYNC_INTERVAL
  }

  function Count(h: History): Tally {
    if h == [] then Tally(0, 0, None, false, false, false, [], 0, 0, Polls(0, 0), 0, 0)
    else Count(h[..|h| - 1]).Add(h[|h| - 1])
  }

  /** What the process shows and stores: the flag, the served set and the last block
      followed; the checkpoint and the stored set. */
  datatype Shown = Shown(
    verified: Option<bool>, served: Members, block: Option<nat>, checkpoint: Option<nat>, stored: Members)
  {
    function Add(blocks: Blocks<Event>, deploy: nat, e: Entry): Shown {
      match e
      case Started(before, members) => this.(checkpoint := before, stored := members)
      case Reconciled(_, _, to, _, _, flag, kept) => Shown(Some(flag), kept, Some(to), Some(to), kept)
      case Interrupted(_, _, _, _, _, _, _, members) => this.(stored := members)
      case FollowedOn(after, last, how, reached, _, _) =>
        var events := Logs(blocks, after + 1, last + 1);
        if |how| == |events|
        then Shown(verified, LiveReplay(blocks, deploy, served, events, how), Some(last), reached,
                   LiveReplay(blocks, deploy, stored, events, how))
        else this
      case LiveCheck(_, _, _, _, passed) => this.(verified := Some(passed))
      case _ => this
    }
  }

  lemma FollowedShows(
    blocks: Blocks<Event>, deploy: nat, x: Shown, served: Members, stored: Members, after: nat, last: nat,
    how: seq<Handling>, checkpoint: Option<nat>, read: HeadRead, complete: bool)
    requires Followed(blocks, deploy, x.served, served, after + 1, last, how)
    requires Followed(blocks, deploy, x.stored, stored, after + 1, last, how)
    ensures x.Add(blocks, deploy, FollowedOn(after, last, how, checkpoint, read, complete))
         == Shown(x.verified, served, Some(last), checkpoint, stored)
  {
  }

  function ShownBy(blocks: Blocks<Event>, deploy: nat, h: History): Shown {
    if h == [] then Shown(None, {}, None, None, {})
    else ShownBy(blocks, deploy, h[..|h| - 1]).Add(blocks, deploy, h[|h| - 1])
  }

  function LastEntry(h: History): Option<Entry> {
    if h == [] then None else Some(h[|h| - 1])
  }

  /** What may be appended to a history. */
  ghost predicate Follows(blocks: Blocks<Event>, env: SyncEnv, h: History, e: Entry) {
    && EntryOk(blocks, env, e) && (e.Started? <==> h == [])
    && Fits(env.deploy, Count(h), ShownBy(blocks, env.deploy, h), e)
  }

  /** A replay is forced exactly when the live loop has drifted. A plan is the one to make
      from the checkpoint and set stored just then; what is replayed and reconciled is the
      last plan's; a live check is of the set served just then, at the block followed to
      just then. */
  ghost predicate Fits(deploy: nat, t: Tally, shown: Shown, e: Entry) {
    && (e.Forced? <==> t.drifted)
    && match e
       case Planned(plan, base) => PlanFits(deploy, t, shown.checkpoint, shown.stored, plan, base)
       case Round(plan, base, _, _) => LastPlanIs(t, plan, base)
       case Reconciled(plan, base, _, _, _, verified, _) =>
         LastPlanIs(t, plan, base) && (!verified ==> t.mismatches >= FULL_REPLAY_MISMATCH_TOLERANCE)
       case Interrupted(plan, base, _, _, _, checkpoint, before, _) =>
         LastPlanIs(t, plan, base) && checkpoint == shown.checkpoint && before == shown.stored
       case Disagreed(plan, base, _, _, _) =>
         LastPlanIs(t, plan, base) && (plan.FullPlan? ==> t.mismatches < FULL_REPLAY_MISMATCH_TOLERANCE)
       case FollowedOn(after, last, _, checkpoint, read, _) =>
         && shown.block == Some(after) && t.polled.lastRequest < read.request
         && (checkpoint == shown.checkpoint || (checkpoint.Some? && after < checkpoint.value <= last))
       case LiveCheck(_, block, members, _, _) => shown.block == Some(block) && members == shown.served
       case Forced(at) => t.failedChecks >= MISMATCHES_BEFORE_RESYNC && LongSince(t.lastForced, at)
       case _ => true
  }

  /** The checkpoint is not below the deployment block. */
  predicate Continues(checkpoint: Option<nat>, deploy: nat) {
    checkpoint.Some? && deploy <= checkpoint.value + 1
  }

  /** A checkpoint is resumed with the stored set unless a replay was forced or a set
      disagreed; without one, or then, everything is replayed. */
  ghost predicate PlanFits(
    deploy: nat, t: Tally, checkpoint: Option<nat>, stored: Members, plan: SyncPlan, base: Members) {
    match plan
    case ResumePlan(from) =>
      Continues(checkpoint, deploy) && from == checkpoint.value + 1 && base == stored && !t.replays
    case FullPlan(from) =>
      from == deploy && base == {} && (Continues(checkpoint, deploy) ==> t.replays || t.rejected)
  }

  /** The plan to make next. */
  ghost function PlanFor(deploy: nat, checkpoint: Option<nat>, stored: Members, force: bool): Entry {
    if Continues(checkpoint, deploy) && !force then Planned(ResumePlan(checkpoint.value + 1), stored)
    else Planned(FullPlan(deploy), {})
  }

  ghost predicate LastPlanIs(t: Tally, plan: SyncPlan, base: Members) {
    t.plans != [] && t.plans[|t.plans| - 1] == Planned(plan, base)
  }

  ghost predicate Disciplined(blocks: Blocks<Event>, env: SyncEnv, h: History) {
    h != [] ==>
      Disciplined(blocks, env, h[..|h| - 1]) && Follows(blocks, env, h[..|h| - 1], h[|h| - 1])
  }

  /** A poll followed no further than the safe head it had read, and up to it if no fetch failed. */
  ghost predicate PollOk(o: Outlook, e: Entry) {
    e.FollowedOn? ==>
      var head := o.SafeHead(e.read.request, e.read.endpoint);
      && head.Some? && e.after <= e.last <= Max(e.after, head.value)
      && (e.complete ==> e.last == Max(e.after, head.value))
  }

  /** The history is disciplined, its polls are right, and it adds up to this. */
  ghost predicate Told(blocks: Blocks<Event>, env: SyncEnv, o: Outlook, h: History, t: Tally, x: Shown) {
    && Disciplined(blocks, env, h) && (forall e :: e in h ==> PollOk(o, e))
    && Count(h) == t && ShownBy(blocks, env.deploy, h) == x
  }

  lemma StartIsTold(blocks: Blocks<Event>, env: SyncEnv, o: Outlook, e: Entry)
    requires e.Started?
    ensures Told(blocks, env, o, [e], Count([]), Shown(None, {}, None, e.checkpoint, e.stored))
  {
    assert [e][..0] == [];
  }

  lemma Append(blocks: Blocks<Event>, env: SyncEnv, h: History, e: Entry)
    requires Disciplined(blocks, env, h) && Follows(blocks, env, h, e)
    ensures Disciplined(blocks, env, h + [e]) && Count(h + [e]) == Count(h).Add(e)
    ensures ShownBy(blocks, env.deploy, h + [e]) == ShownBy(blocks, env.deploy, h).Add(blocks, env.deploy, e)
    ensures LastEntry(h + [e]) == Some(e)
  {
    assert (h + [e])[..|h + [e]| - 1] == h;
  }

  // ---- What discipline means ------------------------------------------------------------

  lemma {:induction false} EveryEntryFollows(blocks: Blocks<Event>, env: SyncEnv, h: History, k: nat)
    requires Disciplined(blocks, env, h) && k < |h|
    ensures Follows(blocks, env, h[..k], h[k])
  {
    var n := |h| - 1;
    if k < n {
      EveryEntryFollows(blocks, env, h[..n], k);
      assert h[..n][..k] == h[..k];
    }
  }

  /** How many entries at the end of `h` are hits, since the last reset. */
  function Streak(h: History, hit: Entry -> bool, reset: Entry -> bool): nat {
    if h == [] || reset(h[|h| - 1]) then 0
    else Streak(h[..|h| - 1], hit, reset) + if hit(h[|h| - 1]) then 1 else 0
  }

  const IS_MISMATCH: Entry -> bool := (e: Entry) => e.Disagreed? && e.plan.FullPlan?
  const IS_RECONCILED: Entry -> bool := (e: Entry) => e.Reconciled?
  const IS_FAILED_CHECK: Entry -> bool := (e: Entry) => e.LiveCheck? && !e.passed
  const ENDS_FAILED_CHECKS: Entry -> bool := (e: Entry) => (e.LiveCheck? && e.passed) || e.LiveStarted?

  lemma {:induction false} MismatchesAreStreak(h: History)
    ensures Count(h).mismatches == Streak(h, IS_MISMATCH, IS_RECONCILED)
  {
    if h != [] {
      MismatchesAreStreak(h[..|h| - 1]);
    }
  }

  lemma {:induction false} FailuresAreStreak(h: History)
    ensures Count(h).failedChecks == Streak(h, IS_FAILED_CHECK, ENDS_FAILED_CHECKS)
  {
    if h != [] {
      FailuresAreStreak(h[..|h| - 1]);
    }
  }

  lemma {:induction false} StreakHit(h: History, hit: Entry -> bool, reset: Entry -> bool) returns (j: nat)
    requires Streak(h, hit, reset) >= 1
    ensures j < |h| && hit(h[j]) && (forall k :: j <= k < |h| ==> !reset(h[k]))
    ensures Streak(h[..j], hit, reset) >= Streak(h, hit, reset) - 1
  {
    var n := |h| - 1;
    if hit(h[n]) {
      j := n;
    } else {
      j := StreakHit(h[..n], hit, reset);
      assert h[..n][..j] == h[..j];
      assert forall k :: j <= k < n ==> h[..n][k] == h[k];
    }
  }

  lemma TwoHits(h: History, hit: Entry -> bool, reset: Entry -> bool) returns (i: nat, j: nat)
    requires Streak(h, hit, reset) >= 2
    ensures i < j < |h| && hit(h[i]) && hit(h[j]) && (forall k :: i <= k < |h| ==> !reset(h[k]))
  {
    j := StreakHit(h, hit, reset);
    i := StreakHit(h[..j], hit, reset);
    assert forall k :: i <= k < j ==> h[..j][k] == h[k];
  }

  /** An unverified set is served only for a full replay, after two full replays whose
      sets did not have the count and fingerprint the registry reported, with no
      reconciliation since. */
  lemma UnverifiedOnlyAfterTwoMismatches(
    blocks: Blocks<Event>, env: SyncEnv, h: History, n: nat)
    returns (i: nat, j: nat)
    requires Disciplined(blocks, env, h) && n < |h| && h[n].Reconciled? && !h[n].verified
    ensures h[n].plan.FullPlan?
    ensures i < j < n && FullReplayDisagreed(blocks, env, h[i]) && FullReplayDisagreed(blocks, env, h[j])
    ensures forall k :: i <= k < n ==> !h[k].Reconciled?
  {
    EveryEntryFollows(blocks, env, h, n);
    MismatchesAreStreak(h[..n]);
    i, j := TwoHits(h[..n], IS_MISMATCH, IS_RECONCILED);
    assert forall k :: i <= k < n ==> h[..n][k] == h[k];
    EveryEntryFollows(blocks, env, h, i);
    EveryEntryFollows(blocks, env, h, j);
  }

  /** A full replay was compared with a reading of the registry at its block and differed. */
  ghost predicate FullReplayDisagreed(blocks: Blocks<Event>, env: SyncEnv, e: Entry) {
    && e.Disagreed? && e.plan.FullPlan? && e.members == Replay({}, Logs(blocks, e.plan.from, e.block + 1))
    && WasRead(env, e.block, e.reading) && !Agrees(env, e.members, e.reading)
  }

  /** At step `k` of the history the set then served was compared with a reading of the
      registry at the block then followed to, and differed. */
  ghost predicate ServedSetDisagreed(blocks: Blocks<Event>, env: SyncEnv, h: History, k: nat)
    requires k < |h|
  {
    var shown := ShownBy(blocks, env.deploy, h[..k]);
    && h[k].LiveCheck? && shown.block == Some(h[k].block)
    && WasRead(env, h[k].block, h[k].reading) && !Agrees(env, shown.served, h[k].reading)
  }

  lemma FailedCheckDisagreed(
    blocks: Blocks<Event>, env: SyncEnv, h: History, at: nat, block: nat, members: Members, reading: Reading)
    requires Disciplined(blocks, env, h) && LastEntry(h).Some?
    requires LastEntry(h).value == LiveCheck(at, block, members, reading, false)
    ensures h != [] && ServedSetDisagreed(blocks, env, h, |h| - 1)
    ensures h[|h| - 1].block == block && h[|h| - 1].members == members
  {
  }

  /** A drift-forced replay happens only after the set served at the time twice differed
      from the registry, with no agreeing check and no new live loop between or after. */
  lemma ForcedOnlyAfterTwoFailedChecks(blocks: Blocks<Event>, env: SyncEnv, h: History, n: nat) returns (i: nat, j: nat)
    requires Disciplined(blocks, env, h) && n < |h| && h[n].Forced?
    ensures i < j < n && ServedSetDisagreed(blocks, env, h, i) && ServedSetDisagreed(blocks, env, h, j)
    ensures forall k :: i <= k < n ==> (h[k].LiveCheck? ==> ServedSetDisagreed(blocks, env, h, k)) && !h[k].LiveStarted?
  {
    EveryEntryFollows(blocks, env, h, n);
    FailuresAreStreak(h[..n]);
    i, j := TwoHits(h[..n], IS_FAILED_CHECK, ENDS_FAILED_CHECKS);
    EveryEntryFollows(blocks, env, h, i);
    EveryEntryFollows(blocks, env, h, j);
    forall k | i <= k < n
      ensures (h[k].LiveCheck? ==> ServedSetDisagreed(blocks, env, h, k)) && !h[k].LiveStarted?
    {
      assert h[..n][k] == h[k] && !ENDS_FAILED_CHECKS(h[..n][k]);
      EveryEntryFollows(blocks, env, h, k);
    }
  }

  lemma {:induction false} HitCounts(h: History, hit: Entry -> bool, reset: Entry -> bool, i: nat)
    requires i < |h| && hit(h[i]) && forall k :: i <= k < |h| ==> !reset(h[k])
    ensures Streak(h, hit, reset) >= Streak(h[..i], hit, reset) + 1
  {
    var n := |h| - 1;
    if i < n {
      HitCounts(h[..n], hit, reset, i);
      assert h[..n][..i] == h[..i];
    }
  }

  lemma {:induction false} LastForcedIs(h: History) returns (k: nat)
    requires Count(h).lastForced.Some?
    ensures k < |h| && h[k].Forced? && h[k].at == Count(h).lastForced.value
  {
    var n := |h| - 1;
    k := n;
    if !h[n].Forced? {
      k := LastForcedIs(h[..n]);
    }
  }

  /** A live check that failed, the second since the last that passed and since the live
      loop started, ten minutes or more after every forced replay. */
  ghost predicate SecondFailure(h: History, i: nat, n: nat) {
    && i < n < |h| && IS_FAILED_CHECK(h[i]) && IS_FAILED_CHECK(h[n])
    && (forall k :: i <= k <= n ==> !ENDS_FAILED_CHECKS(h[k]))
    && (forall k :: 0 <= k < n && h[k].Forced? ==> h[n].at >= h[k].at + MIN_RESYNC_INTERVAL)
  }

  lemma SecondFailureDrifts(h: History, i: nat, n: nat)
    requires SecondFailure(h, i, n)
    ensures Count(h[..n + 1]).drifted
  {
    var before := h[..n];
    assert h[..n + 1][..n] == before;
    assert forall k :: i <= k < n ==> !ENDS_FAILED_CHECKS(before[k]);
    HitCounts(before, IS_FAILED_CHECK, ENDS_FAILED_CHECKS, i);
    FailuresAreStreak(before);
    if Count(before).lastForced.Some? {
      var k := LastForcedIs(before);
      assert h[k] == before[k];
    }
  }

  /** A drifted served set is not served for ever: after such a failure a replay is forced
      at once, and every later plan is a full one. */
  lemma DriftForcesAFullReplay(blocks: Blocks<Event>, env: SyncEnv, h: History, i: nat, n: nat)
    requires Disciplined(blocks, env, h) && !Count(h).drifted && SecondFailure(h, i, n)
    ensures n + 1 < |h| && h[n + 1].Forced?
    ensures forall m :: n < m < |h| && h[m].Planned? ==> h[m] == Planned(FullPlan(env.deploy), {})
  {
    SecondFailureDrifts(h, i, n);
    assert h[..|h|] == h;
    EveryEntryFollows(blocks, env, h, n + 1);
    forall m | n < m < |h| && h[m].Planned?
      ensures h[m] == Planned(FullPlan(env.deploy), {})
    {
      EveryEntryFollows(blocks, env, h, m);
      assert h[..m][n + 1] == h[n + 1];
      CallsForReplays(h[..m], n + 1);
    }
  }

  const CALLS_FOR_REPLAYS: Entry -> bool := (e: Entry) => e.Forced? || (e.Disagreed? && e.plan.FullPlan?)

  lemma {:induction false} CallsForReplays(h: History, k: nat)
    requires k < |h| && CALLS_FOR_REPLAYS(h[k])
    ensures Count(h).replays
  {
    var n := |h| - 1;
    if k < n {
      CallsForReplays(h[..n], k);
    }
  }

  lemma {:induction false} ReplaysWereCalledFor(h: History) returns (k: nat)
    requires Count(h).replays
    ensures k < |h| && CALLS_FOR_REPLAYS(h[k])
  {
    var n := |h| - 1;
    k := n;
    if !CALLS_FOR_REPLAYS(h[n]) {
      k := ReplaysWereCalledFor(h[..n]);
    }
  }

  lemma {:induction false} WasRejected(h: History) returns (k: nat)
    requires Count(h).rejected
    ensures k < |h| && h[k].Disagreed? && forall m :: k <= m < |h| ==> !h[m].Reconciled?
  {
    var n := |h| - 1;
    k := n;
    if !h[n].Disagreed? || h[n].plan.FullPlan? {
      k := WasRejected(h[..n]);
      assert forall m :: k <= m < n ==> h[..n][m] == h[m];
    }
  }

  /** A checkpoint is resumed, with the set stored at the time, unless a replay was forced or
      a full one disagreed before, or a set disagreed since the last reconciliation; after
      the former it never is. */
  lemma CheckpointsAreResumed(blocks: Blocks<Event>, env: SyncEnv, h: History, n: nat)
    requires Disciplined(blocks, env, h) && n < |h| && h[n].Planned?
    ensures var shown := ShownBy(blocks, env.deploy, h[..n]);
            var called := exists k :: 0 <= k < n && CALLS_FOR_REPLAYS(h[k]);
            var rejected := exists k :: 0 <= k < n && h[k].Disagreed? && forall m :: k <= m < n ==> !h[m].Reconciled?;
            && (Continues(shown.checkpoint, env.deploy) && !called && !rejected ==>
                  h[n] == Planned(ResumePlan(shown.checkpoint.value + 1), shown.stored))
            && (!Continues(shown.checkpoint, env.deploy) || called ==> h[n] == Planned(FullPlan(env.deploy), {}))
  {
    EveryEntryFollows(blocks, env, h, n);
    if Count(h[..n]).replays {
      var k := ReplaysWereCalledFor(h[..n]);
      assert h[k] == h[..n][k];
    }
    if Count(h[..n]).rejected {
      var k := WasRejected(h[..n]);
      assert h[k] == h[..n][k];
      assert forall m :: k <= m < n ==> h[m] == h[..n][m];
    }
    if k :| 0 <= k < n && CALLS_FOR_REPLAYS(h[k]) {
      CallsForReplays(h[..n], k);
    }
  }

  /** No more than two full replays in a row are rejected: the next set is served. */
  lemma AtMostTwoRejections(blocks: Blocks<Event>, env: SyncEnv, h: History, n: nat)
    requires Disciplined(blocks, env, h) && n < |h| && h[n].Disagreed? && h[n].plan.FullPlan?
    ensures forall i, j :: 0 <= i < j < n && IS_MISMATCH(h[i]) && IS_MISMATCH(h[j]) ==>
              exists k :: i < k < n && h[k].Reconciled?
  {
    EveryEntryFollows(blocks, env, h, n);
    MismatchesAreStreak(h[..n]);
    forall i, j | 0 <= i < j < n && IS_MISMATCH(h[i]) && IS_MISMATCH(h[j])
      ensures exists k :: i < k < n && h[k].Reconciled?
    {
      if forall k :: i < k < n ==> !h[k].Reconciled? {
        assert forall k :: i <= k < n ==> !IS_RECONCILED(h[..n][k]);
        TwoHitsCount(h[..n], IS_MISMATCH, IS_RECONCILED, i, j);
      }
    }
  }

  lemma TwoHitsCount(h: History, hit: Entry -> bool, reset: Entry -> bool, i: nat, j: nat)
    requires i < j < |h| && hit(h[i]) && hit(h[j]) && forall k :: i <= k < |h| ==> !reset(h[k])
    ensures Streak(h, hit, reset) >= 2
  {
    HitCounts(h, hit, reset, j);
    HitCounts(h[..j], hit, reset, i);
  }

  /** Forced replays are at least ten minutes apart, so a stretch of `length` seconds
      from `start` holds at most 1 + length / 600 of them. */
  lemma ForcedReplaysAreRare(blocks: Blocks<Event>, env: SyncEnv, h: History, start: nat, length: nat)
    requires Disciplined(blocks, env, h)
    requires forall e :: e in h && e.Forced? ==> start <= e.at <= start + length
    ensures Count(h).forced <= 1 + length / MIN_RESYNC_INTERVAL
  {
    ForcedReplaysAreApart(blocks, env, h, start, length);
    Intervals(Count(h).forced, length);
  }

  lemma Intervals(n: nat, length: nat)
    requires n > 0 ==> MIN_RESYNC_INTERVAL * (n - 1) <= length
    ensures n <= 1 + length / MIN_RESYNC_INTERVAL
  {
  }

  lemma {:induction false} ForcedReplaysAreApart(
    blocks: Blocks<Event>, env: SyncEnv, h: History, start: nat, length: nat)
    requires Disciplined(blocks, env, h)
    requires forall e :: e in h && e.Forced? ==> start <= e.at <= start + length
    ensures Apart(Count(h), start, length)
  {
    if h != [] {
      var n := |h| - 1;
      assert h[n] in h && Follows(blocks, env, h[..n], h[n]);
      ForcedReplaysAreApart(blocks, env, h[..n], start, length);
      OneMoreForced(Count(h[..n]), h[n], start, length);
    }
  }

  predicate Apart(t: Tally, start: nat, length: nat) {
    t.forced > 0 ==>
      && t.lastForced.Some?
      && start + MIN_RESYNC_INTERVAL * (t.forced - 1) <= t.lastForced.value <= start + length
  }

  lemma OneMoreForced(t: Tally, e: Entry, start: nat, length: nat)
    requires Apart(t, start, length)
    requires e.Forced? ==> LongSince(t.lastForced, e.at) && start <= e.at <= start + length
    ensures Apart(t.Add(e), start, length)
  {
  }

  /** The flag on the served set says what the last comparison said: of the set last
      reconciled, or of the set that was served at a live check since, with a reading of
      the registry at the block replayed or followed to. */
  lemma {:induction false} FlagIsTheLastComparison(blocks: Blocks<Event>, env: SyncEnv, h: History) returns (n: nat)
    requires Disciplined(blocks, env, h) && ShownBy(blocks, env.deploy, h).verified.Some?
    ensures n < |h| && (forall k :: n < k < |h| ==> !h[k].Reconciled? && !h[k].LiveCheck?)
    ensures if h[n].LiveCheck?
            then ShownBy(blocks, env.deploy, h[..n]).served == h[n].members
                 && ShownBy(blocks, env.deploy, h[..n]).block == Some(h[n].block)
            else h[n].Reconciled? && Folded(blocks, h[n].plan, h[n].base, h[n].block, h[n].members)
    ensures WasRead(env, h[n].block, h[n].reading)
    ensures ShownBy(blocks, env.deploy, h).verified.value <==> Agrees(env, h[n].members, h[n].reading)
  {
    n := |h| - 1;
    if !h[n].Reconciled? && !h[n].LiveCheck? {
      var last := n;
      n := FlagIsTheLastComparison(blocks, env, h[..last]);
      assert forall k :: n < k < last ==> h[..last][k] == h[k];
      assert h[..last][..n] == h[..n];
    }
  }

  /** At step `t` no attempt could read the registry at some block. */
  ghost predicate Unreadable(env: SyncEnv, t: nat) {
    exists block: nat :: UnreadableAt(env, t, block)
  }

  ghost predicate UnreadableAt(env: SyncEnv, t: nat, block: nat) {
    forall k :: 0 <= k < SAME_BLOCK_VERIFY_ATTEMPTS ==> env.reading(t, k, block).None?
  }

  /** What is reconciled under a full plan is the full replay up to its block. */
  lemma FullPlanIsFullReplay(blocks: Blocks<Event>, env: SyncEnv, h: History, n: nat)
    requires Disciplined(blocks, env, h) && n < |h| && h[n].Reconciled? && h[n].plan == FullPlan(env.deploy)
    ensures h[n].members == Full(blocks, env.deploy, h[n].block + 1)
  {
    EveryEntryFollows(blocks, env, h, n);
  }

  /** When the registry reports its members truthfully, a full plan is never rejected and
      what it reconciles is always verified; and what a resumed plan reconciles is the
      full replay, or a set of the same size whose differing hashes cancel out. */
  lemma TruthfulRegistry(blocks: Blocks<Event>, env: SyncEnv, h: History, n: nat)
    requires Disciplined(blocks, env, h) && n < |h| && (h[n].Reconciled? || h[n].Disagreed?)
    requires h[n].reading == Truth(blocks, env, h[n].block)
    ensures h[n].plan == FullPlan(env.deploy) ==> h[n].Reconciled? && h[n].verified
    ensures h[n].Reconciled? && h[n].plan.ResumePlan? ==>
              var full := Full(blocks, env.deploy, h[n].block + 1);
              && |h[n].members| == |full|
              && SetFingerprint(env.hash, SymmetricDifference(h[n].members, full)) == ZERO
  {
    EveryEntryFollows(blocks, env, h, n);
    PassesExactly(env.hash, h[n].members, Full(blocks, env.deploy, h[n].block + 1));
  }

  /** What a registry that tells the truth reports at a block. */
  ghost function Truth(blocks: Blocks<Event>, env: SyncEnv, block: nat): Reading {
    var members := Full(blocks, env.deploy, block + 1);
    Reading(|members|, SetFingerprint(env.hash, members))
  }

  // ---- The sync's writes as steps of the stored set ----------------------------------------

  /** Whatever `RegistrySync.Reconcile` leaves behind, done or failed at any write, with or
      without an earlier checkpoint, is one step of the stored set that
      `Registry.EveryRunCanResume` speaks of. Profiles are read no earlier than the block
      replayed to and the checkpoint; and a reconciliation that stopped between pruning
      and checkpointing had replayed past the checkpoint
      (see `Registry.PruningBelowTheCheckpointExactly`). */
  lemma ReconcileIsAStep(
    blocks: Blocks<Event>, deploy: nat, s: Store, block: nat, readAt: Address -> nat, horizon: nat,
    stored: Members, done: bool) returns (step: StoreStep)
    requires s.plan.Some? && s.plan.value.from <= block + 1 <= horizon && s.horizon <= horizon
    requires Reconciles(blocks, deploy, s, block + 1, readAt, horizon)
    requires var kept := Surviving(blocks, deploy, Handed(blocks, s.plan.value, block + 1), readAt);
             if done then stored == kept
             else (stored == kept && (s.Resumes(deploy) ==> s.next.value <= block + 1))
                  || (s.members <= stored && stored - s.members <= kept)
    ensures StepsTo(blocks, deploy, s, step, AfterReconcile(s, block, horizon, stored, done))
  {
    var kept := Surviving(blocks, deploy, Handed(blocks, s.plan.value, block + 1), readAt);
    if done {
      step := WholeReconciliation(block + 1, readAt);
    } else if s.members <= stored && stored - s.members <= kept {
      step := PartOfReconciliation(block + 1, readAt, stored - s.members);
      assert stored == s.members + (stored - s.members);
    } else {
      step := PrunedReconciliation(block + 1, readAt);
    }
  }

  function AfterReconcile(s: Store, block: nat, horizon: nat, stored: Members, done: bool): Store {
    if done then Store(stored, Some(block + 1), block + 1, None, horizon)
    else s.Restarted().(members := stored, plan := s.plan, horizon := horizon)
  }

  /** So is a chunk the live loop followed to its end without dropping an event, whether
      or not its checkpoint and those of earlier chunks were written; and so is any part
      of a chunk, with any events dropped, when the process dies inside it. */
  lemma FollowedChunkIsAStep(
    blocks: Blocks<Event>, deploy: nat, s: Store, last: nat, events: seq<Event>, how: seq<Handling>,
    saved: bool, horizon: nat) returns (step: StoreStep)
    requires s.Resumes(deploy) && s.followed <= last + 1 <= horizon && s.horizon <= horizon
    requires events <= Logs(blocks, s.followed, last + 1) && |how| == |events|
    ensures events == Logs(blocks, s.followed, last + 1) && AllCurrent(how, last, horizon) ==>
              StepsTo(blocks, deploy, s, step, AfterChunk(blocks, deploy, s, last, how, saved, horizon))
    ensures !(events == Logs(blocks, s.followed, last + 1) && AllCurrent(how, last, horizon))
            && ReadsWithin(how, s.followed, horizon) ==>
              StepsTo(blocks, deploy, s, step,
                s.Restarted().(members := LiveReplay(blocks, deploy, s.members, events, how), horizon := horizon))
  {
    LogsSplit(blocks, s.followed, last + 1, horizon);
    if events == Logs(blocks, s.followed, last + 1) && AllCurrent(how, last, horizon) {
      step := WholeChunk(last + 1, how, saved);
    } else {
      step := PartOfChunk(events, how);
    }
  }

  /** No event was dropped and every profile was read at or after block `last`. */
  ghost predicate AllCurrent(how: seq<Handling>, last: nat, horizon: nat) {
    ReadsWithin(how, last + 1, horizon) && forall i :: 0 <= i < |how| ==> how[i].Done?
  }

  function AfterChunk(
    blocks: Blocks<Event>, deploy: nat, s: Store, last: nat, how: seq<Handling>, saved: bool, horizon: nat): Store
    requires |how| == |Logs(blocks, s.followed, last + 1)|
  {
    Store(LiveReplay(blocks, deploy, s.members, Logs(blocks, s.followed, last + 1), how),
          if saved then Some(last + 1) else s.next, last + 1, s.plan, horizon)
  }

  lemma LiveReplayNext(
    blocks: Blocks<Event>, deploy: nat, members: Members, events: seq<Event>, i: nat, how: seq<Handling>, h: Handling)
    requires i < |events| && |how| == i
    ensures LiveReplay(blocks, deploy, members, events[..i + 1], how + [h])
         == LiveApply(blocks, deploy, LiveReplay(blocks, deploy, members, events[..i], how), events[i], h)
  {
    assert events[..i + 1][..i] == events[..i] && (how + [h])[..i] == how;
  }

  lemma ChunkIsSettled(
    blocks: Blocks<Event>, deploy: nat, s: Store, last: nat, how: seq<Handling>, saved: bool, h: nat)
    requires s.Resumes(deploy) && s.followed <= last + 1 <= h && s.horizon <= h && StoreGood(blocks, deploy, s)
    requires |how| == |Logs(blocks, s.followed, last + 1)| && AllCurrent(how, last, h)
    ensures StoreGood(blocks, deploy, AfterChunk(blocks, deploy, s, last, how, saved, h))
  {
    var step := FollowedChunkIsAStep(blocks, deploy, s, last, Logs(blocks, s.followed, last + 1), how, saved, h);
    StepKeepsStoreGood(blocks, deploy, s, step, AfterChunk(blocks, deploy, s, last, how, saved, h));
  }

  lemma ServedIsSettled(
    blocks: Blocks<Event>, deploy: nat, s: Store, served: Members, last: nat, how: seq<Handling>, h: nat)
    requires s.followed <= last + 1 <= h && s.horizon <= h && Good(blocks, deploy, served, s.followed, s.horizon)
    requires |how| == |Logs(blocks, s.followed, last + 1)| && AllCurrent(how, last, h)
    ensures Good(blocks, deploy, LiveReplay(blocks, deploy, served, Logs(blocks, s.followed, last + 1), how),
                 last + 1, h)
  {
    GoodExtends(blocks, deploy, served, s.followed, s.horizon, h);
    CommittedChunkIsGood(blocks, deploy, served, s.followed, last + 1, h, how);
  }

  lemma ReconcileIsSettled(
    blocks: Blocks<Event>, deploy: nat, s: Store, block: nat, readAt: Address -> nat, h: nat,
    stored: Members, done: bool)
    requires StoreGood(blocks, deploy, s) && s.plan.Some? && s.horizon <= h
    requires Reconciles(blocks, deploy, s, block + 1, readAt, h)
    requires var kept := Surviving(blocks, deploy, Handed(blocks, s.plan.value, block + 1), readAt);
             if done then stored == kept
             else (stored == kept && (s.Resumes(deploy) ==> s.next.value <= block + 1))
                  || (s.members <= stored && stored - s.members <= kept)
    ensures StoreGood(blocks, deploy, AfterReconcile(s, block, h, stored, done))
    ensures done ==> Good(blocks, deploy, stored, block + 1, h)
  {
    var step := ReconcileIsAStep(blocks, deploy, s, block, readAt, h, stored, done);
    StepKeepsStoreGood(blocks, deploy, s, step, AfterReconcile(s, block, h, stored, done));
    if done {
      StoreGoodExtends(blocks, deploy, s, h);
      ReplayKeepsGood(blocks, deploy, s.plan.value.base, s.plan.value.from, block + 1, h);
      ReconciledIsGood(blocks, deploy, Handed(blocks, s.plan.value, block + 1), block + 1, h, readAt);
    }
  }

  // ---- What keeps the stored set right ---------------------------------------------------------

  /** What the endpoints say over time, as the process sees it: heads less the
      confirmations; and `floor`, the block it starts knowing, its checkpoint or the one
      before the deployment. Requests count the time. */
  datatype Outlook = Outlook(world: World<Event>, confirmations: nat, floor: nat) {
    function SafeHead(t: nat, i: nat): Option<nat> {
      SafeBlock(world, confirmations, HeadRead(t, i))
    }

    /** `b` is no earlier than any safe head up to request `t`, and than the floor. */
    ghost predicate Tops(t: nat, b: nat) {
      floor <= b && forall u: nat, i: nat :: u <= t && SafeHead(u, i).Some? ==> SafeHead(u, i).value <= b
    }

    /** The process may have got to `b` by request `t`. */
    ghost predicate Reached(t: nat, b: nat) {
      forall top: nat :: Tops(t, top) ==> b <= top
    }

    /** No safe head up to request `t` is below an earlier one or the floor. */
    ghost predicate Steady(t: nat) {
      forall u: nat, i: nat :: u <= t && SafeHead(u, i).Some? ==> Tops(u, SafeHead(u, i).value)
    }
  }

  /** Up to request `t`, no live event is dropped and every profile is read at or after any
      block the process may have got to. */
  ghost predicate Calm(env: SyncEnv, o: Outlook, t: nat) {
    && (forall u: nat, n: nat :: u <= t ==> env.handling(u, n).Done? && o.Tops(u, env.handling(u, n).readAt))
    && (forall u: nat, a :: u <= t ==> o.Tops(u, env.readAt(u, a)))
  }

  lemma CalmBefore(env: SyncEnv, o: Outlook, t: nat, later: nat)
    requires Calm(env, o, later) && t <= later
    ensures Calm(env, o, t)
  {
  }

  lemma ReachedLater(o: Outlook, t: nat, later: nat, b: nat)
    requires o.Reached(t, b) && t <= later
    ensures o.Reached(later, b)
  {
    forall top: nat | o.Tops(later, top)
      ensures b <= top
    {
      assert o.Tops(t, top);
    }
  }

  /** `bound` is above everything the process started with, got to or read profiles at up
      to request `t`. */
  ghost predicate Bounds(env: SyncEnv, o: Outlook, start: nat, t: nat, bound: nat) {
    && start <= bound && o.floor < bound
    && (forall u: nat, i: nat :: u <= t && o.SafeHead(u, i).Some? ==> o.SafeHead(u, i).value < bound)
    && (forall u: nat, n: nat :: u <= t && env.handling(u, n).Done? ==> env.handling(u, n).readAt < bound)
    && (forall u: nat, a :: u <= t ==> env.readAt(u, a) < bound)
  }

  /** Calm is nothing special: it is enough that no event is dropped and that profiles are
      read at a latest block that does not fall. Requests and writes may fail at any time
      and endpoints may lag. Every block after the latest is then a bound. */
  lemma SteadyReadsAreCalm(env: SyncEnv, o: Outlook, latest: nat -> nat, start: nat, t: nat)
    requires forall u: nat, v: nat :: u <= v <= t ==> latest(u) <= latest(v)
    requires forall u: nat :: u <= t ==> o.floor <= latest(u)
    requires forall u: nat, i: nat :: u <= t && o.SafeHead(u, i).Some? ==> o.SafeHead(u, i).value <= latest(u)
    requires forall u: nat, n: nat :: u <= t ==> env.handling(u, n) == Done(latest(u))
    requires forall u: nat, a :: u <= t ==> env.readAt(u, a) == latest(u)
    ensures Calm(env, o, t)
    ensures forall bound: nat :: start <= bound && latest(t) < bound ==> Bounds(env, o, start, t, bound)
  {
    forall u: nat | u <= t
      ensures o.Tops(u, latest(u)) && latest(u) <= latest(t)
    {
    }
  }

  /** The horizon is no later than these blocks make it. */
  ghost predicate HorizonOk(env: SyncEnv, o: Outlook, start: nat, t: nat, horizon: nat) {
    forall bound: nat :: Bounds(env, o, start, t, bound) ==> horizon <= bound
  }

  lemma ReachedIsBounded(env: SyncEnv, o: Outlook, start: nat, t: nat, b: nat, bound: nat)
    requires o.Reached(t, b) && Bounds(env, o, start, t, bound)
    ensures b < bound
  {
    assert o.Tops(t, bound - 1);
  }

  /** What was read by request `t` and where the process got to by then keep the horizon bounded. */
  lemma HorizonGrows(env: SyncEnv, o: Outlook, start: nat, since: nat, t: nat, horizon: nat, block: nat, latest: nat)
    requires HorizonOk(env, o, start, since, horizon) && since <= t && o.Reached(t, block)
    requires HorizonOk(env, o, start, t, latest)
    ensures HorizonOk(env, o, start, t, Max(latest, Max(horizon, block + 1)))
  {
    forall bound: nat | Bounds(env, o, start, t, bound)
      ensures Max(latest, Max(horizon, block + 1)) <= bound
    {
      assert Bounds(env, o, start, since, bound);
      ReachedIsBounded(env, o, start, t, block, bound);
    }
  }

  /** How the writes of a reconciliation can change the stored set. */
  ghost predicate WritesEnded(
    env: SyncEnv, before: Members, tick: nat, kept: Members, stored: Members, failed: Option<nat>) {
    match failed
    case None => stored == kept
    case Some(operation) =>
      && env.fails(tick, operation)
      && (stored == kept || (before <= stored && stored - before <= kept))
  }

  /** A block that a reconciliation may take: one the process may have got to, and not
      below some safe head reported since request `since`. */
  ghost predicate Grounded(o: Outlook, since: nat, t: nat, block: nat) {
    && since <= t && o.Reached(t, block)
    && exists u: nat, i: nat :: since <= u <= t && o.SafeHead(u, i).Some? && o.SafeHead(u, i).value <= block
  }

  lemma StandsOn(o: Outlook, since: nat, t0: nat, t: nat, i: nat, next: nat, to: nat)
    requires since <= t0 <= t && (next > 0 ==> o.Reached(t0, next - 1))
    requires o.SafeHead(t, i).Some? && to == Max(o.SafeHead(t, i).value, Max(next - 1, 0))
    ensures Grounded(o, since, t, to)
  {
    if next > 0 {
      ReachedLater(o, t0, t, next - 1);
    }
  }

  lemma GroundedLater(o: Outlook, since: nat, t: nat, later: nat, block: nat)
    requires Grounded(o, since, t, block) && t <= later
    ensures Grounded(o, since, later, block)
  {
    ReachedLater(o, t, later, block);
  }

  /** Such a block is below a block reached before only if a safe head fell. */
  lemma BelowOnlyWhenHeadsFell(o: Outlook, since: nat, t: nat, block: nat, checkpoint: nat)
    requires Grounded(o, since, t, block) && o.Reached(since, checkpoint) && block < checkpoint
    ensures !o.Steady(t)
  {
    var u: nat, i: nat :| since <= u <= t && o.SafeHead(u, i).Some? && o.SafeHead(u, i).value <= block;
    ReachedLater(o, since, u, checkpoint);
    assert !o.Tops(u, o.SafeHead(u, i).value);
  }

  /** No safe head fell up to request `t`, or no write fails. */
  ghost predicate Orderly(env: SyncEnv, o: Outlook, t: nat) {
    o.Steady(t) || forall tick: nat, operation: nat :: !env.fails(tick, operation)
  }

  /** While the environment is calm, a chunk of reached blocks is followed currently. */
  lemma CalmChunkIsCurrent(env: SyncEnv, o: Outlook, t: nat, last: nat, how: seq<Handling>, h: nat)
    requires Calm(env, o, t) && o.Reached(t, last) && ReadsWithin(how, 0, h)
    requires forall i :: 0 <= i < |how| ==> how[i] == env.handling(t, i)
    ensures AllCurrent(how, last, h)
  {
    forall i | 0 <= i < |how|
      ensures how[i].Done? && last <= how[i].readAt
    {
      assert o.Tops(t, env.handling(t, i).readAt);
    }
  }

  /** One more than the latest block a profile was read at. */
  ghost function LatestRead(how: seq<Handling>): nat {
    if how == [] then 0
    else
      var last := how[|how| - 1];
      Max(LatestRead(how[..|how| - 1]), if last.Done? then last.readAt + 1 else 0)
  }

  lemma {:induction false} LatestReadBounds(how: seq<Handling>)
    ensures ReadsWithin(how, 0, LatestRead(how))
    ensures forall bound: nat :: ReadsWithin(how, 0, bound) ==> LatestRead(how) <= bound
  {
    if how != [] {
      var n := |how| - 1;
      LatestReadBounds(how[..n]);
      forall bound: nat | ReadsWithin(how, 0, bound)
        ensures LatestRead(how) <= bound
      {
        assert ReadsWithin(how[..n], 0, bound);
      }
    }
  }

  lemma LatestReadIsBounded(env: SyncEnv, o: Outlook, start: nat, t: nat, how: seq<Handling>)
    requires forall i :: 0 <= i < |how| ==> how[i] == env.handling(t, i)
    ensures ReadsWithin(how, 0, LatestRead(how)) && HorizonOk(env, o, start, t, LatestRead(how))
  {
    LatestReadBounds(how);
    forall bound: nat | Bounds(env, o, start, t, bound)
      ensures LatestRead(how) <= bound
    {
      assert ReadsWithin(how, 0, bound);
    }
  }

  lemma {:induction false} LatestProfile(members: Members, readAt: Address -> nat) returns (bound: nat)
    ensures forall a :: a in members ==> readAt(a) + 1 <= bound
    ensures bound == 0 || exists a :: a in members && readAt(a) + 1 == bound
  {
    bound := 0;
    if a :| a in members {
      var rest := LatestProfile(members - {a}, readAt);
      bound := Max(rest, readAt(a) + 1);
    }
  }

  /** What matters for resuming: the store, the set served and the block it is of, the
      requests made when they last changed, and `Tally.below`. */
  datatype Standing = Standing(store: Store, served: Members, block: Option<nat>, since: nat, below: nat)

  /** Whatever comes after: if the environment is calm, the stored set, the start of the
      replay in progress and the served set can be resumed from, unless an interrupted
      reconciliation had pruned below the checkpoint; which needs a safe head that fell. */
  ghost predicate Secure(blocks: Blocks<Event>, env: SyncEnv, o: Outlook, start: nat, x: Standing) {
    forall t: nat :: x.since <= t ==> SecureAt(blocks, env, o, start, x, t)
  }

  ghost predicate SecureAt(blocks: Blocks<Event>, env: SyncEnv, o: Outlook, start: nat, x: Standing, t: nat) {
    && (Calm(env, o, t) && x.below == 0 ==> StandsWell(blocks, env.deploy, x))
    && (Orderly(env, o, t) ==> x.below == 0)
    && HorizonOk(env, o, start, t, x.store.horizon)
    && (x.store.next.Some? ==> x.store.next.value > 0 && o.Reached(t, x.store.next.value - 1))
  }

  ghost predicate StandsWell(blocks: Blocks<Event>, deploy: nat, x: Standing) {
    match x.block
    case None => StoreGood(blocks, deploy, x.store)
    case Some(block) =>
      StoreGood(blocks, deploy, x.store) && Good(blocks, deploy, x.served, block + 1, x.store.horizon)
  }

  lemma AbandonStaysSecure(blocks: Blocks<Event>, env: SyncEnv, o: Outlook, start: nat, x: Standing)
    requires Secure(blocks, env, o, start, x)
    ensures Secure(blocks, env, o, start, x.(store := x.store.(plan := None)))
  {
    forall t: nat | x.since <= t
      ensures SecureAt(blocks, env, o, start, x.(store := x.store.(plan := None)), t)
    {
      assert SecureAt(blocks, env, o, start, x, t);
    }
  }

  lemma PlanStaysSecure(
    blocks: Blocks<Event>, env: SyncEnv, o: Outlook, start: nat, x: Standing, resume: bool)
    requires Secure(blocks, env, o, start, x) && (resume ==> x.store.Resumes(env.deploy))
    ensures Secure(blocks, env, o, start, x.(store := x.store.(plan := Some(StartOf(env.deploy, x.store, resume)))))
  {
    var y := x.(store := x.store.(plan := Some(StartOf(env.deploy, x.store, resume))));
    forall t: nat | x.since <= t
      ensures SecureAt(blocks, env, o, start, y, t)
    {
      assert SecureAt(blocks, env, o, start, x, t);
      if Calm(env, o, t) && x.below == 0 {
        PlanIsGood(blocks, env.deploy, x.store, resume);
      }
    }
  }

  /** What a reconciliation by request `t` makes of it. */
  function AfterSync(x: Standing, t: nat, block: nat, h: nat, stored: Members, done: bool): Standing {
    if done then Standing(AfterReconcile(x.store, block, h, stored, true), stored, Some(block), t, x.below)
    else Standing(AfterReconcile(x.store, block, h, stored, false), x.served, x.block, t,
                  x.below + if PrunesBelow(x.store, block, stored) then 1 else 0)
  }

  predicate PrunesBelow(s: Store, block: nat, stored: Members) {
    s.next.Some? && block + 1 < s.next.value && !(s.members <= stored)
  }

  lemma SyncStaysSecure(
    blocks: Blocks<Event>, env: SyncEnv, o: Outlook, start: nat, x: Standing, t: nat, tick: nat,
    members: Members, block: nat, stored: Members, failed: Option<nat>) returns (h: nat)
    requires Secure(blocks, env, o, start, x) && Grounded(o, x.since, t, block)
    requires x.store.plan.Some? && x.store.plan.value.from <= block + 1
    requires members == Handed(blocks, x.store.plan.value, block + 1)
    requires WritesEnded(env, x.store.members, tick,
                         Surviving(blocks, env.deploy, members, ProfileReads(env, t)), stored, failed)
    ensures Secure(blocks, env, o, start, AfterSync(x, t, block, h, stored, failed.None?))
  {
    assert SecureAt(blocks, env, o, start, x, x.since) && SecureAt(blocks, env, o, start, x, t);
    h := SettledHorizon(env, o, start, t, x.store.horizon, members, block);
    var y := AfterSync(x, t, block, h, stored, failed.None?);
    forall u: nat | t <= u
      ensures SecureAt(blocks, env, o, start, y, u)
    {
      assert SecureAt(blocks, env, o, start, x, u);
      ReachedLater(o, t, u, block);
      HorizonGrows(env, o, start, t, u, h, block, 0);
      if failed.Some? && PrunesBelow(x.store, block, stored) {
        BelowOnlyWhenHeadsFell(o, x.since, t, block, x.store.next.value - 1);
      } else if Calm(env, o, u) && x.below == 0 {
        CalmBefore(env, o, t, u);
        CalmSyncStandsWell(blocks, env, o, x, t, tick, members, block, h, stored, failed);
      }
    }
  }

  /** One more than the latest of the block, the blocks read until now and those whose
      profiles the reconciliation reads. */
  lemma SettledHorizon(
    env: SyncEnv, o: Outlook, start: nat, t: nat, horizon: nat, members: Members, block: nat) returns (h: nat)
    requires HorizonOk(env, o, start, t, horizon) && o.Reached(t, block)
    ensures HorizonOk(env, o, start, t, h) && horizon <= h && block + 1 <= h
    ensures forall a :: a in members ==> ProfileReads(env, t)(a) + 1 <= h
  {
    var latest := LatestProfile(members, ProfileReads(env, t));
    assert HorizonOk(env, o, start, t, latest);
    HorizonGrows(env, o, start, t, t, horizon, block, latest);
    h := Max(latest, Max(horizon, block + 1));
  }

  /** While the environment is calm, a reconciliation keeps what is stored good, whether it
      is done or fails at any write, but for pruning below the checkpoint. */
  lemma CalmSyncStandsWell(
    blocks: Blocks<Event>, env: SyncEnv, o: Outlook, x: Standing, t: nat, tick: nat,
    members: Members, block: nat, h: nat, stored: Members, failed: Option<nat>)
    requires StandsWell(blocks, env.deploy, x) && Calm(env, o, t) && o.Reached(t, block)
    requires x.store.next.Some? ==> x.store.next.value > 0 && o.Reached(t, x.store.next.value - 1)
    requires x.store.plan.Some? && x.store.plan.value.from <= block + 1
    requires members == Handed(blocks, x.store.plan.value, block + 1)
    requires WritesEnded(env, x.store.members, tick,
                         Surviving(blocks, env.deploy, members, ProfileReads(env, t)), stored, failed)
    requires x.store.horizon <= h && block + 1 <= h
    requires forall a :: a in members ==> ProfileReads(env, t)(a) + 1 <= h
    requires failed.None? || !PrunesBelow(x.store, block, stored)
    ensures StandsWell(blocks, env.deploy, AfterSync(x, t, block, h, stored, failed.None?))
  {
    var readAt := ProfileReads(env, t);
    forall a | a in members
      ensures block <= readAt(a) && (x.store.next.Some? ==> x.store.next.value <= readAt(a) + 1)
    {
      assert o.Tops(t, env.readAt(t, a));
    }
    ReconcileIsSettled(blocks, env.deploy, x.store, block, readAt, h, stored, failed.None?);
    if failed.Some? && x.block.Some? {
      GoodExtends(blocks, env.deploy, x.served, x.block.value + 1, x.store.horizon, h);
    }
  }

  /** What following a chunk to its end by request `t` makes of it. */
  function AfterFollowing(
    blocks: Blocks<Event>, deploy: nat, x: Standing, t: nat, last: nat, how: seq<Handling>, saved: bool, h: nat)
    : Standing
    requires |how| == |Logs(blocks, x.store.followed, last + 1)|
  {
    Standing(AfterChunk(blocks, deploy, x.store, last, how, saved, h),
             LiveReplay(blocks, deploy, x.served, Logs(blocks, x.store.followed, last + 1), how),
             Some(last), t, x.below)
  }

  lemma FollowingStaysSecure(
    blocks: Blocks<Event>, env: SyncEnv, o: Outlook, start: nat, x: Standing, t: nat, last: nat,
    how: seq<Handling>, saved: bool) returns (h: nat)
    requires Secure(blocks, env, o, start, x) && x.store.Resumes(env.deploy) && x.store.plan.None?
    requires x.block.Some? && x.block.value + 1 == x.store.followed <= last + 1
    requires x.since <= t && o.Reached(t, last)
    requires |how| == |Logs(blocks, x.store.followed, last + 1)|
    requires forall i :: 0 <= i < |how| ==> how[i] == env.handling(t, i)
    ensures Secure(blocks, env, o, start, AfterFollowing(blocks, env.deploy, x, t, last, how, saved, h))
  {
    var s := x.store;
    h := Max(LatestRead(how), Max(s.horizon, last + 1));
    LatestReadIsBounded(env, o, start, t, how);
    var y := AfterFollowing(blocks, env.deploy, x, t, last, how, saved, h);
    assert SecureAt(blocks, env, o, start, x, t);
    HorizonGrows(env, o, start, t, t, s.horizon, last, LatestRead(how));
    forall u: nat | t <= u
      ensures SecureAt(blocks, env, o, start, y, u)
    {
      assert SecureAt(blocks, env, o, start, x, u);
      ReachedLater(o, t, u, last);
      HorizonGrows(env, o, start, t, u, h, last, 0);
      if Calm(env, o, u) && x.below == 0 {
        CalmBefore(env, o, t, u);
        CalmChunkIsCurrent(env, o, t, last, how, h);
        FollowedStandsWell(blocks, env.deploy, x, t, last, how, saved, h);
      }
    }
  }

  lemma FollowedStandsWell(
    blocks: Blocks<Event>, deploy: nat, x: Standing, t: nat, last: nat, how: seq<Handling>, saved: bool, h: nat)
    requires StandsWell(blocks, deploy, x) && x.store.Resumes(deploy) && x.block.Some?
    requires x.block.value + 1 == x.store.followed <= last + 1 <= h && x.store.horizon <= h
    requires |how| == |Logs(blocks, x.store.followed, last + 1)| && AllCurrent(how, last, h)
    ensures StandsWell(blocks, deploy, AfterFollowing(blocks, deploy, x, t, last, how, saved, h))
  {
    ChunkIsSettled(blocks, deploy, x.store, last, how, saved, h);
    ServedIsSettled(blocks, deploy, x.store, x.served, last, how, h);
  }

  /** A process that starts from what is stored, resuming or not, ends in the full replay;
      and the set served lacks nothing but the events after its block: for every block
      above those started with, got to or read up to request `t`. */
  ghost predicate CanResume(blocks: Blocks<Event>, env: SyncEnv, o: Outlook, start: nat, t: nat, x: Standing) {
    forall hi: nat :: Bounds(env, o, start, t, hi) ==>
      && (forall resume :: Handed(blocks, StartOf(env.deploy, x.store, resume), hi) == Full(blocks, env.deploy, hi))
      && (x.block.Some? ==>
            Replay(x.served, Logs(blocks, x.block.value + 1, hi)) == Full(blocks, env.deploy, hi))
  }

  lemma SecureMeansResumable(blocks: Blocks<Event>, env: SyncEnv, o: Outlook, start: nat, x: Standing, t: nat)
    requires Secure(blocks, env, o, start, x) && x.since <= t
    ensures Calm(env, o, t) && x.below == 0 ==> CanResume(blocks, env, o, start, t, x)
    ensures Orderly(env, o, t) ==> x.below == 0
  {
    assert SecureAt(blocks, env, o, start, x, t);
    if Calm(env, o, t) && x.below == 0 {
      forall hi: nat | Bounds(env, o, start, t, hi)
        ensures forall resume ::
                  Handed(blocks, StartOf(env.deploy, x.store, resume), hi) == Full(blocks, env.deploy, hi)
        ensures x.block.Some? ==>
                  Replay(x.served, Logs(blocks, x.block.value + 1, hi)) == Full(blocks, env.deploy, hi)
      {
        forall resume
          ensures Handed(blocks, StartOf(env.deploy, x.store, resume), hi) == Full(blocks, env.deploy, hi)
        {
          GoodStoreResumes(blocks, env.deploy, x.store, resume, hi);
        }
        if x.block.Some? {
          GoodExtends(blocks, env.deploy, x.served, x.block.value + 1, x.store.horizon, hi);
          ResumeIsFullReplay(blocks, env.deploy, x.served, x.block.value + 1, hi);
        }
      }
    }
  }

  // ---- The sync ----------------------------------------------------------------------------

  datatype Verdict = Verdict(block: nat, reading: Reading, passed: bool)
  datatype RoundResult = Found(verdict: Verdict) | ReadFailed | Stopped
  datatype Outcome = Synced(block: nat) | RpcFailed | Mismatch
  datatype PlanResult = Finished(outcome: Outcome) | FallBack

  /** What a plan's result does to the tally, besides plans made. */
  ghost predicate Tallied(before: Tally, after: Tally, r: PlanResult) {
    match r
    case Finished(Synced(_)) =>
      after == before.(plans := after.plans, mismatches := 0, synced := before.synced + 1, rejected := false)
    case Finished(Mismatch) =>
      after == before.(plans := after.plans, mismatches := before.mismatches + 1, replays := true,
                       rejected := after.rejected)
    case Finished(RpcFailed) =>
      after == before.(plans := after.plans, below := after.below, rejected := after.rejected)
    case FallBack => after == before.(plans := after.plans, rejected := true)
  }

  /** A full replay may be forced, and need not be. */
  ghost predicate MayForce(t: Tally, force: bool) {
    (force ==> t.replays || t.rejected) && (!force ==> !t.replays)
  }

  ghost predicate MayAccept(t: Tally, acceptUnverified: bool) {
    acceptUnverified <==> t.mismatches >= FULL_REPLAY_MISMATCH_TOLERANCE
  }

  /** At most `most` plans were made, the first of them, when there was no replay in
      progress, being `first`. */
  ghost predicate PlansMade(before: seq<Entry>, after: seq<Entry>, most: nat, anew: bool, first: Entry) {
    && before <= after && |after| <= |before| + most
    && (anew && |after| > |before| ==> after[|before|] == first)
  }

  datatype LoopExit = Shutdown | Resync

  /** How far a poll got, whether any event came, and whether a fetch failed. */
  datatype Polled = Polled(last: nat, changed: bool, failed: bool)

  predicate ShouldForceResync(mismatches: nat, now: nat, resyncNotBefore: nat) {
    mismatches >= MISMATCHES_BEFORE_RESYNC && now >= resyncNotBefore
  }

  function NextOf(checkpoint: Option<nat>): Option<nat> {
    if checkpoint.Some? then Some(checkpoint.value + 1) else None
  }

  /** What a process finds when it starts. */
  function Left(stored: Members, checkpoint: Option<nat>, horizon: nat): Store {
    Store(stored, NextOf(checkpoint), NextOf(checkpoint).GetOr(0), None, horizon)
  }

  class RegistrySync {
    const rpc: ChainConfig<Event>
    const env: SyncEnv
    var tick: nat
    // Postgres
    var checkpoint: Option<nat>
    var stored: Members
    // memory
    var served: Members
    var verified: Option<bool>
    var lastBlock: Option<nat>
    var progress: ReplayProgress?
    ghost var history: History
    ghost var tally: Tally
    /** The block the live loop has got to, and one more than the latest block any profile
        was read at. */
    ghost var followed: nat
    ghost var horizon: nat
    /** Requests made when the store last changed, and `Tally.below`. */
    ghost var since: nat
    ghost var below: nat
    /** What the process started with: the block it knew of and the horizon. */
    ghost const floor: nat
    ghost const start: nat

    /** A process starting on what an earlier one left, which read profiles below `horizon`. */
    constructor (rpc: ChainConfig<Event>, env: SyncEnv, checkpoint: Option<nat>, stored: Members, ghost horizon: nat)
      requires StoreGood(rpc.transport.world.blocks, env.deploy, Left(stored, checkpoint, horizon))
      ensures this.rpc == rpc && this.env == env && this.checkpoint == checkpoint && this.stored == stored
      ensures tick == 0 && progress == null && served == {} && verified == None && lastBlock == None
      ensures history == [Started(checkpoint, stored)]
      ensures floor == Max(checkpoint.GetOr(0), env.deploy - 1) && start == horizon && Resumable()
      ensures since == 0 && (rpc.Valid() && Sound() ==> Valid())
    {
      this.rpc, this.env, this.checkpoint, this.stored := rpc, env, checkpoint, stored;
      tick, progress, served, verified, lastBlock := 0, null, {}, None, None;
      history, tally := [Started(checkpoint, stored)], Count([]);
      followed, this.horizon, start, since, below := NextOf(checkpoint).GetOr(0), horizon, horizon, 0, 0;
      floor := Max(checkpoint.GetOr(0), env.deploy - 1);
      new;
      StartIsTold(Blocks(), env, Seen(), history[0]);
      assert history[..|history|] == history;
    }

    /** What the endpoints say over time. */
    ghost function Seen(): Outlook {
      Outlook(rpc.transport.world, rpc.confirmations, floor)
    }

    /** What matters for resuming, as it stands. */
    ghost function Now(): Store
      reads this`stored, this`checkpoint, this`followed, this`progress, this`horizon
    {
      Store(stored, NextOf(checkpoint), followed,
            if progress == null then None else Some(Replaying(progress.base, progress.plan.from)), horizon)
    }

    ghost function AsItStands(): Standing
      reads this`stored, this`checkpoint, this`followed, this`progress, this`horizon, this`since, this`below,
            this`served, this`lastBlock
    {
      Standing.Standing(Now(), served, lastBlock, since, below)
    }

    /** See `Secure`. */
    ghost predicate Resumable()
      reads this`stored, this`checkpoint, this`followed, this`progress, this`horizon, this`since, this`below,
            this`served, this`lastBlock
    {
      Secure(Blocks(), env, Seen(), start, AsItStands())
    }

    /** No replay is in progress and the live loop has followed every block up to `last`. */
    ghost predicate LiveAt(last: nat)
      reads this`checkpoint, this`followed, this`lastBlock, this`progress
    {
      && progress == null && checkpoint.Some? && env.deploy <= checkpoint.value + 1 && env.deploy <= last + 1
      && followed == last + 1 && lastBlock.Some? && lastBlock.value == last
    }

    ghost function Blocks(): Blocks<Event> {
      rpc.transport.world.blocks
    }

    /** Assumptions on the network and the clock. */
    ghost predicate Sound() {
      && HeadsAreAtomic(rpc.transport.world) && LagIsBounded(rpc.transport.world)
      && (forall t, u :: t <= u ==> env.clock(t) <= env.clock(u))
    }

    /** The network and the database work and the registry tells the truth. */
    ghost predicate Smooth() {
      && Healthy(rpc.transport.world)
      && (forall t, op :: !env.fails(t, op))
      && (forall t, attempt, block :: env.reading(t, attempt, block) == Some(Truth(Blocks(), env, block)))
    }

    /** The live loop has not just drifted. */
    ghost predicate Valid()
      reads this, rpc, rpc.transport, rpc.chunk, progress
    {
      Coherent() && !tally.drifted
    }

    /** Both of these, stated of whatever equals the history so that they are only looked into
        where needed. */
    ghost predicate Ready()
      reads this, rpc, rpc.transport, rpc.chunk, progress
    {
      forall h: History :: h == history ==> ReadyOn(h)
    }

    ghost predicate ReadyOn(h: History)
      reads this, rpc, rpc.transport, rpc.chunk, progress
    {
      h == history && Valid() && Resumable()
    }

    /** What is remembered, recorded and being replayed fits together. Stated of whatever equals
        the history so that it is only looked into where needed. */
    ghost predicate Coherent()
      reads this, rpc, rpc.transport, rpc.chunk, progress
    {
      forall h: History :: h == history ==> CoherentOn(h)
    }

    ghost predicate CoherentOn(h: History)
      reads this, rpc, rpc.transport, rpc.chunk, progress
    {
      && h == history && rpc.Valid() && Sound() && history != [] && Tells(tally, Showing())
      && since <= rpc.transport.requests && tally.polled.lastRequest <= rpc.transport.requests
      && below == tally.below && env.deploy <= floor + 1
      && (progress != null ==>
            && progress.Valid(Blocks()) && env.deploy <= progress.plan.from
            && (progress.plan.FullPlan? ==> progress.plan.from == env.deploy)
            && LastPlanIs(tally, progress.plan, progress.base) && ReachedBefore(progress.nextBlock))
    }

    /** The process may have got to the block before `next`. */
    ghost predicate ReachedBefore(next: nat)
      reads rpc.transport`requests
    {
      next > 0 ==> Seen().Reached(rpc.transport.requests, next - 1)
    }

    /** What the process shows and stores. */
    function Showing(): Shown
      reads this`verified, this`served, this`lastBlock, this`checkpoint, this`stored
    {
      Shown(verified, served, lastBlock, checkpoint, stored)
    }

    /** The history is disciplined, and adds up to this tally and to what is shown. Stated
        of its prefix of full length, so that it is only looked into where needed. */
    ghost predicate Tells(t: Tally, x: Shown)
      reads this`history
    {
      forall n: nat :: n == |history| ==> Told(Blocks(), env, Seen(), history[..n], t, x)
    }

    ghost method Record(e: Entry, x: Shown)
      requires Tells(tally, x) && EntryOk(Blocks(), env, e) && !e.Started? && history != []
      requires Fits(env.deploy, tally, x, e) && PollOk(Seen(), e)
      modifies this`history, this`tally
      ensures history == old(history) + [e] && Tells(tally, x.Add(Blocks(), env.deploy, e))
      ensures tally == old(tally).Add(e) && LastEntry(history) == Some(e)
    {
      assert history[..|history|] == history;
      Append(Blocks(), env, history, e);
      history, tally := history + [e], tally.Add(e);
      assert history[..|history|] == history;
    }

    /** The registry's logs from `from` on, for as many blocks up to `target` as one chunk covers. */
    method FetchLogsChunk(from: nat, target: nat) returns (r: Option<Fetched<Event>>)
      requires rpc.Valid() && from <= target && Trusted(rpc.transport.world, rpc.transport.requests, target)
      modifies rpc.transport, rpc.chunk
      ensures rpc.Valid() && rpc.transport.requests > old(rpc.transport.requests)
      ensures r.Some? ==> from <= r.value.end <= target && r.value.logs == Logs(Blocks(), from, r.value.end + 1)
      ensures Healthy(rpc.transport.world) && HeadsReach(rpc.transport.world, old(rpc.transport.requests), target) ==>
                r.Some?
    {
      HealthySucceeds(rpc.transport.world, rpc.transport.requests, from, target);
      var chunk, _ := rpc.FetchFilteredLogsChunk(from, target, U64_MAX + target, AllCaughtUp(rpc.transport.world), 0);
      return if chunk.Ok? then Some(chunk.value) else None;
    }

    /** Fetch and replay the next chunk. */
    method ScanChunk(p: ReplayProgress, target: nat) returns (ok: bool)
      requires rpc.Valid() && p.Valid(Blocks()) && p.nextBlock <= target
      requires Trusted(rpc.transport.world, rpc.transport.requests, target)
      modifies p`members, p`nextBlock, rpc.transport, rpc.chunk
      ensures rpc.Valid() && p.Valid(Blocks()) && rpc.transport.requests > old(rpc.transport.requests)
      ensures !ok ==> p.nextBlock == old(p.nextBlock)
      ensures ok ==> old(p.nextBlock) < p.nextBlock <= target + 1
      ensures Healthy(rpc.transport.world) && HeadsReach(rpc.transport.world, old(rpc.transport.requests), target) ==>
                ok
    {
      var chunk := FetchLogsChunk(p.nextBlock, target);
      ok := chunk.Some?;
      if ok {
        p.ReplayOn(Blocks(), chunk.value.logs, chunk.value.end);
      }
    }

    /** Replay every block up to `target`; after a failure the progress made is kept. */
    method ScanMembership(p: ReplayProgress, target: nat) returns (ok: bool)
      requires rpc.Valid() && p.Valid(Blocks())
      requires p.nextBlock <= target ==> Trusted(rpc.transport.world, rpc.transport.requests, target)
      modifies p`members, p`nextBlock, rpc.transport, rpc.chunk
      ensures rpc.Valid() && p.Valid(Blocks())
      ensures old(p.nextBlock) <= p.nextBlock <= Max(old(p.nextBlock), target + 1)
      ensures ok ==> p.nextBlock == Max(old(p.nextBlock), target + 1)
      ensures rpc.transport.requests >= old(rpc.transport.requests)
      ensures Healthy(rpc.transport.world)
              && (old(p.nextBlock) <= target ==> HeadsReach(rpc.transport.world, old(rpc.transport.requests), target))
              ==> ok
    {
      ghost var w := rpc.transport.world;
      ghost var healthy := Healthy(w) && (p.nextBlock <= target ==> HeadsReach(w, rpc.transport.requests, target));
      while p.nextBlock <= target
        invariant rpc.Valid() && p.Valid(Blocks()) && rpc.transport.requests >= old(rpc.transport.requests)
        invariant old(p.nextBlock) <= p.nextBlock <= Max(old(p.nextBlock), target + 1)
        invariant p.nextBlock <= target ==> Trusted(rpc.transport.world, rpc.transport.requests, target)
        invariant healthy && p.nextBlock <= target ==> HeadsReach(rpc.transport.world, rpc.transport.requests, target)
        decreases target + 1 - p.nextBlock
      {
        ghost var t0 := rpc.transport.requests;
        var scanned := ScanChunk(p, target);
        if !scanned {
          return false;
        }
        ReachesLater(rpc.transport.world, t0, rpc.transport.requests, target);
      }
      return true;
    }

    /** One round: replay to a fresh head, then read and compare the registry. */
    method CheckRound(p: ReplayProgress) returns (r: RoundResult)
      requires Valid() && p == progress
      modifies this`tick, this`history, this`tally, p`members, p`nextBlock, rpc.transport, rpc.chunk
      ensures Valid() && tick == old(tick) + 1
      ensures tally == old(tally) && |history| <= |old(history)| + 1
      ensures r.Found? ==> Supports(p, r.verdict)
      ensures Healthy(rpc.transport.world) ==> !r.Stopped?
      ensures r.ReadFailed? ==> Unreadable(env, tick) || tick >= env.shutdownAt
      ensures Smooth() ==> r.Found? && r.verdict.reading == Truth(Blocks(), env, r.verdict.block)
    {
      assert CoherentOn(history);
      r := Stopped;
      var target := ScanToHead(p);
      assert CoherentOn(history);
      if target.Some? {
        Record(Round(p.plan, p.base, target.value, p.members), Showing());
        r := CompareAt(p, target.value);
      }
    }

    /** Replay to a fresh head, or to where the replay stands if the head is below. */
    method ScanToHead(p: ReplayProgress) returns (target: Option<nat>)
      requires Valid() && p == progress
      modifies this`tick, p`members, p`nextBlock, rpc.transport, rpc.chunk
      ensures Valid() && tick == old(tick) + 1
      ensures target.Some? ==> Folded(Blocks(), p.plan, p.base, target.value, p.members)
                               && Grounded(Seen(), since, rpc.transport.requests, target.value)
      ensures Healthy(rpc.transport.world) ==> target.Some?
    {
      assert CoherentOn(history);
      tick := tick + 1;
      target := None;
      ghost var t0, next := rpc.transport.requests, p.nextBlock;
      var head := rpc.SafeHead();
      if next > 0 {
        ReachedLater(Seen(), t0, rpc.transport.requests, next - 1);
      }
      if head.Ok? {
        var to := Max(head.value, Max(p.nextBlock - 1, 0));
        StandsOn(Seen(), since, t0, rpc.transport.requests, rpc.transport.preferred, next, to);
        target := ScanTo(p, to);
      }
    }

    /** Replay to `to`; after a failure the progress made is kept. */
    method ScanTo(p: ReplayProgress, to: nat) returns (target: Option<nat>)
      requires Valid() && p == progress && p.nextBlock <= to + 1
      requires p.nextBlock <= to ==> Trusted(rpc.transport.world, rpc.transport.requests, to)
      requires Grounded(Seen(), since, rpc.transport.requests, to)
      modifies p`members, p`nextBlock, rpc.transport, rpc.chunk
      ensures Valid()
      ensures target.Some? ==> target.value == to && Folded(Blocks(), p.plan, p.base, to, p.members)
                               && Grounded(Seen(), since, rpc.transport.requests, to)
      ensures Healthy(rpc.transport.world)
              && (old(p.nextBlock) <= to ==> HeadsReach(rpc.transport.world, old(rpc.transport.requests), to))
              ==> target.Some?
    {
      assert CoherentOn(history);
      ghost var t0 := rpc.transport.requests;
      var scanned := ScanMembership(p, to);
      GroundedLater(Seen(), since, t0, rpc.transport.requests, to);
      target := if scanned then Some(to) else None;
    }

    /** Read the registry at `target`, retrying at the same block, and compare. */
    method CompareAt(p: ReplayProgress, target: nat) returns (r: RoundResult)
      requires Folded(Blocks(), p.plan, p.base, target, p.members)
      requires Grounded(Seen(), since, rpc.transport.requests, target)
      ensures r.Found? ==> Supports(p, r.verdict)
      ensures !r.Stopped? && (r.ReadFailed? ==> Unreadable(env, tick) || tick >= env.shutdownAt)
      ensures Smooth() ==> r.Found? && r.verdict.reading == Truth(Blocks(), env, r.verdict.block)
    {
      var t := tick;
      var read: nat -> Result<Reading, ()> :=
        (k: nat) => match env.reading(t, k, target) case Some(found) => Ok(found) case None => Err(());
      var check, _, _ := Retry.RetryRpcAttempts(SAME_BLOCK_VERIFY_ATTEMPTS, read, env.entropy,
                                                    _ => t >= env.shutdownAt);
      if check.None? || check.value.Err? {
        if tick < env.shutdownAt {
          forall k | 0 <= k < SAME_BLOCK_VERIFY_ATTEMPTS
            ensures env.reading(tick, k, target).None?
          {
            assert read(k).Err?;
          }
          assert UnreadableAt(env, tick, target);
        }
        return ReadFailed;
      }
      var reading := check.value.value;
      assert WasRead(env, target, reading);
      var passed := VerifyMembership(p.members, reading.count, reading.fingerprint, env.hash);
      return Found(Verdict(target, reading, passed));
    }

    /** The verdict is about the plan's set folded to the verdict's block. */
    ghost predicate Supports(p: ReplayProgress, v: Verdict)
      reads p, this`since, rpc.transport`requests
    {
      forall w: Verdict :: w == v ==> Supported(p, w)
    }

    ghost predicate Supported(p: ReplayProgress, v: Verdict)
      reads p, this`since, rpc.transport`requests
    {
      && Folded(Blocks(), p.plan, p.base, v.block, p.members)
      && Grounded(Seen(), since, rpc.transport.requests, v.block)
      && WasRead(env, v.block, v.reading) && (v.passed <==> Agrees(env, p.members, v.reading))
    }

    /** Check the replayed members against the registry, each round at a fresh head. */
    method CheckMembers(p: ReplayProgress) returns (r: Option<Verdict>)
      requires Valid() && p == progress
      modifies this`tick, this`history, this`tally, p`members, p`nextBlock, rpc.transport, rpc.chunk
      ensures Valid() && tick >= old(tick)
      ensures tally == old(tally) && |history| <= |old(history)| + VERIFY_ATTEMPTS
      ensures r.Some? ==> Supports(p, r.value)
      // It gives up only after five rounds in each of which no attempt could read the registry.
      ensures r.None? && Healthy(rpc.transport.world) && tick < env.shutdownAt ==>
                tick == old(tick) + VERIFY_ATTEMPTS && forall k: nat :: old(tick) < k <= tick ==> Unreadable(env, k)
      ensures Smooth() ==> r.Some? && r.value.reading == Truth(Blocks(), env, r.value.block)
    {
      assert CoherentOn(history);
      var attempt := 0;
      while true
        invariant Valid() && p == progress && tick >= old(tick) && attempt < VERIFY_ATTEMPTS
        invariant tick == old(tick) + attempt
        invariant Healthy(rpc.transport.world) ==>
                    tick >= env.shutdownAt || forall k: nat :: old(tick) < k <= tick ==> Unreadable(env, k)
        invariant tally == old(tally) && |history| <= |old(history)| + attempt
        decreases VERIFY_ATTEMPTS - attempt
      {
        var round := CheckRound(p);
        if round.Found? {
          return Some(round.verdict);
        }
        attempt := attempt + 1;
        if round.Stopped? || attempt >= VERIFY_ATTEMPTS || tick >= env.shutdownAt {
          return None;
        }
      }
    }

    /** The plan to make next. */
    ghost function NextPlan(force: bool): Entry
      reads this`checkpoint, this`stored
    {
      PlanFor(env.deploy, checkpoint, stored, force)
    }

    /** Start the next plan from the checkpoint, or from the deployment block. */
    method NewProgress(forceFull: bool) returns (ok: bool)
      requires Valid() && Resumable() && progress == null && MayForce(tally, forceFull)
      modifies this`progress, this`history, this`tally, this`tick
      ensures Valid() && Resumable() && tick >= old(tick)
      ensures !ok ==> progress == null && history == old(history) && tally == old(tally)
      ensures !ok ==> env.fails(tick, 0) || env.fails(tick, 1)
      ensures Smooth() ==> ok
      ensures ok ==> progress != null && fresh(progress) && progress.nextBlock == progress.plan.from
                     && Planned(progress.plan, progress.base) == old(NextPlan(forceFull))
                     && history == old(history) + [old(NextPlan(forceFull))]
                     && tally == old(tally).Add(old(NextPlan(forceFull)))
    {
      assert CoherentOn(history);
      tick := tick + 1;
      var plan := PlanSync(checkpoint, env.deploy, forceFull);
      ok := !env.fails(tick, 0) && !(plan.ResumePlan? && env.fails(tick, 1));
      if ok {
        var members := if plan.FullPlan? then {} else stored;
        StartReplay(plan, members);
      }
    }

    /** Keep the progress made, or start the next plan. */
    method EnsureProgress(forceFull: bool) returns (ok: bool)
      requires Valid() && Resumable() && (progress == null ==> MayForce(tally, forceFull))
      modifies this`progress, this`history, this`tally, this`tick
      ensures Valid() && Resumable() && tick >= old(tick)
      ensures Smooth() ==> ok
      ensures tally == old(tally).(plans := tally.plans)
      ensures !ok ==> tally.plans == old(tally).plans
      ensures ok ==> Replanned(old(tally).plans, old(progress) == null, old(NextPlan(forceFull)))
      ensures ok ==> progress != null && (progress == old(progress) || fresh(progress))
      ensures ok && old(progress) == null && forceFull ==> progress.plan.FullPlan?
      ensures !ok ==> progress == null
    {
      ok := true;
      if progress == null {
        ok := NewProgress(forceFull);
      }
    }

    method StartReplay(plan: SyncPlan, members: Members)
      requires Valid() && Resumable() && progress == null
      requires PlanFits(env.deploy, tally, checkpoint, stored, plan, members)
      modifies this`progress, this`history, this`tally
      ensures Valid() && Resumable()
      ensures progress != null && fresh(progress) && progress.nextBlock == progress.plan.from
      ensures progress.plan == plan && progress.base == members
      ensures history == old(history) + [Planned(plan, members)]
      ensures tally == old(tally).Add(Planned(plan, members))
    {
      assert CoherentOn(history);
      PlanStaysSecure(Blocks(), env, Seen(), start, AsItStands(), plan.ResumePlan?);
      assert SecureAt(Blocks(), env, Seen(), start, AsItStands(), rpc.transport.requests);
      Record(Planned(plan, members), Showing());
      progress := new ReplayProgress(plan, members);
    }

    /** The live loop drifted: order a full replay. */
    method ForceReplay()
      requires Coherent() && Resumable() && Fits(env.deploy, tally, Showing(), Forced(env.clock(tick)))
      modifies this`progress, this`history, this`tally
      ensures Valid() && Resumable() && progress == null
      ensures tally == old(tally).Add(Forced(env.clock(tick)))
    {
      assert CoherentOn(history);
      Record(Forced(env.clock(tick)), Showing());
      Abandon();
    }

    /** Give up the replay in progress. */
    method Abandon()
      requires Valid() && Resumable()
      modifies this`progress
      ensures Valid() && Resumable() && progress == null
    {
      assert CoherentOn(history);
      AbandonStaysSecure(Blocks(), env, Seen(), start, AsItStands());
      progress := null;
    }

    /** The members whose profile still exists when reconciliation reads it. */
    function Kept(t: nat, members: Members): Members {
      Surviving(rpc.transport.world.blocks, env.deploy, members, ProfileReads(env, t))
    }

    /** The entry for a reconciliation that started with `before` stored and failed. */
    ghost function Interruption(p: ReplayProgress, block: nat, before: Members): Entry
      reads this`checkpoint, this`stored, p`members, rpc.transport`requests
    {
      Interrupted(p.plan, p.base, block, p.members, Kept(rpc.transport.requests, p.members), checkpoint, before, stored)
    }

    /** Make Postgres and memory match the members at `block`; which operation failed, if
        one did. A failure leaves the checkpoint and what is served alone. */
    method Reconcile(p: ReplayProgress, block: nat, isVerified: bool) returns (failed: Option<nat>)
      requires Resumable() && p == progress && Folded(Blocks(), p.plan, p.base, block, p.members)
      requires env.deploy <= p.plan.from && Grounded(Seen(), since, rpc.transport.requests, block)
      modifies this`tick, this`stored, this`checkpoint, this`served, this`verified, this`lastBlock, this`progress,
               this`followed, this`horizon, this`since, this`below
      ensures Resumable() && tick == old(tick) + 1 && since == rpc.transport.requests
      ensures below == old(below) + if failed.Some? && PrunesBelow(old(Now()), block, stored) then 1 else 0
      ensures WritesEnded(env, old(stored), tick, Kept(rpc.transport.requests, p.members), stored, failed)
      ensures failed.None? ==>
                && served == stored && checkpoint == Some(block) && verified == Some(isVerified)
                && lastBlock == Some(block) && LiveAt(block)
      ensures failed.Some? ==>
                && progress == p && checkpoint == old(checkpoint) && served == old(served)
                && verified == old(verified) && lastBlock == old(lastBlock)
    {
      ghost var x := AsItStands();
      failed := WriteMembers(p.members, block, isVerified);
      if failed.None? {
        progress := null;
      }
      SettleSync(x, p.members, block, failed);
    }

    /** Account for a reconciliation of `members` that started at `x`. */
    ghost method SettleSync(x: Standing, members: Members, block: nat, failed: Option<nat>)
      requires Secure(Blocks(), env, Seen(), start, x) && Grounded(Seen(), x.since, rpc.transport.requests, block)
      requires x.store.plan.Some? && x.store.plan.value.from <= block + 1 && x.below == below
      requires members == Handed(Blocks(), x.store.plan.value, block + 1)
      requires WritesEnded(env, x.store.members, tick, Kept(rpc.transport.requests, members), stored, failed)
      requires if failed.None? then progress == null && checkpoint == lastBlock == Some(block) && served == stored
               else Now().plan == x.store.plan && NextOf(checkpoint) == x.store.next && served == x.served
                    && lastBlock == x.block
      modifies this`followed, this`horizon, this`since, this`below
      ensures Resumable() && since == rpc.transport.requests && (failed.None? ==> followed == block + 1)
      ensures below == old(below) + if failed.Some? && PrunesBelow(x.store, block, stored) then 1 else 0
    {
      var t := rpc.transport.requests;
      var h := SyncStaysSecure(Blocks(), env, Seen(), start, x, t, tick, members, block, stored, failed);
      below := AfterSync(x, t, block, h, stored, failed.None?).below;
      Settle(AfterSync(x, t, block, h, stored, failed.None?));
    }

    /** Account for how things stand after a write. */
    ghost method Settle(x: Standing)
      requires Secure(Blocks(), env, Seen(), start, x)
      requires x.store.members == stored && x.store.next == NextOf(checkpoint) && x.store.plan == Now().plan
      requires x.served == served && x.block == lastBlock && x.below == below
      modifies this`followed, this`horizon, this`since
      ensures Resumable() && AsItStands() == x
    {
      followed, horizon, since := x.store.followed, x.store.horizon, x.since;
    }

    /** The writes; which operation failed, if one did. */
    method WriteMembers(members: Members, block: nat, isVerified: bool) returns (failed: Option<nat>)
      modifies this`tick, this`stored, this`checkpoint, this`served, this`verified, this`lastBlock
      ensures tick == old(tick) + 1
      ensures WritesEnded(env, old(stored), tick, Kept(rpc.transport.requests, members), stored, failed)
      ensures failed.None? ==> served == stored && checkpoint == Some(block)
                               && verified == Some(isVerified) && lastBlock == Some(block)
      ensures failed.Some? ==> checkpoint == old(checkpoint) && served == old(served) && verified == old(verified)
                               && lastBlock == old(lastBlock)
    {
      tick := tick + 1;
      var kept := Kept(rpc.transport.requests, members);
      failed := WriteStored(kept);
      if failed.None? {
        failed := Failure(|kept| + 2);
        if failed.None? {
          checkpoint := Some(block);
          served, verified, lastBlock := kept, Some(isVerified), Some(block);
        }
      }
    }

    /** Read the profiles, upsert the members and prune the rest. */
    method WriteStored(kept: Members) returns (failed: Option<nat>)
      modifies this`stored
      ensures WritesEnded(env, old(stored), tick, kept, stored, failed)
    {
      failed := Failure(0);
      if failed.None? {
        failed := UpsertAll(kept);
      }
      if failed.None? {
        failed := Failure(|kept| + 1);
      }
      if failed.None? {
        stored := kept;
      }
    }

    /** Whether an operation of this step fails. */
    function Failure(operation: nat): Option<nat>
      reads this`tick
    {
      if env.fails(tick, operation) then Some(operation) else None
    }

    /** Upsert the members one by one, up to the first write that fails. */
    method UpsertAll(kept: Members) returns (failed: Option<nat>)
      modifies this`stored
      ensures old(stored) <= stored && stored - old(stored) <= kept
      ensures failed.Some? ==> env.fails(tick, failed.value)
      ensures failed.None? ==> stored == old(stored) + kept
    {
      var rest, n := kept, 1;
      while rest != {}
        invariant rest <= kept && stored == old(stored) + (kept - rest)
        decreases rest
      {
        var a :| a in rest;
        if env.fails(tick, n) {
          return Some(n);
        }
        stored, rest, n := stored + {a}, rest - {a}, n + 1;
      }
      return None;
    }

    /** Act on a plan's verdict: fall back, reject, or reconcile. */
    method Conclude(p: ReplayProgress, v: Verdict, acceptUnverified: bool) returns (r: PlanResult)
      requires Valid() && Resumable() && p == progress && Supports(p, v)
      requires MayAccept(tally, acceptUnverified)
      modifies this
      ensures Valid() && Resumable() && tick >= old(tick)
      ensures progress != null ==> progress == p
      ensures r == Finished(Synced(v.block)) || Unchanged(old(checkpoint), old(served), old(verified), old(lastBlock))
      ensures Tallied(old(tally), tally, r) && tally.plans == old(tally).plans
      ensures r.Finished? && r.outcome.Synced? ==>
                progress == null && SyncedAt(r.outcome.block) && LiveAt(r.outcome.block)
      ensures r.Finished? && r.outcome.Mismatch? ==> progress == p && p.plan.FullPlan? && !v.passed && !acceptUnverified
      ensures r.FallBack? ==> progress == null && p.plan.ResumePlan? && !v.passed
      ensures r.FallBack? || (r.Finished? && r.outcome.Mismatch?) ==> LastDisagreed(p.plan.FullPlan?)
      ensures Smooth() && v.reading == Truth(Blocks(), env, v.block) ==>
                r.FallBack? || (r == Finished(Synced(v.block)) && verified == Some(true))
    {
      assert Supported(p, v);
      assert CoherentOn(history);
      if !v.passed && (p.plan.ResumePlan? || !acceptUnverified) {
        r := Reject(p, v);
      } else {
        var done := Accept(p, v);
        r := Finished(if done then Synced(v.block) else RpcFailed);
      }
    }

    /** A set that failed the check: fall back from a resumed one, report a full one. */
    method Reject(p: ReplayProgress, v: Verdict) returns (r: PlanResult)
      requires Valid() && Resumable() && p == progress && Supports(p, v) && !v.passed
      requires p.plan.FullPlan? ==> tally.mismatches < FULL_REPLAY_MISMATCH_TOLERANCE
      modifies this`history, this`tally, this`progress
      ensures Valid() && Resumable() && LastDisagreed(p.plan.FullPlan?)
      ensures Tallied(old(tally), tally, r) && tally.plans == old(tally).plans
      ensures r == if p.plan.ResumePlan? then FallBack else Finished(Mismatch)
      ensures progress == if p.plan.ResumePlan? then null else p
    {
      assert Supported(p, v);
      assert CoherentOn(history);
      Record(Disagreed(p.plan, p.base, v.block, p.members, v.reading), Showing());
      r := Finished(Mismatch);
      if p.plan.ResumePlan? {
        Abandon();
        r := FallBack;
      }
    }

    /** Reconcile with a set that passed, or that is served although it did not. */
    method Accept(p: ReplayProgress, v: Verdict) returns (done: bool)
      requires Valid() && Resumable() && p == progress && Supports(p, v)
      requires !v.passed ==> p.plan.FullPlan? && tally.mismatches >= FULL_REPLAY_MISMATCH_TOLERANCE
      modifies this
      ensures Valid() && Resumable() && tick >= old(tick)
      ensures LastEntry(history) == Some(Note(p, v, old(stored), done))
      ensures Tallied(old(tally), tally, Finished(if done then Synced(v.block) else RpcFailed))
      ensures tally.plans == old(tally).plans
      ensures done ==> progress == null && SyncedAt(v.block) && LiveAt(v.block) && verified == Some(v.passed)
      ensures !done ==> progress == p && Unchanged(old(checkpoint), old(served), old(verified), old(lastBlock))
      ensures Smooth() ==> done
    {
      assert Supported(p, v);
      assert CoherentOn(history);
      ghost var before, x, s := stored, Showing(), Now();
      var failed := Reconcile(p, v.block, v.passed);
      done := failed.None?;
      if failed.Some? {
        PruningIsNoted(p, v.block, s, before);
      }
      NoteReconciliation(p, v, before, failed, x);
    }

    /** The entry for a reconciliation that started with `before` stored. */
    ghost function Note(p: ReplayProgress, v: Verdict, before: Members, done: bool): Entry
      reads this`checkpoint, this`stored, p`members, rpc.transport`requests
    {
      if done then Reconciled(p.plan, p.base, v.block, p.members, v.reading, v.passed, stored)
      else Interruption(p, v.block, before)
    }

    lemma PruningIsNoted(p: ReplayProgress, block: nat, s: Store, before: Members)
      requires s.members == before && s.next == NextOf(checkpoint)
      ensures PrunesBelow(s, block, stored) <==> PrunedBelow(Interruption(p, block, before))
    {
    }

    /** Record a reconciliation that started with `before` stored. */
    ghost method NoteReconciliation(p: ReplayProgress, v: Verdict, before: Members, failed: Option<nat>, x: Shown)
      requires Tells(tally, x) && Folded(Blocks(), p.plan, p.base, v.block, p.members)
      requires WasRead(env, v.block, v.reading) && (v.passed <==> Agrees(env, p.members, v.reading))
      requires !v.passed ==> p.plan.FullPlan? && tally.mismatches >= FULL_REPLAY_MISMATCH_TOLERANCE
      requires WritesEnded(env, before, tick, Kept(rpc.transport.requests, p.members), stored, failed)
      requires history != [] && !tally.drifted && LastPlanIs(tally, p.plan, p.base)
      requires failed.Some? ==> x.checkpoint == checkpoint && x.stored == before
      requires Showing() == if failed.None? then Shown(Some(v.passed), stored, Some(v.block), Some(v.block), stored)
                            else x.(stored := stored)
      modifies this`history, this`tally
      ensures LastEntry(history) == Some(Note(p, v, before, failed.None?))
      ensures Tallied(old(tally), tally, Finished(if failed.None? then Synced(v.block) else RpcFailed))
      ensures tally.plans == old(tally).plans && tally.polled == old(tally).polled && !tally.drifted
      ensures tally.below == old(tally).below
                             + if failed.Some? && PrunedBelow(Interruption(p, v.block, before)) then 1 else 0
      ensures Tells(tally, Showing()) && history != []
    {
      assert KeptBy(Blocks(), env, p.members, Kept(rpc.transport.requests, p.members));
      Record(Note(p, v, before, failed.None?), x);
    }

    /** Make a plan unless progress was kept, and replay and check it. */
    method PlanAndCheck(forceFull: bool) returns (v: Option<Verdict>, ghost planned: bool)
      requires Ready() && (progress == null ==> MayForce(tally, forceFull))
      modifies this`progress, this`history, this`tally, this`tick, progress, rpc.transport, rpc.chunk
      ensures Ready() && tick >= old(tick)
      ensures progress != null ==> progress == old(progress) || fresh(progress)
      ensures tally == old(tally).(plans := tally.plans)
      ensures if planned then Replanned(old(tally).plans, old(progress) == null, old(NextPlan(forceFull)))
              else v == None && tally.plans == old(tally).plans
      ensures v.Some? ==> progress != null && Supports(progress, v.value)
      ensures v.Some? && old(progress) == null && forceFull ==> progress.plan.FullPlan?
      ensures Smooth() ==> v.Some? && v.value.reading == Truth(Blocks(), env, v.value.block)
    {
      assert ReadyOn(history);
      v := None;
      var ready := EnsureProgress(forceFull);
      planned := ready;
      if ready {
        v := CheckMembers(progress);
      }
    }

    /** One plan, from making it (unless progress was kept) to its verdict. */
    method RunPlan(forceFull: bool, acceptUnverified: bool) returns (r: PlanResult)
      requires Ready() && (progress == null ==> MayForce(tally, forceFull))
      requires MayAccept(tally, acceptUnverified)
      modifies this, progress, rpc.transport, rpc.chunk
      ensures Ready() && tick >= old(tick)
      ensures progress != null ==> progress == old(progress) || fresh(progress)
      ensures tally.plans == old(tally).plans
              || Replanned(old(tally).plans, old(progress) == null, old(NextPlan(forceFull)))
      ensures r != Finished(RpcFailed) ==>
                Replanned(old(tally).plans, old(progress) == null, old(NextPlan(forceFull)))
      ensures (r.Finished? && r.outcome.Synced?)
              || Unchanged(old(checkpoint), old(served), old(verified), old(lastBlock))
      ensures Tallied(old(tally), tally, r)
      ensures r.Finished? && r.outcome.Synced? ==>
                progress == null && SyncedAt(r.outcome.block) && LiveAt(r.outcome.block)
      ensures r.Finished? && r.outcome.Mismatch? ==> LastDisagreed(true)
      ensures r.FallBack? ==> LastDisagreed(false)
      ensures r.FallBack? ==> progress == null && (old(progress) != null || !forceFull)
      ensures Smooth() ==> r.FallBack? || (r.outcome.Synced? && verified == Some(true))
    {
      r := Finished(RpcFailed);
      var verdict, _ := PlanAndCheck(forceFull);
      if verdict.Some? {
        assert ReadyOn(history);
        r := Conclude(progress, verdict.value, acceptUnverified);
      }
    }

    /** The last thing that happened is that a replayed set, of a full or a resumed plan,
        was compared with the registry and differed (see `Disciplined`). */
    ghost predicate LastDisagreed(full: bool)
      reads this`history
    {
      match LastEntry(history)
      case Some(Disagreed(plan, _, _, _, _)) => plan.FullPlan? == full
      case _ => false
    }

    ghost predicate Unchanged(c: Option<nat>, s: Members, v: Option<bool>, b: Option<nat>)
      reads this
    {
      checkpoint == c && served == s && verified == v && lastBlock == b
    }

    /** The last entry is the reconciliation that set what is stored and served. */
    ghost predicate SyncedAt(block: nat)
      reads this, rpc.transport`requests
    {
      match LastEntry(history)
      case Some(Reconciled(_, _, at, members, _, flag, kept)) =>
        && at == block && checkpoint == lastBlock == Some(block) && verified == Some(flag)
        && stored == served == kept == Kept(rpc.transport.requests, members)
      case _ => false
    }

    /** One sync attempt: at most two plans, each checked in at most five rounds. */
    method InitialChainSync(force: bool, acceptUnverified: bool) returns (r: Outcome)
      requires Ready() && (force <==> tally.replays)
      requires MayAccept(tally, acceptUnverified)
      modifies this, progress, rpc.transport, rpc.chunk
      ensures Ready() && tick > old(tick)
      ensures progress != null ==> progress == old(progress) || fresh(progress)
      ensures PlansMade(old(tally).plans, tally.plans, 2, old(progress) == null, old(NextPlan(force)))
      ensures old(progress) == null && !r.RpcFailed? ==> |tally.plans| > |old(tally).plans|
      ensures Tallied(old(tally), tally, Finished(r))
      ensures r.Synced? ==> progress == null && SyncedAt(r.block) && LiveAt(r.block)
      ensures !r.Synced? ==> Unchanged(old(checkpoint), old(served), old(verified), old(lastBlock))
      ensures r.Mismatch? ==> LastDisagreed(true)
      // Whatever is stored, one attempt suffices when nothing fails and the registry is truthful.
      ensures Smooth() ==> r.Synced? && verified == Some(true)
    {
      assert ReadyOn(history) && CoherentOn(history);
      tick, r := tick + 1, RpcFailed;
      if !env.fails(tick, 0) {
        r := RunPlans(force, acceptUnverified);
      }
    }

    /** Run plans until one is not rejected in favour of a full replay. */
    method RunPlans(force: bool, acceptUnverified: bool) returns (r: Outcome)
      requires Ready() && (force <==> tally.replays)
      requires MayAccept(tally, acceptUnverified)
      modifies this, progress, rpc.transport, rpc.chunk
      ensures Ready() && tick >= old(tick)
      ensures progress != null ==> progress == old(progress) || fresh(progress)
      ensures PlansMade(old(tally).plans, tally.plans, 2, old(progress) == null, old(NextPlan(force)))
      ensures old(progress) == null && !r.RpcFailed? ==> |tally.plans| > |old(tally).plans|
      ensures Tallied(old(tally), tally, Finished(r))
      ensures r.Synced? ==> progress == null && SyncedAt(r.block) && LiveAt(r.block)
      ensures !r.Synced? ==> Unchanged(old(checkpoint), old(served), old(verified), old(lastBlock))
      ensures r.Mismatch? ==> LastDisagreed(true)
      ensures Smooth() ==> r.Synced? && verified == Some(true)
    {
      var forceFull := force;
      ghost var again := false;
      while true
        invariant Ready() && tick >= old(tick)
        invariant progress != null ==> progress == old(progress) || fresh(progress)
        invariant tally
               == old(tally).(plans := tally.plans, rejected := tally.rejected)
        invariant progress == null ==> MayForce(tally, forceFull)
        invariant !again ==> tally == old(tally) && progress == old(progress) && forceFull == force
                             && NextPlan(force) == old(NextPlan(force))
        invariant again ==> progress == null && forceFull && Replanned(old(tally).plans, old(progress) == null,
                                                                       old(NextPlan(force)))
        invariant Unchanged(old(checkpoint), old(served), old(verified), old(lastBlock))
        decreases if forceFull && progress == null then 0 else 1
      {
        var result := RunPlan(forceFull, acceptUnverified);
        if result.Finished? {
          return result.outcome;
        }
        forceFull, again := true, true;
      }
    }

    /** One plan was made, unless the replay of an earlier one was kept. */
    ghost predicate Replanned(before: seq<Entry>, anew: bool, first: Entry)
      reads this`tally
    {
      tally.plans == before + if anew then [first] else []
    }

    /** One live event; every kind of event counts as a change. */
    method ProcessChainEvent(e: Event, how: Handling) returns (changed: bool)
      modifies this`stored, this`served
      ensures changed
      ensures stored == LiveApply(Blocks(), env.deploy, old(stored), e, how)
      ensures served == LiveApply(Blocks(), env.deploy, old(served), e, how)
    {
      changed := true;
      if how.Lost? {
        return;
      }
      match e {
        case Registered(a) =>
          RefreshNode(a, how.readAt);
        case ProfileChanged(a) =>
          RefreshNode(a, how.readAt);
        case Removed(a) =>
          stored, served := stored - {a}, served - {a};
        case Unstaked(a, _) =>
          stored, served := stored - {a}, served - {a};
      }
    }

    /** Store a node whose profile, read after block `readAt`, exists; a missing
        profile changes nothing. */
    method RefreshNode(a: Address, readAt: nat)
      modifies this`stored, this`served
      ensures a in Full(Blocks(), env.deploy, readAt + 1) ==> stored == old(stored) + {a} && served == old(served) + {a}
      ensures a !in Full(Blocks(), env.deploy, readAt + 1) ==> stored == old(stored) && served == old(served)
    {
      if a in Full(rpc.transport.world.blocks, env.deploy, readAt + 1) {
        stored, served := stored + {a}, served + {a};
      }
    }

    /** How the environment let the events of the chunk just fetched be handled. */
    ghost predicate Handlings(how: seq<Handling>)
      reads rpc.transport`requests
    {
      forall i :: 0 <= i < |how| ==> how[i] == env.handling(rpc.transport.requests, i)
    }

    lemma HandledNext(how: seq<Handling>)
      requires Handlings(how)
      ensures Handlings(how + [env.handling(rpc.transport.requests, |how|)])
    {
    }

    method ProcessChunk(events: seq<Event>) returns (changed: bool, ghost how: seq<Handling>)
      modifies this`stored, this`served
      ensures |how| == |events| && (changed <==> events != []) && Handlings(how)
      ensures stored == LiveReplay(Blocks(), env.deploy, old(stored), events, how)
      ensures served == LiveReplay(Blocks(), env.deploy, old(served), events, how)
    {
      changed, how := false, [];
      for i := 0 to |events|
        invariant |how| == i && (changed <==> i > 0) && Handlings(how)
        invariant stored == LiveReplay(Blocks(), env.deploy, old(stored), events[..i], how)
        invariant served == LiveReplay(Blocks(), env.deploy, old(served), events[..i], how)
      {
        var h := env.handling(rpc.transport.requests, i);
        LiveReplayNext(Blocks(), env.deploy, old(stored), events, i, how, h);
        LiveReplayNext(Blocks(), env.deploy, old(served), events, i, how, h);
        changed := ProcessChainEvent(events[i], h);
        HandledNext(how);
        how := how + [h];
      }
      assert events[..|events|] == events;
    }

    /** A block the process may have got to, no request before the store last changed. */
    ghost predicate Underway(target: nat)
      reads this`since, rpc.transport`requests
    {
      since <= rpc.transport.requests && Seen().Reached(rpc.transport.requests, target)
    }

    /** The live loop is at `last` on its way to `target`. */
    ghost predicate OnTheWay(last: nat, target: nat)
      reads this, rpc, rpc.transport, rpc.chunk
    {
      match lastBlock
      case Some(_) =>
        && rpc.Valid() && Resumable() && LiveAt(last) && Underway(target)
        && (last < target ==> Trusted(rpc.transport.world, rpc.transport.requests, target))
      case None => false
    }

    /** One live chunk: fetched, handled event by event and then checkpointed; a failed
        checkpoint write is only logged. */
    method FollowChunk(from: nat, target: nat) 
      returns (last: nat, ok: bool, changed: bool, ghost how: seq<Handling>)
      requires 1 <= from <= target && OnTheWay(from - 1, target)
      modifies this`tick, this`stored, this`served, this`checkpoint, this`lastBlock,
               this`followed, this`horizon, this`since, rpc.transport, rpc.chunk
      ensures tick == old(tick) + 1 && rpc.transport.requests > old(rpc.transport.requests)
      ensures OnTheWay(last, target) && FromEnv(env, how) && (if ok then from <= last <= target else last == from - 1)
      ensures !ok ==> stored == old(stored) && served == old(served) && checkpoint == old(checkpoint)
      ensures Followed(Blocks(), env.deploy, old(stored), stored, from, last, how)
      ensures Followed(Blocks(), env.deploy, old(served), served, from, last, how)
      ensures checkpoint == old(checkpoint) || checkpoint == Some(last)
      ensures changed <==> Logs(Blocks(), from, last + 1) != []
      ensures Healthy(rpc.transport.world) && HeadsReach(rpc.transport.world, old(rpc.transport.requests), target) ==>
                ok
    {
      tick, last, changed, how := tick + 1, from - 1, false, [];
      ghost var t0 := rpc.transport.requests;
      var chunk := FetchLogsChunk(from, target);
      ReachedLater(Seen(), t0, rpc.transport.requests, target);
      ReachesLater(rpc.transport.world, t0, rpc.transport.requests, target);
      ok := chunk.Some?;
      if ok {
        last := chunk.value.end;
        changed, how := HandleChunk(from, chunk.value.end, chunk.value.logs);
      }
    }

    /** Handle a chunk's events, then checkpoint it. */
    method HandleChunk(from: nat, end: nat, events: seq<Event>) returns (changed: bool, ghost how: seq<Handling>)
      requires 1 <= from <= end && events == Logs(Blocks(), from, end + 1)
      requires Resumable() && LiveAt(from - 1) && Underway(end)
      modifies this`stored, this`served, this`checkpoint, this`lastBlock, this`followed, this`horizon, this`since
      ensures Resumable() && LiveAt(end) && since <= rpc.transport.requests && Handlings(how)
      ensures Followed(Blocks(), env.deploy, old(stored), stored, from, end, how)
      ensures Followed(Blocks(), env.deploy, old(served), served, from, end, how)
      ensures checkpoint == old(checkpoint) || checkpoint == Some(end)
      ensures changed <==> events != []
    {
      ghost var x := AsItStands();
      changed, how := ProcessChunk(events);
      var saved := !env.fails(tick, 0);
      if saved {
        checkpoint := Some(end);
      }
      lastBlock := Some(end);
      SettleChunk(x, end, how, saved);
    }

    /** Account for a chunk that was followed to its end from `x`. */
    ghost method SettleChunk(x: Standing, end: nat, how: seq<Handling>, saved: bool)
      requires Secure(Blocks(), env, Seen(), start, x) && x.store.Resumes(env.deploy) && x.store.plan.None?
      requires x.block.Some? && x.block.value + 1 == x.store.followed <= end + 1
      requires x.since <= rpc.transport.requests && Seen().Reached(rpc.transport.requests, end) && x.below == below
      requires |how| == |Logs(Blocks(), x.store.followed, end + 1)| && Handlings(how)
      requires progress == null && lastBlock == Some(end)
      requires NextOf(checkpoint) == if saved then Some(end + 1) else x.store.next
      requires stored
            == LiveReplay(Blocks(), env.deploy, x.store.members, Logs(Blocks(), x.store.followed, end + 1), how)
      requires served == LiveReplay(Blocks(), env.deploy, x.served, Logs(Blocks(), x.store.followed, end + 1), how)
      modifies this`followed, this`horizon, this`since
      ensures Resumable() && followed == end + 1 && since == rpc.transport.requests
    {
      var t := rpc.transport.requests;
      var h := FollowingStaysSecure(Blocks(), env, Seen(), start, x, t, end, how, saved);
      Settle(AfterFollowing(Blocks(), env.deploy, x, t, end, how, saved, h));
    }

    /** The live loop's catch-up to `target`, chunk by chunk. */
    method FollowChunks(
      from: nat, target: nat)
      returns (last: nat, changed: bool, failed: bool, ghost how: seq<Handling>)
      requires OnTheWay(from, target)
      modifies this`tick, this`stored, this`served, this`checkpoint, this`lastBlock,
               this`followed, this`horizon, this`since, rpc.transport, rpc.chunk
      ensures tick >= old(tick) && OnTheWay(last, target) && FromEnv(env, how)
      ensures !failed ==> tick - old(tick) <= last - from
      ensures rpc.transport.requests >= old(rpc.transport.requests)
      ensures from <= last <= Max(from, target) && (!failed ==> last == Max(from, target))
      ensures Moved(from, last, how)
      ensures checkpoint == old(checkpoint) || (checkpoint.Some? && from < checkpoint.value <= last)
      ensures changed <==> Logs(Blocks(), from + 1, last + 1) != []
      ensures Healthy(rpc.transport.world) && HeadsReach(rpc.transport.world, old(rpc.transport.requests), target) ==>
                !failed
    {
      last, changed, failed, how := from, false, false, [];
      ghost var w := rpc.transport.world;
      ghost var healthy := Healthy(w) && HeadsReach(w, rpc.transport.requests, target);
      while last < target
        invariant OnTheWay(last, target) && FromEnv(env, how)
        invariant old(tick) <= tick <= old(tick) + (last - from) && from <= last <= Max(from, target)
        invariant rpc.transport.requests >= old(rpc.transport.requests)
        invariant Moved(from, last, how)
        invariant checkpoint == old(checkpoint) || (checkpoint.Some? && from < checkpoint.value <= last)
        invariant changed <==> how != []
        invariant !failed && (healthy ==> HeadsReach(w, rpc.transport.requests, target))
        decreases target - last
      {
        ghost var stored0, served0 := stored, served;
        var end, ok, touched;
        ghost var handled;
        end, ok, touched, handled := FollowChunk(last + 1, target);
        if !ok {
          failed := true;
          break;
        }
        MovedOn(old(stored), stored0, old(served), served0, from, last, end, how, handled);
        changed, how, last := changed || touched, how + handled, end;
      }
    }

    /** Compare what is served with the registry; `None` when it could not be read. */
    method CheckServed(block: nat) returns (passed: Option<bool>)
      requires Valid() && lastBlock.Some? && lastBlock.value == block
      modifies this`verified, this`history, this`tally
      ensures Coherent() && (passed == Some(false) || !tally.drifted)
      ensures passed.Some? <==> env.reading(tick, 0, block).Some?
      ensures passed == None ==> history == old(history) && tally == old(tally) && verified == old(verified)
      ensures passed.Some? ==> Checked(old(tally), block, passed.value)
    {
      passed := None;
      var reading := env.reading(tick, 0, block);
      if reading.Some? {
        var ok := CompareServed(block, reading.value);
        passed := Some(ok);
      }
    }

    method CompareServed(block: nat, reading: Reading) returns (ok: bool)
      requires Valid() && lastBlock.Some? && lastBlock.value == block && env.reading(tick, 0, block) == Some(reading)
      modifies this`verified, this`history, this`tally
      ensures Coherent() && (ok ==> !tally.drifted) && Checked(old(tally), block, ok)
    {
      assert CoherentOn(history);
      assert WasRead(env, block, reading) && WasReadAt(env, env.clock(tick), block, reading);
      ok := VerifyMembership(served, reading.count, reading.fingerprint, env.hash);
      Record(LiveCheck(env.clock(tick), block, served, reading, ok), Showing());
      verified := Some(ok);
    }

    /** What happened last is that the served set was compared with what the registry
        reported at `block` in this step. */
    ghost predicate Checked(before: Tally, block: nat, passed: bool)
      reads this`tick, this`served, this`history, this`tally, this`verified
    {
      && env.reading(tick, 0, block).Some? && verified == Some(passed)
      && (passed <==> Agrees(env, served, env.reading(tick, 0, block).value))
      && LastEntry(history).Some?
      && LastEntry(history).value
         == LiveCheck(env.clock(tick), block, served, env.reading(tick, 0, block).value, passed)
      && tally == before.(
                             failedChecks := if passed then 0 else before.failedChecks + 1, checked := env.clock(tick),
                             drifted := !passed && before.failedChecks + 1 >= MISMATCHES_BEFORE_RESYNC
                                        && LongSince(before.lastForced, env.clock(tick)))
    }

    /** Stored and served set moved by the live handling `how` of blocks from + 1, ..., last. */
    twostate predicate Moved(from: nat, last: nat, how: seq<Handling>)
      reads this
    {
      && Followed(Blocks(), env.deploy, old(stored), stored, from + 1, last, how)
      && Followed(Blocks(), env.deploy, old(served), served, from + 1, last, how)
    }

    lemma MovedOn(
      stored0: Members, stored1: Members, served0: Members, served1: Members,
      start: nat, mid: nat, last: nat, how: seq<Handling>, handled: seq<Handling>)
      requires start <= mid <= last
      requires Followed(Blocks(), env.deploy, stored0, stored1, start + 1, mid, how)
      requires Followed(Blocks(), env.deploy, served0, served1, start + 1, mid, how)
      requires Followed(Blocks(), env.deploy, stored1, stored, mid + 1, last, handled)
      requires Followed(Blocks(), env.deploy, served1, served, mid + 1, last, handled)
      ensures Followed(Blocks(), env.deploy, stored0, stored, start + 1, last, how + handled)
      ensures Followed(Blocks(), env.deploy, served0, served, start + 1, last, how + handled)
    {
      FollowedNext(Blocks(), env.deploy, stored0, stored1, stored, start + 1, mid, last, how, handled);
      FollowedNext(Blocks(), env.deploy, served0, served1, served, start + 1, mid, last, how, handled);
    }

    /** Poll the head and catch up with it, if it could be read. */
    method Poll(from: nat) returns (read: bool, polled: Polled, ghost how: seq<Handling>)
      requires Valid() && Resumable() && LiveAt(from)
      modifies this`tick, this`stored, this`served, this`checkpoint, this`lastBlock, this`history, this`tally,
               this`followed, this`horizon, this`since, rpc.transport, rpc.chunk
      ensures Valid() && Resumable() && tick > old(tick) && tally == old(tally).(polled := tally.polled)
      ensures read && !polled.failed ==>
                tally.polled.count == old(tally).polled.count + 1 && tick - old(tick) <= 1 + (polled.last - from)
      ensures LiveAt(polled.last) && from <= polled.last && Moved(from, polled.last, how)
      ensures polled.changed <==> Logs(Blocks(), from + 1, polled.last + 1) != []
      ensures !read ==> polled.last == from
      ensures Healthy(rpc.transport.world) ==> read && !polled.failed
    {
      assert CoherentOn(history);
      tick := tick + 1;
      polled, how := Polled(from, false, false), [];
      ghost var t0 := rpc.transport.requests;
      var head := rpc.SafeHead();
      read := head.Ok?;
      if read {
        StandsOn(Seen(), since, t0, rpc.transport.requests, rpc.transport.preferred, 0, head.value);
        ghost var found := HeadRead(rpc.transport.requests, rpc.transport.preferred);
        polled, how := FollowHead(from, head.value, found);
      }
    }

    /** Catch up with `target` and note it. */
    method FollowHead(from: nat, target: nat, ghost read: HeadRead) returns (polled: Polled, ghost how: seq<Handling>)
      requires Valid() && Resumable() && LiveAt(from) && Underway(target)
      requires Seen().SafeHead(read.request, read.endpoint) == Some(target)
      requires tally.polled.lastRequest < read.request <= rpc.transport.requests
      requires from < target ==> Trusted(rpc.transport.world, rpc.transport.requests, target)
      modifies this`tick, this`stored, this`served, this`checkpoint, this`lastBlock, this`history, this`tally,
               this`followed, this`horizon, this`since, rpc.transport, rpc.chunk
      ensures Valid() && Resumable() && tick >= old(tick) && LiveAt(polled.last)
      ensures from <= polled.last && Moved(from, polled.last, how)
      ensures tally
           == old(tally).(polled := Polls(old(tally).polled.count + if polled.failed then 0 else 1, read.request))
      ensures !polled.failed ==> polled.last == Max(from, target) && tick - old(tick) <= polled.last - from
      ensures polled.changed <==> Logs(Blocks(), from + 1, polled.last + 1) != []
      ensures Healthy(rpc.transport.world) && HeadsReach(rpc.transport.world, old(rpc.transport.requests), target) ==>
                !polled.failed
    {
      assert CoherentOn(history);
      var last, changed, failed;
      ghost var shown := Showing();
      last, changed, failed, how := FollowChunks(from, target);
      NotePoll(shown, from, last, how, read, target, failed);
      polled := Polled(last, changed, failed);
    }

    /** Record a poll that went from `from`, where the process showed `shown`, to `last`. */
    ghost method NotePoll(
      shown: Shown, from: nat, last: nat, how: seq<Handling>, read: HeadRead, target: nat, failed: bool)
      requires Tells(tally, shown) && history != [] && !tally.drifted
      requires shown.block == Some(from) && lastBlock == Some(last) && shown.verified == verified
      requires Followed(Blocks(), env.deploy, shown.stored, stored, from + 1, last, how)
      requires Followed(Blocks(), env.deploy, shown.served, served, from + 1, last, how)
      requires checkpoint == shown.checkpoint || (checkpoint.Some? && from < checkpoint.value <= last)
      requires Seen().SafeHead(read.request, read.endpoint) == Some(target) && tally.polled.lastRequest < read.request
      requires from <= last <= Max(from, target) && (!failed ==> last == Max(from, target)) && FromEnv(env, how)
      modifies this`history, this`tally
      ensures Tells(tally, Showing()) && history != []
      ensures tally == old(tally).(polled := Polls(old(tally).polled.count + if failed then 0 else 1, read.request))
    {
      FollowedShows(Blocks(), env.deploy, shown, served, stored, from, last, how, checkpoint, read, !failed);
      Record(FollowedOn(from, last, how, checkpoint, read, !failed), shown);
    }

    /** One pass of the live loop: poll, and check when something changed or a check is
        due. `passed` is the check's outcome, if one was made. */
    method LiveRound(from: nat, verifiedAt: nat)
      returns (last: nat, lastVerified: nat, passed: Option<bool>, ghost how: seq<Handling>)
      requires Valid() && Resumable() && LiveAt(from)
      modifies this, rpc.transport, rpc.chunk
      ensures Coherent() && Resumable() && LiveAt(last) && tick > old(tick)
      ensures passed == Some(false) || !tally.drifted
      ensures from <= last && Moved(from, last, how)
      ensures passed == None ==> tally == old(tally).(polled := tally.polled)
      ensures passed.Some? ==> Checked(old(tally).(polled := tally.polled), last, passed.value)
      ensures Healthy(rpc.transport.world) ==> PolledOnce(old(tally), from, last, tick - old(tick))
      ensures lastVerified == (if passed.Some? then env.clock(tick) else verifiedAt) || env.reading(tick, 0, last).None?
      // A check that is due is made whenever the registry can be read.
      ensures Healthy(rpc.transport.world) && env.reading(tick, 0, last).Some?
              && (Logs(Blocks(), from + 1, last + 1) != [] || env.clock(tick) - verifiedAt >= VERIFY_INTERVAL)
              ==> passed.Some?
    {
      lastVerified, passed := verifiedAt, None;
      var read, polled;
      read, polled, how := Poll(from);
      last := polled.last;
      var due := polled.changed || env.clock(tick) - lastVerified >= VERIFY_INTERVAL;
      if read && due && !(polled.failed && tick >= env.shutdownAt) {
        lastVerified := env.clock(tick);
        passed := CheckServed(last);
      }
    }

    /** What happened last is a check in which the set served now, at the block followed to
        now, differed from the registry. */
    ghost predicate ServedSetJustDisagreed(last: nat)
      reads this`history, this`served
    {
      && history != [] && ServedSetDisagreed(Blocks(), env, history, |history| - 1)
      && history[|history| - 1].block == last && history[|history| - 1].members == served
    }

    /** Follow new blocks until shutdown, or until enough checks failed for a replay.
        Over all polls, every block after `start` is followed once, in order. */
    method ChainEventLoop(start: nat, resyncNotBefore: nat)
      returns (exit: LoopExit, ghost last: nat, ghost how: seq<Handling>)
      requires Valid() && Resumable() && LiveAt(start) && StartsAt(resyncNotBefore)
      modifies this, rpc.transport, rpc.chunk
      ensures Coherent() && Resumable() && LiveAt(last) && tick >= old(tick)
      ensures start <= last && Moved(start, last, how)
      ensures tally
           == old(tally).(failedChecks := tally.failedChecks, drifted := tally.drifted, polled := tally.polled,
                          checked := tally.checked)
      // Of its steps all but one for each block followed are polls, and no check is overdue.
      ensures Healthy(rpc.transport.world) ==>
                tick - old(tick) <= (tally.polled.count - old(tally).polled.count) + (last - start)
      ensures Attentive() ==> env.clock(tick) - tally.checked < VERIFY_INTERVAL
      ensures exit.Resync? <==> tally.drifted
      ensures exit.Shutdown? ==> tick >= env.shutdownAt
      ensures exit.Resync? ==> tally.failedChecks >= MISMATCHES_BEFORE_RESYNC
                               && LongSince(tally.lastForced, env.clock(tick))
      ensures exit.Resync? ==> ServedSetJustDisagreed(last)
    {
      assert CoherentOn(history);
      Record(LiveStarted(env.clock(tick)), Showing());
      var lastBlock, lastVerified, mismatches := start, env.clock(tick), 0;
      exit, last, how := Shutdown, start, [];
      while tick < env.shutdownAt
        invariant Valid() && Resumable() && LiveAt(last) && tick >= old(tick) && StartsAt(resyncNotBefore)
        invariant start <= lastBlock == last && Moved(start, last, how)
        invariant tally == old(tally).(failedChecks := mismatches, polled := tally.polled, checked := tally.checked)
        invariant Healthy(rpc.transport.world) ==>
                    tick - old(tick) <= (tally.polled.count - old(tally).polled.count) + (last - start)
        invariant Attentive() ==> lastVerified == tally.checked && env.clock(tick) - lastVerified < VERIFY_INTERVAL
        decreases env.shutdownAt - tick
      {
        ghost var stored0, served0, from := stored, served, lastBlock;
        var drifted;
        ghost var handled;
        lastBlock, lastVerified, mismatches, drifted, handled :=
          Watch(lastBlock, lastVerified, mismatches, resyncNotBefore);
        MovedOn(old(stored), stored0, old(served), served0, start, from, lastBlock, how, handled);
        last, how := lastBlock, how + handled;
        if drifted {
          exit := Resync;
          break;
        }
      }
    }

    /** One pass, and whether it found that the served set drifted long enough. */
    /** One more poll was completed, and `ticks` steps taken: it and one for each chunk followed. */
    ghost predicate PolledOnce(before: Tally, from: nat, last: nat, ticks: int)
      reads this`tally
    {
      tally.polled.count == before.polled.count + 1 && ticks <= 1 + (last - from)
    }

    method Watch(from: nat, verifiedAt: nat, failures: nat, resyncNotBefore: nat)
      returns (last: nat, lastVerified: nat, mismatches: nat, drifted: bool, ghost how: seq<Handling>)
      requires Valid() && Resumable() && LiveAt(from) && StartsAt(resyncNotBefore)
      requires failures == tally.failedChecks
      modifies this, rpc.transport, rpc.chunk
      ensures Coherent() && Resumable() && LiveAt(last) && tick > old(tick)
      ensures from <= last && Moved(from, last, how)
      ensures tally == old(tally).(
                         failedChecks := mismatches, drifted := drifted, polled := tally.polled,
                         checked := tally.checked)
      ensures Healthy(rpc.transport.world) ==> PolledOnce(old(tally), from, last, tick - old(tick))
      ensures Attentive() && verifiedAt == old(tally).checked ==>
                lastVerified == tally.checked && env.clock(tick) - lastVerified < VERIFY_INTERVAL
      ensures drifted ==> mismatches >= MISMATCHES_BEFORE_RESYNC
                          && LongSince(tally.lastForced, env.clock(tick)) && ServedSetJustDisagreed(last)
    {
      assert CoherentOn(history);
      var passed;
      last, lastVerified, passed, how := LiveRound(from, verifiedAt);
      mismatches, drifted := failures, false;
      if passed.Some? {
        mismatches := if passed.value then 0 else failures + 1;
        drifted := !passed.value && ShouldForceResync(mismatches, env.clock(tick), resyncNotBefore);
        if drifted {
          assert CoherentOn(history);
          CheckDisagreed(old(tally).(polled := tally.polled), last);
        }
      }
    }

    lemma CheckDisagreed(before: Tally, block: nat)
      requires Tells(tally, Showing()) && Checked(before, block, false)
      ensures ServedSetJustDisagreed(block)
    {
      assert history[..|history|] == history;
      FailedCheckDisagreed(
        Blocks(), env, history, env.clock(tick), block, served, env.reading(tick, 0, block).value);
    }

    /** The network works and the registry can be read. */
    ghost predicate Attentive() {
      Healthy(rpc.transport.world) && forall t, attempt, block :: env.reading(t, attempt, block).Some?
    }

    /** When a replay may be forced again. */
    ghost predicate StartsAt(resyncNotBefore: nat)
      reads this`tick, this`tally
    {
      match tally.lastForced
      case Some(at) => resyncNotBefore == at + MIN_RESYNC_INTERVAL
      case None => resyncNotBefore <= env.clock(tick)
    }

    /** Supervise the sync until shutdown. In a calm environment, whatever is stored can be
        resumed from: the next process, resuming or not, ends in the full replay; and the
        set served is the full replay but for events after its block. The one exception, an
        interrupted reconciliation that had pruned below the checkpoint, needs a safe head
        that fell and a write that failed. */
    method RunChainSync()
      requires Valid() && Resumable() && history == [Started(checkpoint, stored)] && progress == null
      modifies this, rpc.transport, rpc.chunk
      ensures Valid() && Resumable() && tick >= env.shutdownAt
      ensures Disciplined(Blocks(), env, history) && Count(history) == tally
      ensures Calm(env, Seen(), rpc.transport.requests) && tally.below == 0 ==>
                CanResume(Blocks(), env, Seen(), start, rpc.transport.requests, AsItStands())
      ensures Orderly(env, Seen(), rpc.transport.requests) ==> tally.below == 0
      ensures Smooth() && old(tick) < env.shutdownAt ==>
                tally.synced > 0 && tally.forced <= tally.synced <= tally.forced + 1
    {
      Supervise();
      assert ReadyOn(history) && CoherentOn(history);
      SecureMeansResumable(Blocks(), env, Seen(), start, AsItStands(), rpc.transport.requests);
      assert history[..|history|] == history;
    }

    /** Follow new blocks, and order a full replay when the served set drifted. */
    method FollowUntilDrift(block: nat, lastForced: Option<nat>) returns (exit: LoopExit)
      requires Valid() && Resumable() && LiveAt(block) && progress == null && lastForced == tally.lastForced
      modifies this, rpc.transport, rpc.chunk
      ensures Valid() && Resumable() && progress == null && tick >= old(tick)
      ensures tally.mismatches == old(tally).mismatches
      ensures tally.synced == old(tally).synced
      ensures exit.Shutdown? ==> tick >= env.shutdownAt && tally.forced == old(tally).forced
      ensures exit.Resync? ==>
                && tally.lastForced == Some(env.clock(tick)) && tally.replays
                && tally.forced == old(tally).forced + 1
    {
      assert CoherentOn(history);
      var notBefore := if lastForced.Some? then lastForced.value + MIN_RESYNC_INTERVAL else env.clock(tick);
      var how, _, _ := ChainEventLoop(block, notBefore);
      if how.Resync? {
        assert CoherentOn(history);
        ForceReplay();
      }
      return how;
    }

    /** The supervisor's loop. */
    method Supervise()
      requires Valid() && Resumable() && history == [Started(checkpoint, stored)] && progress == null
      modifies this, rpc.transport, rpc.chunk
      ensures Ready() && tick >= env.shutdownAt
      ensures Smooth() && old(tick) < env.shutdownAt ==>
                tally.synced > 0 && tally.forced <= tally.synced <= tally.forced + 1
    {
      assert CoherentOn(history);
      assert history[..|history|] == history;
      StartIsTold(Blocks(), env, Seen(), history[0]);
      var forceFull, fullMismatches, lastForced := false, 0, None;
      while tick < env.shutdownAt
        invariant Ready() && (progress != null ==> fresh(progress))
        invariant fullMismatches == tally.mismatches && lastForced == tally.lastForced
        invariant forceFull <==> tally.replays
        invariant Smooth() ==> tally.synced == tally.forced
        invariant tick == old(tick) || (Smooth() ==> tally.synced > 0)
        decreases env.shutdownAt - tick
      {
        var outcome := InitialChainSync(forceFull, fullMismatches >= FULL_REPLAY_MISMATCH_TOLERANCE);
        match outcome {
          case Synced(block) =>
            assert ReadyOn(history);
            fullMismatches := 0;
            var exit := FollowUntilDrift(block, lastForced);
            if exit.Shutdown? {
              return;
            }
            lastForced, forceFull := Some(env.clock(tick)), true;
          case Mismatch =>
            fullMismatches := fullMismatches + 1;
            assert ReadyOn(history);
            Abandon();
            forceFull := true;
          case RpcFailed =>
        }
      }
    }
  }
}
