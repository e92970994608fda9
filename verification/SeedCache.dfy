/** The seed topology cache: stale-while-revalidate behind a single-flight lock, as a
    step system over every interleaving of requests, background refreshes, warm
    refreshes, membership bumps and cancellations. */
module SeedCache {
  import opened Wrappers

  const SECOND: nat := 1_000_000_000
  const SEED_CACHE_TTL: nat := 30 * SECOND
  const SEED_STALE_MAX: nat := 300 * SECOND

  /** A copy of the members with the membership version it was checked under. */
  datatype Seed = Seed(version: nat, builtAt: nat, block: nat)

  datatype CacheUse = Fresh | Stale | Rebuild

  function SeedCacheUse(cached: Option<Seed>, version: nat, now: nat): CacheUse {
    if cached.None? || cached.value.version != version then Rebuild
    else
      var age := Max(now - cached.value.builtAt, 0);
      if age < SEED_CACHE_TTL then Fresh
      else if age < SEED_STALE_MAX then Stale
      else Rebuild
  }

  // ---- Steps --------------------------------------------------------------------

  /** Who runs a refresh: a request with the version it read and the copy it saw, the
      warm loop, or a background task. */
  datatype Caller = Request(version: nat, cached: Option<Seed>) | Warm | Background

  datatype Phase =
    | Asked(version: nat)                       // a request has read the version
    | Cloned(version: nat, cached: Option<Seed>) // and cloned the cache
    | WaitsTurn(caller: Caller)                 // waits for the refresh lock
    | HasTurn(caller: Caller)                   // holds it
    | Rechecks(caller: Caller, version: nat)    // has read the version for its second look at the cache
    | MustVerify(caller: Caller)                // holds it, cache not fresh
    | Verifying(caller: Caller, version: nat)   // reading the chain
    | Built(caller: Caller, seed: Seed)         // verified, not yet stored
    | RebuildFailed(version: nat, cached: Option<Seed>) // a request's rebuild failed; lock released

  /** A copy handed to a request that had read `version`. */
  datatype Answer = Answer(version: nat, seed: Seed, chosenAt: nat, rebuildFailed: bool)

  datatype State = State(
    now: nat,
    version: nat,
    cache: Option<Seed>,
    turn: Option<nat>,
    tasks: map<nat, Phase>,
    verified: set<Seed>,  // every copy that ever passed verification
    answers: seq<Answer>)

  datatype Step =
    | TimePasses(d: nat)
    | Bump
    | Ask(t: nat)
    | Clone(t: nat)
    | Choose(t: nat, background: nat)
    | StartWarm(t: nat)
    | TakeTurn(t: nat)
    | ReadVersion(t: nat)
    | LookAgain(t: nat)
    | BeginVerify(t: nat)
    | VerifyOk(t: nat, block: nat)
    | VerifyFails(t: nat)
    | Store(t: nat)
    | FallBack(t: nat)
    | Cancel(t: nat)

  function Put(s: State, t: nat, p: Phase): State {
    s.(tasks := s.tasks[t := p])
  }

  function Drop(s: State, t: nat): State {
    s.(tasks := s.tasks - {t})
  }

  function Release(s: State): State {
    s.(turn := None)
  }

  function Say(s: State, a: Answer): State {
    s.(answers := s.answers + [a])
  }

  predicate Holds(p: Phase) {
    p.HasTurn? || p.Rechecks? || p.MustVerify? || p.Verifying? || p.Built?
  }

  predicate Enabled(s: State, step: Step) {
    match step
    case TimePasses(_) => true
    case Bump => true
    case Ask(t) => t !in s.tasks
    case Clone(t) => t in s.tasks && s.tasks[t].Asked?
    case Choose(t, b) => t in s.tasks && s.tasks[t].Cloned? && b !in s.tasks
    case StartWarm(t) => t !in s.tasks
    case TakeTurn(t) => t in s.tasks && s.tasks[t].WaitsTurn? && s.turn == None
    case ReadVersion(t) => t in s.tasks && s.tasks[t].HasTurn?
    case LookAgain(t) => t in s.tasks && s.tasks[t].Rechecks?
    case BeginVerify(t) => t in s.tasks && s.tasks[t].MustVerify?
    case VerifyOk(t, _) => t in s.tasks && s.tasks[t].Verifying?
    case VerifyFails(t) => t in s.tasks && s.tasks[t].Verifying?
    case Store(t) => t in s.tasks && s.tasks[t].Built?
    case FallBack(t) => t in s.tasks && s.tasks[t].RebuildFailed?
    case Cancel(t) => t in s.tasks
  }

  /** A request serves what it chose; a stale copy also starts one background refresh
      when the lock is free. */
  function ChooseStep(s: State, t: nat, b: nat): State
    requires Enabled(s, Choose(t, b))
  {
    var Cloned(version, cached) := s.tasks[t];
    match SeedCacheUse(cached, version, s.now)
    case Fresh => Say(Drop(s, t), Answer(version, cached.value, s.now, false))
    case Stale =>
      var served := Say(Drop(s, t), Answer(version, cached.value, s.now, false));
      if s.turn.Some? then served else Put(served, b, MustVerify(Background)).(turn := Some(b))
    case Rebuild => Put(s, t, WaitsTurn(Request(version, cached)))
  }

  /** The refresh of `t` returned `seed`; a request serves it as chosen at `at`. */
  function Finish(s: State, t: nat, caller: Caller, seed: Seed, at: nat): State {
    var done := Release(Drop(s, t));
    if caller.Request? then Say(done, Answer(caller.version, seed, at, false)) else done
  }

  function Apply(s: State, step: Step): State
    requires Enabled(s, step)
  {
    match step
    case TimePasses(d) => s.(now := s.now + d)
    case Bump => s.(version := s.version + 1)
    case Ask(t) => Put(s, t, Asked(s.version))
    case Clone(t) => Put(s, t, Cloned(s.tasks[t].version, s.cache))
    case Choose(t, b) => ChooseStep(s, t, b)
    case StartWarm(t) => Put(s, t, WaitsTurn(Warm))
    case TakeTurn(t) => Put(s, t, HasTurn(s.tasks[t].caller)).(turn := Some(t))
    case ReadVersion(t) => Put(s, t, Rechecks(s.tasks[t].caller, s.version))
    case LookAgain(t) =>
      var Rechecks(caller, version) := s.tasks[t];
      if SeedCacheUse(s.cache, version, s.now).Fresh? then Finish(s, t, caller, s.cache.value, s.now)
      else Put(s, t, MustVerify(caller))
    case BeginVerify(t) => Put(s, t, Verifying(s.tasks[t].caller, s.version))
    case VerifyOk(t, block) =>
      var seed := Seed(s.tasks[t].version, s.now, block);
      Put(s, t, Built(s.tasks[t].caller, seed)).(verified := s.verified + {seed})
    case VerifyFails(t) =>
      var caller := s.tasks[t].caller;
      Release(if caller.Request? then Put(s, t, RebuildFailed(caller.version, caller.cached)) else Drop(s, t))
    case Store(t) =>
      var Built(caller, seed) := s.tasks[t];
      Finish(s.(cache := Some(seed)), t, caller, seed, seed.builtAt)
    case FallBack(t) =>
      var RebuildFailed(version, cached) := s.tasks[t];
      if cached.Some? && s.now - cached.value.builtAt < SEED_STALE_MAX
      then Say(Drop(s, t), Answer(version, cached.value, s.now, true))
      else Drop(s, t)
    case Cancel(t) =>
      var gone := Drop(s, t);
      if s.turn == Some(t) then Release(gone) else gone
  }

  // ---- Invariant ------------------------------------------------------------------

  ghost predicate SeedOk(s: State, seed: Seed) {
    seed in s.verified && seed.builtAt <= s.now && seed.version <= s.version
  }

  ghost predicate CopyOk(s: State, cached: Option<Seed>) {
    cached.Some? ==> SeedOk(s, cached.value)
  }

  ghost predicate CallerOk(s: State, c: Caller) {
    c.Request? ==> c.version <= s.version && CopyOk(s, c.cached)
  }

  ghost predicate PhaseOk(s: State, p: Phase) {
    match p
    case Asked(v) => v <= s.version
    case Cloned(v, cached) => v <= s.version && CopyOk(s, cached)
    case WaitsTurn(c) => CallerOk(s, c)
    case HasTurn(c) => CallerOk(s, c)
    case Rechecks(c, v) => CallerOk(s, c) && v <= s.version && (c.Request? ==> c.version <= v)
    case MustVerify(c) => CallerOk(s, c)
    case Verifying(c, v) => CallerOk(s, c) && v <= s.version && (c.Request? ==> c.version <= v)
    case Built(c, seed) =>
      && CallerOk(s, c) && SeedOk(s, seed) && (c.Request? ==> c.version <= seed.version)
      && (s.cache.Some? ==> s.cache.value.builtAt <= seed.builtAt)
    case RebuildFailed(v, cached) => v <= s.version && CopyOk(s, cached)
  }

  /** What is promised of every copy that is served. */
  ghost predicate AnswerOk(s: State, a: Answer) {
    && a.seed in s.verified
    && a.seed.builtAt <= a.chosenAt < a.seed.builtAt + SEED_STALE_MAX
    && (a.seed.version < a.version ==> a.rebuildFailed)
  }

  ghost predicate PhasesOk(s: State) {
    CopyOk(s, s.cache) && forall t :: t in s.tasks ==> PhaseOk(s, s.tasks[t])
  }

  /** The lock's holder, and nobody else, is between taking and releasing it. */
  ghost predicate TurnOk(s: State) {
    && (forall t :: t in s.tasks && Holds(s.tasks[t]) ==> s.turn == Some(t))
    && (s.turn.Some? ==> s.turn.value in s.tasks && Holds(s.tasks[s.turn.value]))
  }

  ghost predicate AnswersOk(s: State) {
    forall i :: 0 <= i < |s.answers| ==> AnswerOk(s, s.answers[i])
  }

  ghost predicate Inv(s: State) {
    PhasesOk(s) && TurnOk(s) && AnswersOk(s)
  }

  /** Nothing a task relies on is taken back by other steps, except that only the
      holder of the lock replaces the cache. */
  lemma PhaseStaysOk(s: State, s': State, p: Phase)
    requires PhaseOk(s, p) && s.now <= s'.now && s.version <= s'.version && s.verified <= s'.verified
    requires p.Built? ==> s'.cache == s.cache
    ensures PhaseOk(s', p)
  {
  }

  /** The tasks a step leaves where they were keep what they rely on. */
  lemma OthersStayOk(s: State, step: Step)
    requires PhasesOk(s) && TurnOk(s) && Enabled(s, step)
    ensures forall t :: t in s.tasks && t in Apply(s, step).tasks && Apply(s, step).tasks[t] == s.tasks[t]
                        ==> PhaseOk(Apply(s, step), s.tasks[t])
  {
    var s' := Apply(s, step);
    forall t | t in s.tasks && t in s'.tasks && s'.tasks[t] == s.tasks[t]
      ensures PhaseOk(s', s.tasks[t])
    {
      PhaseStaysOk(s, s', s.tasks[t]);
    }
  }

  /** Steps of the holder of the lock. */
  predicate IsHoldersStep(step: Step) {
    step.ReadVersion? || step.LookAgain? || step.BeginVerify? || step.VerifyOk? || step.VerifyFails? || step.Store?
  }

  lemma HoldersStepKeepsPhases(s: State, step: Step)
    requires PhasesOk(s) && TurnOk(s) && Enabled(s, step) && IsHoldersStep(step)
    ensures PhasesOk(Apply(s, step))
  {
    OthersStayOk(s, step);
  }

  lemma OtherStepKeepsPhases(s: State, step: Step)
    requires PhasesOk(s) && TurnOk(s) && Enabled(s, step) && !IsHoldersStep(step)
    ensures PhasesOk(Apply(s, step))
  {
    OthersStayOk(s, step);
  }

  lemma StepKeepsPhases(s: State, step: Step)
    requires PhasesOk(s) && TurnOk(s) && Enabled(s, step)
    ensures PhasesOk(Apply(s, step))
  {
    if IsHoldersStep(step) {
      HoldersStepKeepsPhases(s, step);
    } else {
      OtherStepKeepsPhases(s, step);
    }
  }

  lemma StepKeepsTurn(s: State, step: Step)
    requires TurnOk(s) && Enabled(s, step)
    ensures TurnOk(Apply(s, step))
  {
  }

  lemma StepKeepsAnswers(s: State, step: Step)
    requires PhasesOk(s) && AnswersOk(s) && Enabled(s, step)
    ensures AnswersOk(Apply(s, step))
  {
  }

  lemma StepKeepsInv(s: State, step: Step)
    requires Inv(s) && Enabled(s, step)
    ensures Inv(Apply(s, step))
  {
    StepKeepsPhases(s, step);
    StepKeepsTurn(s, step);
    StepKeepsAnswers(s, step);
  }

  /** No step ever moves the cached copy's build time backwards. */
  lemma CacheNeverGoesBack(s: State, step: Step)
    requires Inv(s) && Enabled(s, step) && s.cache.Some?
    ensures Apply(s, step).cache.Some? && s.cache.value.builtAt <= Apply(s, step).cache.value.builtAt
  {
  }

  function Run(s: State, steps: seq<Step>): Option<State> {
    if steps == [] then Some(s)
    else
      var before := Run(s, steps[..|steps| - 1]);
      if before.Some? && Enabled(before.value, steps[|steps| - 1])
      then Some(Apply(before.value, steps[|steps| - 1]))
      else None
  }

  function Start(now: nat, version: nat): State {
    State(now, version, None, None, map[], {}, [])
  }

  /** In every run from the start: at most one verification runs; the cache holds only a
      verified copy; and every served copy was verified, was under five minutes old when
      chosen, and is of an older version than its request only after a failed rebuild. */
  lemma {:induction false} EveryRunIsSafe(now: nat, version: nat, steps: seq<Step>)
    requires Run(Start(now, version), steps).Some?
    ensures var s := Run(Start(now, version), steps).value;
            && Inv(s)
            && (forall t, u :: t in s.tasks && u in s.tasks && s.tasks[t].Verifying? && s.tasks[u].Verifying? ==>
                  t == u)
            && (s.cache.Some? ==> s.cache.value in s.verified)
            && (forall i :: 0 <= i < |s.answers| ==> AnswerOk(s, s.answers[i]))
  {
    if steps != [] {
      var butLast := steps[..|steps| - 1];
      EveryRunIsSafe(now, version, butLast);
      StepKeepsInv(Run(Start(now, version), butLast).value, steps[|steps| - 1]);
    }
  }

  // ---- Age while idle ---------------------------------------------------------------

  /** A request that comes now is served from the cache. */
  predicate Servable(s: State) {
    !SeedCacheUse(s.cache, s.version, s.now).Rebuild?
  }

  /** Nobody asks and nobody refreshes, and the cached copy is of the current version. */
  ghost predicate IsIdle(s: State) {
    && s.turn == None && s.tasks == map[] && s.cache.Some?
    && s.cache.value.version == s.version && s.cache.value.builtAt <= s.now
  }

  /** How long a tick's check takes, if it makes one, and how it ends. */
  datatype Tick = Tick(check: nat, passes: bool, block: nat)

  /** The warm loop's steps from one tick to the next, which comes an interval later, or
      as soon as a slower check is done. */
  function TickSteps(s: State, interval: nat, tick: Tick): seq<Step> {
    var rest := TimePasses(Max(interval - tick.check, 0));
    if IsFresh(s) then
      [StartWarm(0), TakeTurn(0), ReadVersion(0), LookAgain(0), TimePasses(interval)]
    else if tick.passes then
      [StartWarm(0), TakeTurn(0), ReadVersion(0), LookAgain(0), BeginVerify(0), TimePasses(tick.check),
       VerifyOk(0, tick.block), Store(0), rest]
    else
      [StartWarm(0), TakeTurn(0), ReadVersion(0), LookAgain(0), BeginVerify(0), TimePasses(tick.check),
       VerifyFails(0), rest]
  }

  /** Where they lead while nobody else does anything. */
  function NextTick(s: State, interval: nat, tick: Tick): State {
    if IsFresh(s) then s.(now := s.now + interval)
    else
      var later := s.(now := s.now + Max(interval, tick.check));
      if tick.passes then
        var seed := Seed(s.version, s.now + tick.check, tick.block);
        later.(cache := Some(seed), verified := s.verified + {seed})
      else later
  }

  function Idling(s: State, interval: nat, ticks: seq<Tick>): seq<Step>
    decreases |ticks|
  {
    if ticks == [] then []
    else TickSteps(s, interval, ticks[0]) + Idling(NextTick(s, interval, ticks[0]), interval, ticks[1..])
  }

  /** After every part of the run the cached copy is current and younger than `bound`. */
  ghost predicate AgesBelow(s: State, steps: seq<Step>, bound: int) {
    forall j :: 0 <= j <= |steps| ==> AgeBelow(Run(s, steps[..j]), bound)
  }

  predicate AgeBelow(s: Option<State>, bound: int) {
    && s.Some? && s.value.cache.Some? && s.value.cache.value.version == s.value.version
    && s.value.now - s.value.cache.value.builtAt < bound
  }

  /** A run that passes through these states. */
  ghost predicate Through(s: State, steps: seq<Step>, states: seq<State>) {
    && |states| == |steps| + 1 && states[0] == s
    && forall i :: 0 <= i < |steps| ==> Leads(states[i], steps[i], states[i + 1])
  }

  predicate Leads(s: State, step: Step, s': State) {
    Enabled(s, step) && s' == Apply(s, step)
  }

  lemma {:induction false} RunsThrough(s: State, steps: seq<Step>, states: seq<State>, j: nat)
    requires Through(s, steps, states) && j <= |steps|
    ensures Run(s, steps[..j]) == Some(states[j])
  {
    if j > 0 {
      RunsThrough(s, steps, states, j - 1);
      assert steps[..j][..j - 1] == steps[..j - 1];
      assert Leads(states[j - 1], steps[j - 1], states[j]);
    }
  }

  lemma {:induction false} RunJoin(s: State, a: seq<Step>, b: seq<Step>)
    requires Run(s, a).Some?
    ensures Run(s, a + b) == Run(Run(s, a).value, b)
  {
    if b == [] {
      assert a + b == a;
    } else {
      assert (a + b)[..|a + b| - 1] == a + b[..|b| - 1];
      RunJoin(s, a, b[..|b| - 1]);
    }
  }

  lemma RunLater(s: State, a: seq<Step>, b: seq<Step>, k: nat)
    requires Run(s, a).Some? && k <= |b|
    ensures Run(s, (a + b)[..|a| + k]) == Run(Run(s, a).value, b[..k])
  {
    assert (a + b)[..|a| + k] == a + b[..k];
    RunJoin(s, a, b[..k]);
  }

  lemma JoinedAgesBelow(s: State, a: seq<Step>, b: seq<Step>, bound: int)
    requires Run(s, a).Some? && AgesBelow(s, a, bound) && AgesBelow(Run(s, a).value, b, bound)
    ensures AgesBelow(s, a + b, bound)
  {
    forall j | 0 <= j <= |a + b|
      ensures AgeBelow(Run(s, (a + b)[..j]), bound)
    {
      if j <= |a| {
        assert (a + b)[..j] == a[..j];
      } else {
        RunLater(s, a, b, j - |a|);
      }
    }
  }

  // ---- What a request gets ------------------------------------------------------------

  /** A stale copy is served at once; and when nobody refreshes, it starts a refresh that,
      if its check passes, replaces the copy. */
  lemma StaleIsServedAndRefreshed(s: State, t: nat, b: nat, d: nat, block: nat)
    requires Enabled(s, Choose(t, b)) && t != b && s.turn == None
    requires SeedCacheUse(s.tasks[t].cached, s.tasks[t].version, s.now).Stale?
    ensures var run := Run(s, [Choose(t, b), BeginVerify(b), TimePasses(d)] + [VerifyOk(b, block), Store(b)]);
            && run.Some? && run.value.turn == None
            && run.value.cache == Some(Seed(s.version, s.now + d, block))
            && run.value.answers == s.answers + [Answer(s.tasks[t].version, s.tasks[t].cached.value, s.now, false)]
  {
    var first := [Choose(t, b), BeginVerify(b), TimePasses(d)];
    StaleRefreshes(s, t, b, d);
    TwoMore(s, first, Refreshing(s, t, b, d), VerifyOk(b, block), Store(b));
  }

  /** The copy was served, and the background task is about to end its check of `d`. */
  function Refreshing(s: State, t: nat, b: nat, d: nat): State
    requires t in s.tasks && s.tasks[t].Cloned? && s.tasks[t].cached.Some?
  {
    var served := Say(Drop(s, t), Answer(s.tasks[t].version, s.tasks[t].cached.value, s.now, false));
    Put(served, b, Verifying(Background, s.version)).(turn := Some(b), now := s.now + d)
  }

  lemma StaleRefreshes(s: State, t: nat, b: nat, d: nat)
    requires Enabled(s, Choose(t, b)) && t != b && s.turn == None
    requires SeedCacheUse(s.tasks[t].cached, s.tasks[t].version, s.now).Stale?
    ensures Run(s, [Choose(t, b), BeginVerify(b), TimePasses(d)]) == Some(Refreshing(s, t, b, d))
  {
    var steps := [Choose(t, b), BeginVerify(b), TimePasses(d)];
    var served := Say(Drop(s, t), Answer(s.tasks[t].version, s.tasks[t].cached.value, s.now, false));
    var own := served.(turn := Some(b));
    var states :=
      [s, Put(own, b, MustVerify(Background)), Put(own, b, Verifying(Background, s.version)), Refreshing(s, t, b, d)];
    Reput(own, b, MustVerify(Background), Verifying(Background, s.version));
    assert Leads(states[0], steps[0], states[1]) && Leads(states[1], steps[1], states[2]);
    assert Leads(states[2], steps[2], states[3]);
    RunsThrough(s, steps, states, 3);
    assert steps[..3] == steps;
  }

  lemma Reput(s: State, t: nat, p: Phase, q: Phase)
    ensures Put(Put(s, t, p), t, q) == Put(s, t, q)
  {
    assert s.tasks[t := p][t := q] == s.tasks[t := q];
  }

  /** The steps of a request that has to wait for a check of `d`. */
  function RebuildSteps(t: nat, b: nat, d: nat): seq<Step> {
    [Choose(t, b), TakeTurn(t), ReadVersion(t), LookAgain(t), BeginVerify(t), TimePasses(d)]
  }

  /** The state in which its check is about to end. */
  function Rebuilding(s: State, t: nat, d: nat): State
    requires t in s.tasks && s.tasks[t].Cloned?
  {
    Put(s, t, Verifying(Request(s.tasks[t].version, s.tasks[t].cached), s.version)).(turn := Some(t), now := s.now + d)
  }

  lemma RebuildsThrough(s: State, t: nat, b: nat, d: nat)
    requires Enabled(s, Choose(t, b)) && s.turn == None && !IsFresh(s)
    requires SeedCacheUse(s.tasks[t].cached, s.tasks[t].version, s.now).Rebuild?
    ensures Run(s, RebuildSteps(t, b, d)) == Some(Rebuilding(s, t, d))
  {
    var steps, states := RebuildSteps(t, b, d), RebuildStates(s, t, d);
    RebuildBegins(s, t, b, d);
    RebuildChecks(s, t, d);
    RunsThrough(s, steps, states, 6);
    assert steps[..6] == steps;
  }

  function RebuildStates(s: State, t: nat, d: nat): seq<State>
    requires t in s.tasks && s.tasks[t].Cloned?
  {
    var caller, own := Request(s.tasks[t].version, s.tasks[t].cached), s.(turn := Some(t));
    [s, Put(s, t, WaitsTurn(caller)), Put(own, t, HasTurn(caller)), Put(own, t, Rechecks(caller, s.version)),
     Put(own, t, MustVerify(caller)), Put(own, t, Verifying(caller, s.version)), Rebuilding(s, t, d)]
  }

  lemma RebuildBegins(s: State, t: nat, b: nat, d: nat)
    requires Enabled(s, Choose(t, b)) && s.turn == None
    requires SeedCacheUse(s.tasks[t].cached, s.tasks[t].version, s.now).Rebuild?
    ensures var states := RebuildStates(s, t, d);
            && Leads(states[0], Choose(t, b), states[1]) && Leads(states[1], TakeTurn(t), states[2])
            && Leads(states[2], ReadVersion(t), states[3])
  {
    var caller, own := Request(s.tasks[t].version, s.tasks[t].cached), s.(turn := Some(t));
    Reput(s, t, WaitsTurn(caller), HasTurn(caller));
    Reput(own, t, HasTurn(caller), Rechecks(caller, s.version));
  }

  lemma RebuildChecks(s: State, t: nat, d: nat)
    requires t in s.tasks && s.tasks[t].Cloned? && !IsFresh(s)
    ensures var states := RebuildStates(s, t, d);
            && Leads(states[3], LookAgain(t), states[4]) && Leads(states[4], BeginVerify(t), states[5])
            && Leads(states[5], TimePasses(d), states[6])
  {
    var caller, own := Request(s.tasks[t].version, s.tasks[t].cached), s.(turn := Some(t));
    Reput(own, t, Rechecks(caller, s.version), MustVerify(caller));
    Reput(own, t, MustVerify(caller), Verifying(caller, s.version));
  }

  /** A request that needs a rebuild gets the copy it builds. */
  lemma RebuildIsServed(s: State, t: nat, b: nat, d: nat, block: nat)
    requires Enabled(s, Choose(t, b)) && s.turn == None && !IsFresh(s)
    requires SeedCacheUse(s.tasks[t].cached, s.tasks[t].version, s.now).Rebuild?
    ensures var run, seed := Run(s, RebuildSteps(t, b, d) + [VerifyOk(t, block), Store(t)]),
                             Seed(s.version, s.now + d, block);
            && run.Some? && run.value.cache == Some(seed) && run.value.turn == None
            && run.value.answers == s.answers + [Answer(s.tasks[t].version, seed, s.now + d, false)]
  {
    RebuildsThrough(s, t, b, d);
    TwoMore(s, RebuildSteps(t, b, d), Rebuilding(s, t, d), VerifyOk(t, block), Store(t));
  }

  /** If its check fails it gets the older copy it saw, exactly when there was one that is
      then still under 300 s old. */
  lemma FailedRebuildIsServedExactly(s: State, t: nat, b: nat, d: nat)
    requires Enabled(s, Choose(t, b)) && s.turn == None && !IsFresh(s)
    requires SeedCacheUse(s.tasks[t].cached, s.tasks[t].version, s.now).Rebuild?
    ensures var run, older := Run(s, RebuildSteps(t, b, d) + [VerifyFails(t), FallBack(t)]), s.tasks[t].cached;
            && run.Some? && run.value.cache == s.cache && run.value.turn == None
            && run.value.answers
               == if older.Some? && s.now + d - older.value.builtAt < SEED_STALE_MAX
                  then s.answers + [Answer(s.tasks[t].version, older.value, s.now + d, true)]
                  else s.answers
  {
    RebuildsThrough(s, t, b, d);
    TwoMore(s, RebuildSteps(t, b, d), Rebuilding(s, t, d), VerifyFails(t), FallBack(t));
  }

  lemma TwoMore(s: State, steps: seq<Step>, mid: State, one: Step, two: Step)
    requires Run(s, steps) == Some(mid) && Enabled(mid, one) && Enabled(Apply(mid, one), two)
    ensures Run(s, steps + [one, two]) == Some(Apply(Apply(mid, one), two))
  {
    assert (steps + [one, two])[..|steps| + 1] == steps + [one];
    assert (steps + [one])[..|steps|] == steps;
  }

  /** The cache is as at `s`, at the time `now`. */
  predicate CacheOf(r: State, s: State, now: nat) {
    r.cache == s.cache && r.version == s.version && r.now == now
  }

  /** The states of a tick, up to its second look at the cache. */
  function Begun(s: State): seq<State> {
    [s, Put(s, 0, WaitsTurn(Warm)), Put(s, 0, HasTurn(Warm)).(turn := Some(0)),
     Put(s, 0, Rechecks(Warm, s.version)).(turn := Some(0))]
  }

  lemma TickBegins(s: State)
    requires IsIdle(s)
    ensures Leads(s, StartWarm(0), Begun(s)[1]) && Leads(Begun(s)[1], TakeTurn(0), Begun(s)[2])
    ensures Leads(Begun(s)[2], ReadVersion(0), Begun(s)[3])
    ensures IsFresh(s) ==> Leads(Begun(s)[3], LookAgain(0), s)
    ensures !IsFresh(s) ==> Leads(Begun(s)[3], LookAgain(0), Put(s, 0, MustVerify(Warm)).(turn := Some(0)))
  {
    assert Apply(Begun(s)[1], TakeTurn(0)) == Begun(s)[2];
    assert Apply(Begun(s)[2], ReadVersion(0)) == Begun(s)[3];
    assert Begun(s)[3].tasks - {0} == s.tasks;
  }

  lemma FreshTick(s: State, interval: nat, tick: Tick) returns (states: seq<State>)
    requires IsIdle(s) && IsFresh(s)
    ensures Through(s, TickSteps(s, interval, tick), states)
    ensures |states| == 6 && states[5] == NextTick(s, interval, tick)
    ensures forall i :: 0 <= i < 5 ==> CacheOf(states[i], s, s.now)
  {
    TickBegins(s);
    states := Begun(s) + [s, NextTick(s, interval, tick)];
    assert Leads(s, TimePasses(interval), states[5]);
  }

  /** The states of a check, from its beginning to its end. */
  function Checked(s: State, check: nat): seq<State> {
    [Put(s, 0, MustVerify(Warm)).(turn := Some(0)), Put(s, 0, Verifying(Warm, s.version)).(turn := Some(0)),
     Put(s, 0, Verifying(Warm, s.version)).(turn := Some(0), now := s.now + check)]
  }

  lemma TickChecks(s: State, check: nat)
    requires IsIdle(s)
    ensures Leads(Checked(s, check)[0], BeginVerify(0), Checked(s, check)[1])
    ensures Leads(Checked(s, check)[1], TimePasses(check), Checked(s, check)[2])
  {
    assert Apply(Checked(s, check)[0], BeginVerify(0)) == Checked(s, check)[1];
  }

  lemma TickFails(s: State, check: nat)
    requires IsIdle(s)
    ensures Leads(Checked(s, check)[2], VerifyFails(0), s.(now := s.now + check))
  {
    assert Checked(s, check)[2].tasks - {0} == s.tasks;
  }

  lemma FailingTick(s: State, interval: nat, tick: Tick) returns (states: seq<State>)
    requires IsIdle(s) && !IsFresh(s) && !tick.passes
    ensures Through(s, TickSteps(s, interval, tick), states)
    ensures |states| == 9 && states[8] == NextTick(s, interval, tick)
    ensures forall i :: 0 <= i < 6 ==> CacheOf(states[i], s, s.now)
    ensures forall i :: 6 <= i < 8 ==> CacheOf(states[i], s, s.now + tick.check)
  {
    TickBegins(s);
    TickChecks(s, tick.check);
    TickFails(s, tick.check);
    states := Begun(s) + Checked(s, tick.check) + [s.(now := s.now + tick.check), NextTick(s, interval, tick)];
    assert Leads(states[7], TimePasses(Max(interval - tick.check, 0)), states[8]);
  }

  /** The state in which a check has passed and its copy is not yet stored. */
  function Passed(s: State, tick: Tick): State {
    var seed := Seed(s.version, s.now + tick.check, tick.block);
    Put(s, 0, Built(Warm, seed)).(turn := Some(0), now := s.now + tick.check, verified := s.verified + {seed})
  }

  lemma TickPasses(s: State, tick: Tick)
    requires IsIdle(s) && !IsFresh(s) && tick.passes
    ensures Leads(Checked(s, tick.check)[2], VerifyOk(0, tick.block), Passed(s, tick))
    ensures Leads(Passed(s, tick), Store(0), NextTick(s, 0, tick))
  {
    assert Apply(Checked(s, tick.check)[2], VerifyOk(0, tick.block)) == Passed(s, tick);
    assert Passed(s, tick).tasks - {0} == s.tasks;
  }

  lemma PassingTick(s: State, interval: nat, tick: Tick) returns (states: seq<State>)
    requires IsIdle(s) && !IsFresh(s) && tick.passes
    ensures Through(s, TickSteps(s, interval, tick), states)
    ensures |states| == 10 && states[9] == NextTick(s, interval, tick)
    ensures forall i :: 0 <= i < 6 ==> CacheOf(states[i], s, s.now)
    ensures forall i :: 6 <= i < 8 ==> CacheOf(states[i], s, s.now + tick.check)
    ensures CacheOf(states[8], NextTick(s, interval, tick), s.now + tick.check)
  {
    TickBegins(s);
    TickChecks(s, tick.check);
    TickPasses(s, tick);
    states := Begun(s) + Checked(s, tick.check) + [Passed(s, tick), NextTick(s, 0, tick), NextTick(s, interval, tick)];
    assert Leads(states[8], TimePasses(Max(interval - tick.check, 0)), states[9]);
  }

  /** The tick's steps can be taken and lead to the next tick; on the way the old copy gets
      no older than the check or the wait makes it. */
  lemma OneTick(s: State, interval: nat, tick: Tick, bound: int)
    requires IsIdle(s)
    requires IsFresh(s) || !tick.passes ==> Age(NextTick(s, interval, tick)) < bound
    requires !IsFresh(s) ==> Age(s) + tick.check < bound && interval < bound
    ensures Run(s, TickSteps(s, interval, tick)) == Some(NextTick(s, interval, tick))
    ensures IsIdle(NextTick(s, interval, tick)) && AgesBelow(s, TickSteps(s, interval, tick), bound)
  {
    var steps := TickSteps(s, interval, tick);
    var states;
    if IsFresh(s) {
      states := FreshTick(s, interval, tick);
    } else if tick.passes {
      states := PassingTick(s, interval, tick);
    } else {
      states := FailingTick(s, interval, tick);
    }
    forall j | 0 <= j <= |steps|
      ensures AgeBelow(Run(s, steps[..j]), bound)
    {
      RunsThrough(s, steps, states, j);
    }
    RunsThrough(s, steps, states, |steps|);
    assert steps[..|steps|] == steps;
  }

  predicate IsFresh(s: State) {
    SeedCacheUse(s.cache, s.version, s.now).Fresh?
  }

  function Age(s: State): int {
    if s.cache.Some? then s.now - s.cache.value.builtAt else 0
  }

  ghost predicate ChecksWithin(ticks: seq<Tick>, longest: nat) {
    forall i :: 0 <= i < |ticks| ==> ticks[i].check <= longest
  }

  /** After `already` failures in a row, there are never more than `most` in a row. */
  ghost predicate FewFailures(ticks: seq<Tick>, already: nat, most: nat) {
    && already <= most
    && (ticks != [] ==> FewFailures(ticks[1..], if ticks[0].passes then 0 else already + 1, most))
  }

  /** How old the copy may be at a tick that follows `failures` failed ones. */
  function AgeAtTick(interval: nat, longest: nat, failures: nat): nat {
    interval + SEED_CACHE_TTL + failures * Max(interval, longest)
  }

  lemma AgeAtTickGrows(interval: nat, longest: nat, failures: nat, more: nat)
    requires failures <= more
    ensures AgeAtTick(interval, longest, failures) <= AgeAtTick(interval, longest, more)
    ensures AgeAtTick(interval, longest, failures + 1)
         == AgeAtTick(interval, longest, failures) + Max(interval, longest)
  {
    var p: nat := Max(interval, longest);
    assert more * p == failures * p + (more - failures) * p;
    assert (failures + 1) * p == failures * p + p;
  }

  /** With no membership change, checks of at most `longest` and at most `most` failed ones
      in a row, the copy's age stays below interval + 30 s + longest, plus the longer of
      interval and check for each failure, for ever. */
  lemma {:induction false} IdleAgeIsBounded(
    s: State, interval: nat, ticks: seq<Tick>, longest: nat, already: nat, most: nat)
    requires IsIdle(s) && Age(s) < AgeAtTick(interval, longest, already)
    requires ChecksWithin(ticks, longest) && FewFailures(ticks, already, most)
    ensures AgesBelow(s, Idling(s, interval, ticks), AgeAtTick(interval, longest, most) + longest)
    decreases |ticks|
  {
    var bound := AgeAtTick(interval, longest, most) + longest;
    AgeAtTickGrows(interval, longest, already, most);
    if ticks != [] {
      var tick, rest := ticks[0], ticks[1..];
      var next := NextTick(s, interval, tick);
      var failures := if tick.passes then 0 else already + 1;
      AgeAtTickGrows(interval, longest, 0, failures);
      AgeAtTickGrows(interval, longest, failures, most);
      OneTick(s, interval, tick, bound);
      IdleAgeIsBounded(next, interval, rest, longest, failures, most);
      JoinedAgesBelow(s, TickSteps(s, interval, tick), Idling(next, interval, rest), bound);
    }
  }

  /** After every part of the run a request would be served from the cache. */
  ghost predicate StaysServable(s: State, steps: seq<Step>) {
    forall j :: 0 <= j <= |steps| ==> Run(s, steps[..j]).Some? && Servable(Run(s, steps[..j]).value)
  }

  /** So an idle indexer whose checks fail at most `most` times in a row keeps its copy
      servable exactly when the bound is no more than 300 s. The copy may have been built
      by anybody at any moment since the tick before. */
  lemma IdleCopyStaysServableExactly(interval: nat, longest: nat, most: nat)
    requires interval > 0
    ensures AgeAtTick(interval, longest, most) + longest <= SEED_STALE_MAX
       <==> forall s: State, ticks: seq<Tick> ::
              IsIdle(s) && Age(s) < SEED_CACHE_TTL + interval && ChecksWithin(ticks, longest)
              && FewFailures(ticks, 0, most) ==>
                StaysServable(s, Idling(s, interval, ticks))
  {
    var bound := AgeAtTick(interval, longest, most) + longest;
    if bound <= SEED_STALE_MAX {
      forall s: State, ticks: seq<Tick> |
        IsIdle(s) && Age(s) < SEED_CACHE_TTL + interval && ChecksWithin(ticks, longest)
        && FewFailures(ticks, 0, most)
        ensures StaysServable(s, Idling(s, interval, ticks))
      {
        IdleAgeIsBounded(s, interval, ticks, longest, 0, most);
        var steps := Idling(s, interval, ticks);
        forall j | 0 <= j <= |steps|
          ensures Run(s, steps[..j]).Some? && Servable(Run(s, steps[..j]).value)
        {
          assert AgeBelow(Run(s, steps[..j]), bound);
        }
      }
    } else {
      // A copy built 30 s minus a moment before a tick is skipped by that tick.
      var ticks := [Tick(0, true, 0)] + FailuresThenOne(longest, most);
      FewFailuresFirst(longest, most, 0);
      assert ticks[1..] == FailuresThenOne(longest, most);
      var j := SkippedThenFailing(interval, longest, most);
    }
  }

  /** A copy built 30 s minus a moment ago. */
  function JustFresh(): State {
    State(SEED_CACHE_TTL - 1, 0, Some(Seed(0, 0, 0)), None, map[], {Seed(0, 0, 0)}, [])
  }

  /** `n` failing checks and a passing one. */
  function FailuresThenOne(longest: nat, n: nat): seq<Tick> {
    if n == 0 then [Tick(longest, true, 0)] else [Tick(longest, false, 0)] + FailuresThenOne(longest, n - 1)
  }

  lemma {:induction false} FewFailuresFirst(longest: nat, n: nat, already: nat)
    ensures ChecksWithin(FailuresThenOne(longest, n), longest)
    ensures FewFailures(FailuresThenOne(longest, n), already, already + n)
  {
    var ticks := FailuresThenOne(longest, n);
    if n > 0 {
      FewFailuresFirst(longest, n - 1, already + 1);
      assert ticks[1..] == FailuresThenOne(longest, n - 1);
    } else {
      assert ticks[1..] == [];
    }
  }

  lemma LastCheckOutlives(s: State, interval: nat, tick: Tick) returns (j: nat)
    requires IsIdle(s) && !IsFresh(s) && tick.passes && Age(s) + tick.check >= SEED_STALE_MAX
    ensures j <= |Idling(s, interval, [tick])|
    ensures var mid := Run(s, Idling(s, interval, [tick])[..j]); mid.Some? && !Servable(mid.value)
  {
    var states := PassingTick(s, interval, tick);
    j := 6;
    RunsThrough(s, TickSteps(s, interval, tick), states, j);
    assert Idling(s, interval, [tick])[..j] == TickSteps(s, interval, tick)[..j];
  }

  lemma FailingTickRuns(s: State, interval: nat, tick: Tick)
    requires IsIdle(s) && !IsFresh(s) && !tick.passes
    ensures Run(s, TickSteps(s, interval, tick)) == Some(NextTick(s, interval, tick))
  {
    var states := FailingTick(s, interval, tick);
    RunsThrough(s, TickSteps(s, interval, tick), states, 8);
    assert TickSteps(s, interval, tick)[..8] == TickSteps(s, interval, tick);
  }

  /** While checks fail the old copy stays, so it outlives the last check. */
  lemma {:induction false} FailingTicksAge(s: State, interval: nat, longest: nat, n: nat) returns (j: nat)
    requires IsIdle(s) && !IsFresh(s) && Age(s) + n * Max(interval, longest) + longest >= SEED_STALE_MAX
    ensures var steps := Idling(s, interval, FailuresThenOne(longest, n));
            j <= |steps| && Run(s, steps[..j]).Some? && !Servable(Run(s, steps[..j]).value)
    decreases n
  {
    if n == 0 {
      j := LastCheckOutlives(s, interval, Tick(longest, true, 0));
    } else {
      var tick := Tick(longest, false, 0);
      AgeAfterFailure(s, interval, longest, n);
      var k := FailingTicksAge(NextTick(s, interval, tick), interval, longest, n - 1);
      j := FailureFirst(s, interval, tick, FailuresThenOne(longest, n - 1), k);
    }
  }

  lemma AgeAfterFailure(s: State, interval: nat, longest: nat, n: nat)
    requires IsIdle(s) && !IsFresh(s) && n > 0
    ensures var next := NextTick(s, interval, Tick(longest, false, 0));
            && IsIdle(next) && !IsFresh(next)
            && Age(next) + (n - 1) * Max(interval, longest) == Age(s) + n * Max(interval, longest)
  {
    var p: nat := Max(interval, longest);
    assert n * p == (n - 1) * p + p;
  }

  lemma FailureFirst(s: State, interval: nat, tick: Tick, rest: seq<Tick>, k: nat) returns (j: nat)
    requires IsIdle(s) && !IsFresh(s) && !tick.passes
    requires k <= |Idling(NextTick(s, interval, tick), interval, rest)|
    ensures j <= |Idling(s, interval, [tick] + rest)|
    ensures Run(s, Idling(s, interval, [tick] + rest)[..j])
         == Run(NextTick(s, interval, tick), Idling(NextTick(s, interval, tick), interval, rest)[..k])
  {
    FailingTickRuns(s, interval, tick);
    assert ([tick] + rest)[1..] == rest;
    var first := TickSteps(s, interval, tick);
    j := |first| + k;
    RunLater(s, first, Idling(NextTick(s, interval, tick), interval, rest), k);
  }

  lemma SkippedThenFailing(interval: nat, longest: nat, n: nat) returns (j: nat)
    requires interval > 0 && AgeAtTick(interval, longest, n) + longest > SEED_STALE_MAX
    ensures var steps := Idling(JustFresh(), interval, [Tick(0, true, 0)] + FailuresThenOne(longest, n));
            && j <= |steps| && Run(JustFresh(), steps[..j]).Some?
            && !Servable(Run(JustFresh(), steps[..j]).value)
  {
    var s, tick, rest := JustFresh(), Tick(0, true, 0), FailuresThenOne(longest, n);
    var first, next := TickSteps(s, interval, tick), NextTick(s, interval, tick);
    assert ([tick] + rest)[1..] == rest;
    var states := FreshTick(s, interval, tick);
    RunsThrough(s, first, states, 5);
    assert first[..5] == first;
    var k := FailingTicksAge(next, interval, longest, n);
    j := |first| + k;
    RunLater(s, first, Idling(next, interval, rest), k);
  }

  /** The configuration allows intervals that break the bound: at 299 s, with instant
      checks that all pass, a process that has just started comes to have a copy that is
      not servable. */
  lemma AllowedIntervalsCanBreakIt() returns (steps: seq<Step>)
    ensures steps <= FirstCopy() + Idling(JustFresh(), 299 * SECOND, [Tick(0, true, 0), Tick(0, true, 0)])
    ensures Run(Start(0, 0), steps).Some? && Run(Start(0, 0), steps).value.cache.Some?
    ensures !Servable(Run(Start(0, 0), steps).value)
  {
    FirstCopyIsMade();
    var j := SkippedThenFailing(299 * SECOND, 0, 0);
    var later := Idling(JustFresh(), 299 * SECOND, [Tick(0, true, 0), Tick(0, true, 0)]);
    assert [Tick(0, true, 0)] + FailuresThenOne(0, 0) == [Tick(0, true, 0), Tick(0, true, 0)];
    steps := FirstCopy() + later[..j];
    RunJoin(Start(0, 0), FirstCopy(), later[..j]);
    StaysCached(JustFresh(), later[..j]);
  }

  function FirstCopy(): seq<Step> {
    [StartWarm(0), TakeTurn(0), ReadVersion(0), LookAgain(0), BeginVerify(0), VerifyOk(0, 0), Store(0),
     TimePasses(SEED_CACHE_TTL - 1)]
  }

  lemma FirstCopyIsMade()
    ensures Run(Start(0, 0), FirstCopy()) == Some(JustFresh())
  {
    var s, seed := Start(0, 0), Seed(0, 0, 0);
    var own := s.(turn := Some(0));
    var stored := s.(cache := Some(seed), verified := {seed});
    var states :=
      [s, Put(s, 0, WaitsTurn(Warm)), Put(own, 0, HasTurn(Warm)), Put(own, 0, Rechecks(Warm, 0)),
       Put(own, 0, MustVerify(Warm)), Put(own, 0, Verifying(Warm, 0)),
       Put(own, 0, Built(Warm, seed)).(verified := {seed}), stored, JustFresh()];
    assert states[6].tasks - {0} == s.tasks;
    forall i | 0 <= i < 8
      ensures Leads(states[i], FirstCopy()[i], states[i + 1])
    {
      assert i < 6 ==> (i == 0 || Apply(states[i], FirstCopy()[i]).tasks == states[i + 1].tasks);
    }
    RunsThrough(s, FirstCopy(), states, 8);
    assert FirstCopy()[..8] == FirstCopy();
  }

  /** No step empties the cache. */
  lemma {:induction false} StaysCached(s: State, steps: seq<Step>)
    requires s.cache.Some? && Run(s, steps).Some?
    ensures Run(s, steps).value.cache.Some?
  {
    if steps != [] {
      StaysCached(s, steps[..|steps| - 1]);
    }
  }
}
