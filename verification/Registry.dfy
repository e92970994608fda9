/** Registry membership as a replay of on-chain events, and what a stored member
    set must satisfy for a resumed replay to end where a full replay ends.

    Block ranges are half open: `Logs(blocks, lo, hi)` are the logs of blocks
    lo, ..., hi - 1. A checkpoint at block c therefore reads as `next == c + 1`. */
module Registry {
  import opened Wrappers

  type Address = nat
  type Members = set<Address>

  datatype Event =
    | Registered(address: Address)
    | ProfileChanged(address: Address)
    | Removed(address: Address)
    | Unstaked(address: Address, amount: nat)

  type Blocks<!T> = nat -> seq<T>

  /** The logs of blocks lo, ..., hi - 1 in chain order. */
  function Logs<T>(blocks: Blocks<T>, lo: nat, hi: nat): seq<T> {
    if hi <= lo then [] else Logs(blocks, lo, hi - 1) + blocks(hi - 1)
  }

  lemma {:induction false} LogsSplit<T>(blocks: Blocks<T>, lo: nat, mid: nat, hi: nat)
    requires lo <= mid <= hi
    ensures Logs(blocks, lo, hi) == Logs(blocks, lo, mid) + Logs(blocks, mid, hi)
  {
    if mid < hi {
      LogsSplit(blocks, lo, mid, hi - 1);
      assert Logs(blocks, lo, hi) == Logs(blocks, lo, mid) + (Logs(blocks, mid, hi - 1) + blocks(hi - 1));
    }
  }

  /** What one event does to a replayed member set. */
  function Apply(members: Members, e: Event): Members {
    match e
    case Registered(a) => members + {a}
    case Removed(a) => members - {a}
    case Unstaked(a, _) => members - {a}
    case ProfileChanged(_) => members
  }

  function Replay(members: Members, events: seq<Event>): Members {
    if events == [] then members
    else Apply(Replay(members, events[..|events| - 1]), events[|events| - 1])
  }

  lemma {:induction false} ReplaySplit(members: Members, first: seq<Event>, second: seq<Event>)
    ensures Replay(members, first + second) == Replay(Replay(members, first), second)
  {
    if second == [] {
      assert first + second == first;
    } else {
      var butLast := second[..|second| - 1];
      assert (first + second)[..|first + second| - 1] == first + butLast;
      ReplaySplit(members, first, butLast);
    }
  }

  lemma ReplayNext(blocks: Blocks<Event>, base: Members, from: nat, mid: nat, hi: nat)
    requires from <= mid <= hi
    ensures Replay(base, Logs(blocks, from, hi)) == Replay(Replay(base, Logs(blocks, from, mid)), Logs(blocks, mid, hi))
  {
    LogsSplit(blocks, from, mid, hi);
    ReplaySplit(base, Logs(blocks, from, mid), Logs(blocks, mid, hi));
  }

  // ---- Last event wins ------------------------------------------------------

  /** No event of `events` can change whether `a` is a member. */
  ghost predicate Untouched(a: Address, events: seq<Event>) {
    forall e :: e in events && e.address == a ==> e.ProfileChanged?
  }

  /** What the last membership event about `a` says, if there is one. */
  function LastWord(a: Address, events: seq<Event>): Option<bool> {
    if events == [] then None
    else
      var e := events[|events| - 1];
      if e.address == a && !e.ProfileChanged? then Some(e.Registered?)
      else LastWord(a, events[..|events| - 1])
  }

  lemma {:induction false} LastEventWins(a: Address, members: Members, events: seq<Event>)
    ensures LastWord(a, events) == None <==> Untouched(a, events)
    ensures a in Replay(members, events) <==> LastWord(a, events).GetOr(a in members)
  {
    if events != [] {
      var butLast, e := events[..|events| - 1], events[|events| - 1];
      LastEventWins(a, members, butLast);
      assert events == butLast + [e];
      assert e in events;
    }
  }

  lemma UntouchedSplit(a: Address, first: seq<Event>, second: seq<Event>)
    ensures Untouched(a, first + second) <==> Untouched(a, first) && Untouched(a, second)
  {
    assert forall e :: e in first + second <==> e in first || e in second;
  }

  // ---- Resuming from a stored set -------------------------------------------

  /** The members after a replay of every block from `deploy` below `next`. */
  function Full(blocks: Blocks<Event>, deploy: nat, next: nat): Members {
    Replay({}, Logs(blocks, deploy, next))
  }

  lemma FullSplit(blocks: Blocks<Event>, deploy: nat, mid: nat, hi: nat)
    requires deploy <= mid <= hi
    ensures Full(blocks, deploy, hi) == Replay(Full(blocks, deploy, mid), Logs(blocks, mid, hi))
  {
    ReplayNext(blocks, {}, deploy, mid, hi);
  }

  /** An address untouched in [mid, hi) is a member at hi exactly if it was one at mid. */
  lemma UntouchedKeepsMembership(blocks: Blocks<Event>, deploy: nat, mid: nat, hi: nat, a: Address)
    requires deploy <= mid <= hi
    requires Untouched(a, Logs(blocks, mid, hi))
    ensures a in Full(blocks, deploy, hi) <==> a in Full(blocks, deploy, mid)
  {
    FullSplit(blocks, deploy, mid, hi);
    LastEventWins(a, Full(blocks, deploy, mid), Logs(blocks, mid, hi));
  }

  /** `stored` is right wherever the events of [next, horizon) do not decide. */
  ghost predicate Good(blocks: Blocks<Event>, deploy: nat, stored: Members, next: nat, horizon: nat) {
    && deploy <= next <= horizon
    && forall a :: Untouched(a, Logs(blocks, next, horizon)) ==>
                     (a in stored <==> a in Full(blocks, deploy, next))
  }

  /** A resumed replay ends in the full replay's set if and only if the stored set
      agrees with the full replay at the checkpoint on every address the replayed
      events leave alone. */
  lemma ResumeIsFullReplay(blocks: Blocks<Event>, deploy: nat, stored: Members, next: nat, hi: nat)
    requires deploy <= next <= hi
    ensures Replay(stored, Logs(blocks, next, hi)) == Full(blocks, deploy, hi)
       <==> Good(blocks, deploy, stored, next, hi)
  {
    var events := Logs(blocks, next, hi);
    FullSplit(blocks, deploy, next, hi);
    forall a
      ensures (a in Replay(stored, events) <==> a in Full(blocks, deploy, hi))
         <==> (Untouched(a, events) ==> (a in stored <==> a in Full(blocks, deploy, next)))
    {
      LastEventWins(a, stored, events);
      LastEventWins(a, Full(blocks, deploy, next), events);
    }
  }

  lemma GoodExtends(blocks: Blocks<Event>, deploy: nat, stored: Members, next: nat, horizon: nat, later: nat)
    requires Good(blocks, deploy, stored, next, horizon) && horizon <= later
    ensures Good(blocks, deploy, stored, next, later)
  {
    LogsSplit(blocks, next, horizon, later);
    forall a | Untouched(a, Logs(blocks, next, later))
      ensures a in stored <==> a in Full(blocks, deploy, next)
    {
      UntouchedSplit(a, Logs(blocks, next, horizon), Logs(blocks, horizon, later));
    }
  }

  /** A set that can be resumed from a block can be resumed from any earlier one. */
  lemma GoodEarlier(blocks: Blocks<Event>, deploy: nat, stored: Members, earlier: nat, next: nat, horizon: nat)
    requires Good(blocks, deploy, stored, next, horizon) && deploy <= earlier <= next
    ensures Good(blocks, deploy, stored, earlier, horizon)
  {
    LogsSplit(blocks, earlier, next, horizon);
    forall a | Untouched(a, Logs(blocks, earlier, horizon))
      ensures a in stored <==> a in Full(blocks, deploy, earlier)
    {
      UntouchedSplit(a, Logs(blocks, earlier, next), Logs(blocks, next, horizon));
      UntouchedKeepsMembership(blocks, deploy, earlier, next, a);
    }
  }

  /** Replaying part of the way to the horizon keeps a set resumable. */
  lemma ReplayKeepsGood(blocks: Blocks<Event>, deploy: nat, stored: Members, next: nat, mid: nat, horizon: nat)
    requires Good(blocks, deploy, stored, next, horizon) && next <= mid <= horizon
    ensures Good(blocks, deploy, Replay(stored, Logs(blocks, next, mid)), mid, horizon)
  {
    var events := Logs(blocks, next, mid);
    LogsSplit(blocks, next, mid, horizon);
    FullSplit(blocks, deploy, next, mid);
    forall a | Untouched(a, Logs(blocks, mid, horizon))
      ensures a in Replay(stored, events) <==> a in Full(blocks, deploy, mid)
    {
      UntouchedSplit(a, events, Logs(blocks, mid, horizon));
      LastEventWins(a, stored, events);
      LastEventWins(a, Full(blocks, deploy, next), events);
    }
  }

  // ---- The live loop --------------------------------------------------------

  /** How the live loop handled one event: the writes went through, with the
      profile read after block `readAt`; or a read or write failed and the event
      was dropped. */
  datatype Handling = Done(readAt: nat) | Lost

  /** One live event. A registration or profile change is taken from the profile at
      the latest block, not from the event; a missing profile changes nothing. */
  function LiveApply(blocks: Blocks<Event>, deploy: nat, members: Members, e: Event, how: Handling): Members {
    if how.Lost? then members
    else match e
      case Registered(a) => if a in Full(blocks, deploy, how.readAt + 1) then members + {a} else members
      case ProfileChanged(a) => if a in Full(blocks, deploy, how.readAt + 1) then members + {a} else members
      case Removed(a) => members - {a}
      case Unstaked(a, _) => members - {a}
  }

  function LiveReplay(
    blocks: Blocks<Event>, deploy: nat, members: Members, events: seq<Event>, how: seq<Handling>): Members
    requires |how| == |events|
  {
    if events == [] then members
    else
      var n := |events| - 1;
      LiveApply(blocks, deploy, LiveReplay(blocks, deploy, members, events[..n], how[..n]), events[n], how[n])
  }

  lemma {:induction false} LiveReplaySplit(
    blocks: Blocks<Event>, deploy: nat, members: Members,
    first: seq<Event>, second: seq<Event>, how1: seq<Handling>, how2: seq<Handling>)
    requires |how1| == |first| && |how2| == |second|
    ensures LiveReplay(blocks, deploy, members, first + second, how1 + how2)
         == LiveReplay(blocks, deploy, LiveReplay(blocks, deploy, members, first, how1), second, how2)
  {
    if second == [] {
      assert first + second == first && how1 + how2 == how1;
    } else {
      var n := |second| - 1;
      assert (first + second)[..|first| + n] == first + second[..n];
      assert (how1 + how2)[..|first| + n] == how1 + how2[..n];
      LiveReplaySplit(blocks, deploy, members, first, second[..n], how1, how2[..n]);
    }
  }

  /** `after` is `before` with the live handling `how` of blocks from, ..., last. */
  ghost predicate Followed(
    blocks: Blocks<Event>, deploy: nat, before: Members, after: Members, from: nat, last: nat, how: seq<Handling>) {
    && |how| == |Logs(blocks, from, last + 1)|
    && after == LiveReplay(blocks, deploy, before, Logs(blocks, from, last + 1), how)
  }

  lemma FollowedNext(
    blocks: Blocks<Event>, deploy: nat, before: Members, mid: Members, after: Members,
    from: nat, last: nat, end: nat, how1: seq<Handling>, how2: seq<Handling>)
    requires from <= last + 1 <= end + 1
    requires Followed(blocks, deploy, before, mid, from, last, how1)
    requires Followed(blocks, deploy, mid, after, last + 1, end, how2)
    ensures Followed(blocks, deploy, before, after, from, end, how1 + how2)
  {
    LogsSplit(blocks, from, last + 1, end + 1);
    LiveReplaySplit(blocks, deploy, before, Logs(blocks, from, last + 1), Logs(blocks, last + 1, end + 1), how1, how2);
  }

  /** Every profile was read at a block in [lo - 1, hi - 1). */
  ghost predicate ReadsWithin(how: seq<Handling>, lo: nat, hi: nat) {
    forall i :: 0 <= i < |how| && how[i].Done? ==> lo <= how[i].readAt + 1 <= hi
  }

  /** Interrupting the live loop after any part of a chunk, with any events dropped,
      leaves a set the old checkpoint can still resume from. */
  lemma {:induction false} InterruptedChunkStaysGood(
    blocks: Blocks<Event>, deploy: nat, stored: Members, next: nat, horizon: nat,
    events: seq<Event>, how: seq<Handling>)
    requires Good(blocks, deploy, stored, next, horizon)
    requires events <= Logs(blocks, next, horizon) && |how| == |events| && ReadsWithin(how, next, horizon)
    ensures Good(blocks, deploy, LiveReplay(blocks, deploy, stored, events, how), next, horizon)
  {
    if events != [] {
      var n := |events| - 1;
      var before := LiveReplay(blocks, deploy, stored, events[..n], how[..n]);
      InterruptedChunkStaysGood(blocks, deploy, stored, next, horizon, events[..n], how[..n]);
      var after, a := LiveApply(blocks, deploy, before, events[n], how[n]), events[n].address;
      if Untouched(a, Logs(blocks, next, horizon)) && how[n].Done? {
        assert events[n] in Logs(blocks, next, horizon);
        LogsSplit(blocks, next, how[n].readAt + 1, horizon);
        UntouchedSplit(a, Logs(blocks, next, how[n].readAt + 1), Logs(blocks, how[n].readAt + 1, horizon));
        UntouchedKeepsMembership(blocks, deploy, next, how[n].readAt + 1, a);
      }
      forall b | Untouched(b, Logs(blocks, next, horizon))
        ensures b in after <==> b in Full(blocks, deploy, next)
      {
      }
    }
  }

  /** Once every event of a chunk about `a` was handled with `a` read as it is at
      the end of the chunk, the last membership event decides, as in a replay. */
  lemma {:induction false} HandledAddress(
    blocks: Blocks<Event>, deploy: nat, members: Members, events: seq<Event>, how: seq<Handling>,
    a: Address, present: bool)
    requires |how| == |events|
    requires forall i :: 0 <= i < |how| ==> how[i].Done?
    requires forall i :: 0 <= i < |how| && events[i].address == a ==>
                           (a in Full(blocks, deploy, how[i].readAt + 1) <==> present)
    requires LastWord(a, events).GetOr(a in members) == present
    ensures a in LiveReplay(blocks, deploy, members, events, how) <==> present
  {
    if events != [] {
      var n := |events| - 1;
      if events[n].address != a || events[n].ProfileChanged? {
        HandledAddress(blocks, deploy, members, events[..n], how[..n], a, present);
      }
    }
  }

  /** A chunk handled without a dropped event may be checkpointed: the set is then
      good for the new checkpoint, up to the latest block any profile was read at. */
  lemma CommittedChunkIsGood(
    blocks: Blocks<Event>, deploy: nat, stored: Members, next: nat, mid: nat, horizon: nat,
    how: seq<Handling>)
    requires Good(blocks, deploy, stored, next, horizon) && next <= mid <= horizon
    requires |how| == |Logs(blocks, next, mid)| && ReadsWithin(how, mid, horizon)
    requires forall i :: 0 <= i < |how| ==> how[i].Done?
    ensures Good(blocks, deploy, LiveReplay(blocks, deploy, stored, Logs(blocks, next, mid), how), mid, horizon)
  {
    var events := Logs(blocks, next, mid);
    LogsSplit(blocks, next, mid, horizon);
    forall a | Untouched(a, Logs(blocks, mid, horizon))
      ensures a in LiveReplay(blocks, deploy, stored, events, how) <==> a in Full(blocks, deploy, mid)
    {
      UntouchedSplit(a, events, Logs(blocks, mid, horizon));
      FullSplit(blocks, deploy, next, mid);
      LastEventWins(a, Full(blocks, deploy, next), events);
      forall i | 0 <= i < |how| && events[i].address == a
        ensures a in Full(blocks, deploy, how[i].readAt + 1) <==> a in Full(blocks, deploy, mid)
      {
        var at := how[i].readAt + 1;
        LogsSplit(blocks, mid, at, horizon);
        UntouchedSplit(a, Logs(blocks, mid, at), Logs(blocks, at, horizon));
        UntouchedKeepsMembership(blocks, deploy, mid, at, a);
      }
      HandledAddress(blocks, deploy, stored, events, how, a, a in Full(blocks, deploy, mid));
    }
  }

  /** What the last handled event about `a` that took effect says: a profile that was
      found adds, a removal removes, a dropped event or a missing profile does nothing. */
  function LiveWord(
    blocks: Blocks<Event>, deploy: nat, a: Address, events: seq<Event>, how: seq<Handling>): Option<bool>
    requires |how| == |events|
  {
    if events == [] then None
    else
      var n := |events| - 1;
      if events[n].address != a || how[n].Lost? then LiveWord(blocks, deploy, a, events[..n], how[..n])
      else if events[n].Removed? || events[n].Unstaked? then Some(false)
      else if a in Full(blocks, deploy, how[n].readAt + 1) then Some(true)
      else LiveWord(blocks, deploy, a, events[..n], how[..n])
  }

  lemma {:induction false} LiveEventWins(
    blocks: Blocks<Event>, deploy: nat, a: Address, members: Members, events: seq<Event>, how: seq<Handling>)
    requires |how| == |events|
    ensures a in LiveReplay(blocks, deploy, members, events, how)
       <==> LiveWord(blocks, deploy, a, events, how).GetOr(a in members)
  {
    if events != [] {
      var n := |events| - 1;
      LiveEventWins(blocks, deploy, a, members, events[..n], how[..n]);
    }
  }

  /** The live loop is not a plain replay. After any handling of a chunk, with events
      dropped and profiles read at any blocks, on any stored set, a resume up to `hi`
      is the full replay if and only if every address the later events leave alone was
      decided as the chunk's last membership event decides it. */
  lemma DriftsExactly(
    blocks: Blocks<Event>, deploy: nat, stored: Members, next: nat, mid: nat, hi: nat, how: seq<Handling>)
    requires deploy <= next <= mid <= hi && |how| == |Logs(blocks, next, mid)|
    ensures Replay(LiveReplay(blocks, deploy, stored, Logs(blocks, next, mid), how), Logs(blocks, mid, hi))
            == Full(blocks, deploy, hi)
       <==> forall a :: Untouched(a, Logs(blocks, mid, hi)) ==>
                        LiveWord(blocks, deploy, a, Logs(blocks, next, mid), how).GetOr(a in stored)
                        == LastWord(a, Logs(blocks, next, mid)).GetOr(a in Full(blocks, deploy, next))
  {
    var events := Logs(blocks, next, mid);
    var after := LiveReplay(blocks, deploy, stored, events, how);
    ResumeIsFullReplay(blocks, deploy, after, mid, hi);
    FullSplit(blocks, deploy, next, mid);
    forall a
      ensures a in after <==> LiveWord(blocks, deploy, a, events, how).GetOr(a in stored)
      ensures a in Full(blocks, deploy, mid) <==> LastWord(a, events).GetOr(a in Full(blocks, deploy, next))
    {
      LiveEventWins(blocks, deploy, a, stored, events, how);
      LastEventWins(a, Full(blocks, deploy, next), events);
    }
  }

  /** For instance, losing the only event of a chunk on the full replay's set corrupts
      every later resume up to `hi`, unless the event changed nothing or its address has
      a later membership event below `hi`. */
  lemma LostEventDriftsExactly(blocks: Blocks<Event>, deploy: nat, next: nat, hi: nat, e: Event)
    requires deploy <= next < hi && blocks(next) == [e]
    ensures Replay(LiveApply(blocks, deploy, Full(blocks, deploy, next), e, Lost), Logs(blocks, next + 1, hi))
            == Full(blocks, deploy, hi)
       <==> (Apply(Full(blocks, deploy, next), e) == Full(blocks, deploy, next)
             || !Untouched(e.address, Logs(blocks, next + 1, hi)))
  {
    var before := Full(blocks, deploy, next);
    OneEvent(blocks, next, e);
    assert LiveReplay(blocks, deploy, before, [e], [Lost]) == before;
    DriftsExactly(blocks, deploy, before, next, next + 1, hi, [Lost]);
    assert forall a :: LiveWord(blocks, deploy, a, [e], [Lost]) == None;
    forall a
      ensures LastWord(a, [e]) == if a == e.address && !e.ProfileChanged? then Some(e.Registered?) else None
    {
      assert LastWord(a, []) == None;
    }
    assert Apply(before, e) == before <==> LastWord(e.address, [e]).GetOr(e.address in before) == (e.address in before);
  }

  /** A profile read before the chunk's end drifts in the same way: a registration whose
      profile was read a block too early is missing from every later resume. */
  lemma StaleReadDrifts(a: Address, hi: nat) returns (blocks: Blocks<Event>)
    requires hi >= 2
    ensures Logs(blocks, 1, 2) == [Registered(a)]
    ensures Replay(LiveReplay(blocks, 0, Full(blocks, 0, 1), [Registered(a)], [Done(0)]), Logs(blocks, 2, hi))
         != Full(blocks, 0, hi)
  {
    blocks := b => if b == 1 then [Registered(a)] else [];
    OneEvent(blocks, 1, Registered(a));
    NothingHappens(blocks, 2, hi);
    assert Logs(blocks, 0, 1) == [];
    DriftsExactly(blocks, 0, Full(blocks, 0, 1), 1, 2, hi, [Done(0)]);
    assert LiveWord(blocks, 0, a, [Registered(a)], [Done(0)]) == None;
    assert LastWord(a, [Registered(a)]) == Some(true);
    assert Untouched(a, Logs(blocks, 2, hi));
  }

  lemma OneEvent(blocks: Blocks<Event>, next: nat, e: Event)
    requires blocks(next) == [e]
    ensures Logs(blocks, next, next + 1) == [e]
  {
    assert Logs(blocks, next, next) == [];
  }

  lemma FullOneEvent(blocks: Blocks<Event>, deploy: nat, next: nat, e: Event)
    requires deploy <= next && blocks(next) == [e]
    ensures Full(blocks, deploy, next + 1) == Apply(Full(blocks, deploy, next), e)
  {
    var events := Logs(blocks, deploy, next + 1);
    assert events[..|events| - 1] == Logs(blocks, deploy, next);
  }

  // ---- Reconciliation -------------------------------------------------------

  /** Reconciliation keeps the members whose profile, read after block `readAt(a)`,
      still exists. */
  function Surviving(blocks: Blocks<Event>, deploy: nat, members: Members, readAt: Address -> nat): Members {
    set a | a in members && a in Full(blocks, deploy, readAt(a) + 1)
  }

  /** Once a reconciliation is checkpointed, the stored set is good for the new
      checkpoint, wherever the old one stood. What it was handed need not be the full
      replay: a set that can be resumed from `mid` will do. */
  lemma ReconciledIsGood(
    blocks: Blocks<Event>, deploy: nat, members: Members, mid: nat, horizon: nat, readAt: Address -> nat)
    requires Good(blocks, deploy, members, mid, horizon)
    requires forall a :: a in members ==> mid <= readAt(a) + 1 <= horizon
    ensures Good(blocks, deploy, Surviving(blocks, deploy, members, readAt), mid, horizon)
  {
    forall a | Untouched(a, Logs(blocks, mid, horizon))
      ensures a in Surviving(blocks, deploy, members, readAt) <==> a in Full(blocks, deploy, mid)
    {
      if a in members {
        UntouchedUpTo(blocks, deploy, a, mid, readAt(a) + 1, horizon);
      }
    }
  }

  /** An address untouched in [lo, hi) has the same membership at every block between. */
  lemma UntouchedUpTo(blocks: Blocks<Event>, deploy: nat, a: Address, lo: nat, at: nat, hi: nat)
    requires deploy <= lo <= at <= hi && Untouched(a, Logs(blocks, lo, hi))
    ensures a in Full(blocks, deploy, at) <==> a in Full(blocks, deploy, lo)
  {
    LogsSplit(blocks, lo, at, hi);
    UntouchedSplit(a, Logs(blocks, lo, at), Logs(blocks, at, hi));
    UntouchedKeepsMembership(blocks, deploy, lo, at, a);
  }

  /** Reconciliation upserts the surviving members one by one, then prunes the rest,
      then moves the checkpoint. With profiles read no earlier than the old checkpoint,
      stopping while upserting is harmless at whatever block it reconciles; stopping
      after pruning is harmless when it replayed past the old checkpoint. */
  lemma InterruptedReconciliationStaysGood(
    blocks: Blocks<Event>, deploy: nat, stored: Members, next: nat, members: Members, mid: nat, horizon: nat,
    readAt: Address -> nat, upserted: Members)
    requires Good(blocks, deploy, stored, next, horizon) && Good(blocks, deploy, members, mid, horizon)
    requires forall a :: a in members ==> Max(mid, next) <= readAt(a) + 1 <= horizon
    requires upserted <= Surviving(blocks, deploy, members, readAt)
    ensures Good(blocks, deploy, stored + upserted, next, horizon)
    ensures next <= mid ==> Good(blocks, deploy, Surviving(blocks, deploy, members, readAt), next, horizon)
  {
    forall a | Untouched(a, Logs(blocks, next, horizon))
      ensures a in stored + upserted <==> a in Full(blocks, deploy, next)
    {
      if a in upserted {
        UntouchedUpTo(blocks, deploy, a, next, readAt(a) + 1, horizon);
      }
    }
    ReconciledIsGood(blocks, deploy, members, mid, horizon, readAt);
    if next <= mid {
      GoodEarlier(blocks, deploy, Surviving(blocks, deploy, members, readAt), next, mid, horizon);
    }
  }

  /** Stopping after pruning to a full replay below the checkpoint, with profiles read no
      earlier than the checkpoint, is harmless if and only if every member that joined
      in between has a later membership event to bring it back. */
  lemma PruningBelowTheCheckpointExactly(
    blocks: Blocks<Event>, deploy: nat, mid: nat, next: nat, horizon: nat, readAt: Address -> nat)
    requires deploy <= mid <= next <= horizon
    requires forall a :: a in Full(blocks, deploy, mid) ==> next <= readAt(a) + 1 <= horizon
    ensures Good(blocks, deploy, Surviving(blocks, deploy, Full(blocks, deploy, mid), readAt), next, horizon)
       <==> forall a :: a in Full(blocks, deploy, next) && a !in Full(blocks, deploy, mid) ==>
                        !Untouched(a, Logs(blocks, next, horizon))
  {
    var members := Full(blocks, deploy, mid);
    forall a | Untouched(a, Logs(blocks, next, horizon))
      ensures a in Surviving(blocks, deploy, members, readAt)
         <==> a in members && a in Full(blocks, deploy, next)
    {
      if a in members {
        UntouchedUpTo(blocks, deploy, a, next, readAt(a) + 1, horizon);
      }
    }
  }

  /** Stopping while upserting below the checkpoint is harmless, for profiles read at any
      blocks, if and only if every upserted address that no later event decides is a
      member at the checkpoint. */
  lemma UpsertingBelowTheCheckpointExactly(
    blocks: Blocks<Event>, deploy: nat, stored: Members, next: nat, horizon: nat, upserted: Members)
    requires Good(blocks, deploy, stored, next, horizon)
    ensures Good(blocks, deploy, stored + upserted, next, horizon)
       <==> forall a :: a in upserted && Untouched(a, Logs(blocks, next, horizon)) ==> a in Full(blocks, deploy, next)
  {
  }

  /** For instance, a forced full replay to a head below the checkpoint that stops between
      pruning and checkpointing loses a member registered in between for every later resume. */
  lemma PruningBelowTheCheckpointDrifts(a: Address, hi: nat) returns (blocks: Blocks<Event>)
    requires hi >= 2
    ensures Good(blocks, 0, Full(blocks, 0, 2), 2, 2)
    ensures Surviving(blocks, 0, Full(blocks, 0, 1), _ => 1) == {}
    ensures Replay({}, Logs(blocks, 2, hi)) != Full(blocks, 0, hi)
  {
    blocks := b => if b == 1 then [Registered(a)] else [];
    assert Logs(blocks, 0, 1) == [];
    FullOneEvent(blocks, 0, 1, Registered(a));
    NothingHappens(blocks, 2, hi);
    PruningBelowTheCheckpointExactly(blocks, 0, 1, 2, hi, _ => 1);
    ResumeIsFullReplay(blocks, 0, {}, 2, hi);
  }

  lemma {:induction false} NothingHappens(blocks: Blocks<Event>, lo: nat, hi: nat)
    requires forall b :: b >= lo ==> blocks(b) == []
    ensures Logs(blocks, lo, hi) == []
    decreases hi
  {
    if lo < hi {
      NothingHappens(blocks, lo, hi - 1);
    }
  }

  // ---- Whole runs of the stored set -----------------------------------------

  /** A replay in progress: the set it started from and its first block. A full replay
      starts from the empty set at the deployment block. */
  datatype Replaying = Replaying(base: Members, from: nat)

  /** What matters for resuming the registry sync: the stored set and checkpoint (the
      next block, if there is one); the block the live loop has got to, which is ahead
      of the checkpoint after a failed checkpoint write; the replay in progress; and one
      more than the latest block any handled profile was read at. */
  datatype Store = Store(members: Members, next: Option<nat>, followed: nat, plan: Option<Replaying>, horizon: nat)
  {
    /** A checkpoint counts when it is not below the deployment block. */
    predicate Resumes(deploy: nat) {
      next.Some? && deploy <= next.value
    }

    /** The next process on this store, or the live loop abandoned. */
    function Restarted(): Store {
      this.(plan := None, followed := next.GetOr(followed))
    }
  }

  /** How the store moves. A process that dies keeps what is stored; a reconciliation is
      given by the block before which the replay stood and the blocks profiles were read at. */
  datatype StoreStep =
    | Dies
    | Plans(resume: bool)
    | PartOfChunk(events: seq<Event>, how: seq<Handling>)              // died inside a live chunk
    | WholeChunk(mid: nat, how: seq<Handling>, saved: bool)            // live chunk; the checkpoint write may fail
    | PartOfReconciliation(mid: nat, readAt: Address -> nat, upserted: Members) // stopped while upserting
    | PrunedReconciliation(mid: nat, readAt: Address -> nat)           // stopped before the checkpoint
    | WholeReconciliation(mid: nat, readAt: Address -> nat)            // pruned and checkpointed

  /** Where a process starts its replay. */
  function StartOf(deploy: nat, s: Store, resume: bool): Replaying {
    if resume && s.Resumes(deploy) then Replaying(s.members, s.next.value) else Replaying({}, deploy)
  }

  /** What a replay up to block mid - 1 hands to reconciliation. */
  function Handed(blocks: Blocks<Event>, p: Replaying, mid: nat): Members {
    Replay(p.base, Logs(blocks, p.from, mid))
  }

  /** The replay in progress stands before block `mid`, and profiles were read no earlier
      than the block replayed to and the checkpoint. */
  ghost predicate Reconciles(
    blocks: Blocks<Event>, deploy: nat, s: Store, mid: nat, readAt: Address -> nat, horizon: nat) {
    && s.plan.Some? && s.plan.value.from <= mid <= horizon
    && forall a :: a in Handed(blocks, s.plan.value, mid) ==>
                     && mid <= readAt(a) + 1 <= horizon
                     && (s.Resumes(deploy) ==> s.next.value <= readAt(a) + 1)
  }

  ghost predicate StepsTo(blocks: Blocks<Event>, deploy: nat, s: Store, step: StoreStep, s': Store) {
    && s.horizon <= s'.horizon
    && match step
       case Dies => s' == s.Restarted().(horizon := s'.horizon)
       case Plans(resume) => s' == s.Restarted().(plan := Some(StartOf(deploy, s, resume)), horizon := s'.horizon)
       case PartOfChunk(events, how) =>
         && s.Resumes(deploy) && events <= Logs(blocks, s.followed, s'.horizon) && |how| == |events|
         && ReadsWithin(how, s.followed, s'.horizon)
         && s' == s.Restarted().(members := LiveReplay(blocks, deploy, s.members, events, how), horizon := s'.horizon)
       case WholeChunk(mid, how, saved) =>
         && s.Resumes(deploy) && s.followed <= mid <= s'.horizon && |how| == |Logs(blocks, s.followed, mid)|
         && ReadsWithin(how, mid, s'.horizon) && (forall i :: 0 <= i < |how| ==> how[i].Done?)
         && s' == Store(LiveReplay(blocks, deploy, s.members, Logs(blocks, s.followed, mid), how),
                        if saved then Some(mid) else s.next, mid, s.plan, s'.horizon)
       case PartOfReconciliation(mid, readAt, upserted) =>
         && Reconciles(blocks, deploy, s, mid, readAt, s'.horizon)
         && upserted <= Surviving(blocks, deploy, Handed(blocks, s.plan.value, mid), readAt)
         && s' == s.Restarted().(members := s.members + upserted, plan := s.plan, horizon := s'.horizon)
       case PrunedReconciliation(mid, readAt) =>
         && Reconciles(blocks, deploy, s, mid, readAt, s'.horizon) && (s.Resumes(deploy) ==> s.next.value <= mid)
         && s' == s.Restarted().(members := Surviving(blocks, deploy, Handed(blocks, s.plan.value, mid), readAt),
                                 plan := s.plan, horizon := s'.horizon)
       case WholeReconciliation(mid, readAt) =>
         && Reconciles(blocks, deploy, s, mid, readAt, s'.horizon)
         && s' == Store(Surviving(blocks, deploy, Handed(blocks, s.plan.value, mid), readAt),
                        Some(mid), mid, None, s'.horizon)
  }

  /** The stored set is right where the live loop has got to, and so is the start of the
      replay in progress. */
  ghost predicate StoreGood(blocks: Blocks<Event>, deploy: nat, s: Store) {
    && (s.Resumes(deploy) ==> s.next.value <= s.followed && Good(blocks, deploy, s.members, s.followed, s.horizon))
    && (s.plan.Some? ==> s.plan.value.from <= s.horizon
                         && Good(blocks, deploy, s.plan.value.base, s.plan.value.from, s.horizon))
    && deploy <= s.horizon
  }

  lemma StoreGoodExtends(blocks: Blocks<Event>, deploy: nat, s: Store, later: nat)
    requires StoreGood(blocks, deploy, s) && s.horizon <= later
    ensures StoreGood(blocks, deploy, s.(horizon := later))
  {
    if s.Resumes(deploy) {
      GoodExtends(blocks, deploy, s.members, s.followed, s.horizon, later);
    }
    if s.plan.Some? {
      GoodExtends(blocks, deploy, s.plan.value.base, s.plan.value.from, s.horizon, later);
    }
  }

  lemma RestartKeepsStoreGood(blocks: Blocks<Event>, deploy: nat, s: Store)
    requires StoreGood(blocks, deploy, s)
    ensures StoreGood(blocks, deploy, s.Restarted())
  {
    if s.Resumes(deploy) {
      GoodEarlier(blocks, deploy, s.members, s.next.value, s.followed, s.horizon);
    }
  }

  lemma PlanIsGood(blocks: Blocks<Event>, deploy: nat, s: Store, resume: bool)
    requires StoreGood(blocks, deploy, s)
    ensures StoreGood(blocks, deploy, s.Restarted().(plan := Some(StartOf(deploy, s, resume))))
  {
    RestartKeepsStoreGood(blocks, deploy, s);
    assert Full(blocks, deploy, deploy) == {};
  }

  lemma ChunkKeepsStoreGood(blocks: Blocks<Event>, deploy: nat, s: Store, mid: nat, how: seq<Handling>, saved: bool)
    requires StoreGood(blocks, deploy, s) && s.Resumes(deploy) && s.followed <= mid <= s.horizon
    requires |how| == |Logs(blocks, s.followed, mid)| && ReadsWithin(how, mid, s.horizon)
    requires forall i :: 0 <= i < |how| ==> how[i].Done?
    ensures StoreGood(blocks, deploy,
              Store(LiveReplay(blocks, deploy, s.members, Logs(blocks, s.followed, mid), how),
                    if saved then Some(mid) else s.next, mid, s.plan, s.horizon))
  {
    CommittedChunkIsGood(blocks, deploy, s.members, s.followed, mid, s.horizon, how);
  }

  /** A reconciliation, checkpointed or stopped at any write, keeps the store good. */
  lemma ReconciliationKeepsStoreGood(
    blocks: Blocks<Event>, deploy: nat, s: Store, mid: nat, readAt: Address -> nat, upserted: Members)
    requires StoreGood(blocks, deploy, s) && Reconciles(blocks, deploy, s, mid, readAt, s.horizon)
    requires upserted <= Surviving(blocks, deploy, Handed(blocks, s.plan.value, mid), readAt)
    ensures StoreGood(blocks, deploy, s.Restarted().(members := s.members + upserted, plan := s.plan))
    ensures var kept := Surviving(blocks, deploy, Handed(blocks, s.plan.value, mid), readAt);
            && ((s.Resumes(deploy) ==> s.next.value <= mid) ==>
                  StoreGood(blocks, deploy, s.Restarted().(members := kept, plan := s.plan)))
            && StoreGood(blocks, deploy, Store(kept, Some(mid), mid, None, s.horizon))
  {
    var members := Handed(blocks, s.plan.value, mid);
    ReplayKeepsGood(blocks, deploy, s.plan.value.base, s.plan.value.from, mid, s.horizon);
    ReconciledIsGood(blocks, deploy, members, mid, s.horizon, readAt);
    if s.Resumes(deploy) {
      RestartKeepsStoreGood(blocks, deploy, s);
      InterruptedReconciliationStaysGood(
        blocks, deploy, s.members, s.next.value, members, mid, s.horizon, readAt, upserted);
    }
  }

  lemma StepKeepsStoreGood(blocks: Blocks<Event>, deploy: nat, s: Store, step: StoreStep, s': Store)
    requires StoreGood(blocks, deploy, s) && StepsTo(blocks, deploy, s, step, s')
    ensures StoreGood(blocks, deploy, s')
  {
    var t := s.(horizon := s'.horizon);
    StoreGoodExtends(blocks, deploy, s, s'.horizon);
    match step
    case Dies =>
      RestartKeepsStoreGood(blocks, deploy, t);
    case Plans(resume) =>
      PlanIsGood(blocks, deploy, t, resume);
    case PartOfChunk(events, how) =>
      InterruptedChunkStaysGood(blocks, deploy, t.members, t.followed, t.horizon, events, how);
      RestartKeepsStoreGood(blocks, deploy, t.(members := LiveReplay(blocks, deploy, t.members, events, how)));
    case WholeChunk(mid, how, saved) =>
      ChunkKeepsStoreGood(blocks, deploy, t, mid, how, saved);
    case PartOfReconciliation(mid, readAt, upserted) =>
      ReconciliationKeepsStoreGood(blocks, deploy, t, mid, readAt, upserted);
    case PrunedReconciliation(mid, readAt) =>
      ReconciliationKeepsStoreGood(blocks, deploy, t, mid, readAt, {});
    case WholeReconciliation(mid, readAt) =>
      ReconciliationKeepsStoreGood(blocks, deploy, t, mid, readAt, {});
  }

  ghost predicate IsRun(blocks: Blocks<Event>, deploy: nat, run: seq<Store>, steps: seq<StoreStep>) {
    && |run| == |steps| + 1
    && forall i :: 0 <= i < |steps| ==> StepsTo(blocks, deploy, run[i], steps[i], run[i + 1])
  }

  /** A process that starts on a good store, resuming or not, and replays to or past the
      horizon holds exactly the full replay's members. */
  lemma GoodStoreResumes(blocks: Blocks<Event>, deploy: nat, s: Store, resume: bool, hi: nat)
    requires StoreGood(blocks, deploy, s) && s.horizon <= hi
    ensures Handed(blocks, StartOf(deploy, s, resume), hi) == Full(blocks, deploy, hi)
  {
    PlanIsGood(blocks, deploy, s, resume);
    var p := StartOf(deploy, s, resume);
    GoodExtends(blocks, deploy, p.base, p.from, s.horizon, hi);
    ResumeIsFullReplay(blocks, deploy, p.base, p.from, hi);
  }

  /** Crash safety of the registry sync: from a good store (an empty one, say), after any
      run of deaths, plans, chunks and reconciliations, each complete or stopped at any
      write, a process that starts on what is stored and replays to or past the horizon
      holds exactly the full replay's members. */
  lemma {:induction false} EveryRunCanResume(
    blocks: Blocks<Event>, deploy: nat, run: seq<Store>, steps: seq<StoreStep>, resume: bool, hi: nat)
    requires IsRun(blocks, deploy, run, steps) && StoreGood(blocks, deploy, run[0])
    requires run[|steps|].horizon <= hi
    ensures StoreGood(blocks, deploy, run[|steps|])
    ensures Handed(blocks, StartOf(deploy, run[|steps|], resume), hi) == Full(blocks, deploy, hi)
    decreases |steps|
  {
    var n := |steps|;
    if n > 0 {
      EveryRunCanResume(blocks, deploy, run[..n], steps[..n - 1], resume, hi);
      StepKeepsStoreGood(blocks, deploy, run[n - 1], steps[n - 1], run[n]);
    }
    GoodStoreResumes(blocks, deploy, run[n], resume, hi);
  }
}
