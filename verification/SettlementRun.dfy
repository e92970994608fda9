/** The settlement loop over whole lives of the indexer: polls that fail at any write,
    crashes, and restarts with other contracts or another start block. */
module SettlementRun {
  import opened Wrappers
  import opened Registry
  import opened Rpc
  import opened Settlement
  import Retry

  const MAX_CALL_ATTEMPTS: nat := 5

  // ---- From decoded logs to rows ---------------------------------------------------------

  function StampAll(entries: seq<SettlementLog>, time: nat -> nat): seq<SettlementLog> {
    seq(|entries|, i requires 0 <= i < |entries| => SetTimestamp(entries[i], time(BlockOf(entries[i]))))
  }

  function AsRow<D>(s: Stamped<D>, contract: Account): Row<D> {
    Row(s.key, s.block, s.timestamp, contract, s.data)
  }

  function SettledIn(entries: seq<SettlementLog>, contract: Account): seq<Row<Execution>> {
    if entries == [] then []
    else
      var last := entries[|entries| - 1];
      SettledIn(entries[..|entries| - 1], contract) + if last.Settled? then [AsRow(last.settlement, contract)] else []
  }

  function ClaimedIn(entries: seq<SettlementLog>, contract: Account): seq<Row<Credit>> {
    if entries == [] then []
    else
      var last := entries[|entries| - 1];
      ClaimedIn(entries[..|entries| - 1], contract) + if last.Claimed? then [AsRow(last.claim, contract)] else []
  }

  lemma StampNext(entries: seq<SettlementLog>, e: SettlementLog, time: nat -> nat)
    ensures StampAll(entries + [e], time) == StampAll(entries, time) + [SetTimestamp(e, time(BlockOf(e)))]
  {
  }

  lemma InNext(entries: seq<SettlementLog>, e: SettlementLog, contract: Account)
    ensures SettledIn(entries + [e], contract)
         == SettledIn(entries, contract) + if e.Settled? then [AsRow(e.settlement, contract)] else []
    ensures ClaimedIn(entries + [e], contract)
         == ClaimedIn(entries, contract) + if e.Claimed? then [AsRow(e.claim, contract)] else []
  {
    assert (entries + [e])[..|entries|] == entries;
  }

  /** Decoding, stamping and storing under the configured contracts yields the rows the
      two contracts' logs are worth, and nothing else. */
  lemma {:induction false} DecodedRows(logs: seq<RawLog>, c: SettlementConfig, time: nat -> nat)
    ensures SettledIn(StampAll(DecodeAll(logs, c), time), c.entryPoint) == RowsOf(logs, c.entryPoint, ReadSettled(time))
    ensures c.rewardPool.Some? ==>
              ClaimedIn(StampAll(DecodeAll(logs, c), time), c.rewardPool.value)
              == RowsOf(logs, c.rewardPool.value, ReadClaimed(time))
  {
    if logs != [] {
      var n := |logs| - 1;
      DecodedRows(logs[..n], c, time);
      var entries, last := DecodeAll(logs[..n], c), DecodeSettlementLog(logs[n], c);
      DecodedRow(logs[n], c, time);
      if last.Some? {
        NextRows(entries, last.value, c, time);
      } else {
        assert DecodeAll(logs, c) == entries;
      }
    }
  }

  lemma NextRows(entries: seq<SettlementLog>, e: SettlementLog, c: SettlementConfig, time: nat -> nat)
    ensures SettledIn(StampAll(entries + [e], time), c.entryPoint)
         == SettledIn(StampAll(entries, time), c.entryPoint) + SettledRow(Some(e), c.entryPoint, time)
    ensures c.rewardPool.Some? ==>
              ClaimedIn(StampAll(entries + [e], time), c.rewardPool.value)
              == ClaimedIn(StampAll(entries, time), c.rewardPool.value) + ClaimedRow(Some(e), c.rewardPool.value, time)
  {
    StampNext(entries, e, time);
    var stamped := SetTimestamp(e, time(BlockOf(e)));
    InNext(StampAll(entries, time), stamped, c.entryPoint);
    if c.rewardPool.Some? {
      InNext(StampAll(entries, time), stamped, c.rewardPool.value);
    }
  }

  function SettledRow(e: Option<SettlementLog>, contract: Account, time: nat -> nat): seq<Row<Execution>> {
    if e.Some? && e.value.Settled?
    then [AsRow(SetTimestamp(e.value, time(BlockOf(e.value))).settlement, contract)] else []
  }

  function ClaimedRow(e: Option<SettlementLog>, contract: Account, time: nat -> nat): seq<Row<Credit>> {
    if e.Some? && e.value.Claimed? then [AsRow(SetTimestamp(e.value, time(BlockOf(e.value))).claim, contract)] else []
  }

  /** One log decodes to the row it is worth to either contract. */
  lemma DecodedRow(log: RawLog, c: SettlementConfig, time: nat -> nat)
    ensures SettledRow(DecodeSettlementLog(log, c), c.entryPoint, time)
         == if log.address == c.entryPoint && ReadSettled(time)(log).Some? then [ReadSettled(time)(log).value] else []
    ensures c.rewardPool.Some? ==>
              ClaimedRow(DecodeSettlementLog(log, c), c.rewardPool.value, time)
              == if log.address == c.rewardPool.value && ReadClaimed(time)(log).Some?
                 then [ReadClaimed(time)(log).value] else []
  {
  }

  // ---- The database ---------------------------------------------------------------------

  datatype Database = Database(settled: Table<Execution>, claims: Table<Credit>, checkpoints: map<string, nat>)

  datatype Chain = Chain(blocks: Blocks<RawLog>, time: nat -> nat)

  ghost predicate RowsOk(chain: Chain, db: Database) {
    && AllOnChain(chain.blocks, ReadSettled(chain.time), db.settled)
    && AllOnChain(chain.blocks, ReadClaimed(chain.time), db.claims)
  }

  /** The rows of the configured contracts in blocks lo, ..., hi - 1 are all stored. */
  ghost predicate Covered(chain: Chain, db: Database, c: SettlementConfig, lo: nat, hi: nat) {
    && HoldsRange(chain.blocks, ReadSettled(chain.time), db.settled, c.entryPoint, lo, hi)
    && (c.rewardPool.Some? ==>
          HoldsRange(chain.blocks, ReadClaimed(chain.time), db.claims, c.rewardPool.value, lo, hi))
  }

  /** The rows of the configured contracts are stored exactly once each. */
  ghost predicate StoredExactlyOnce(chain: Chain, db: Database, c: SettlementConfig, lo: nat, hi: nat) {
    && ExactlyOnce(chain.blocks, ReadSettled(chain.time), db.settled, c.entryPoint, lo, hi)
    && (c.rewardPool.Some? ==>
          ExactlyOnce(chain.blocks, ReadClaimed(chain.time), db.claims, c.rewardPool.value, lo, hi))
  }

  ghost predicate Grows(before: Database, after: Database) {
    Extends(before.settled, after.settled) && Extends(before.claims, after.claims)
  }

  ghost predicate GrowsWithin(before: Database, after: Database, lo: nat, hi: nat) {
    && Grows(before, after)
    && AddedWithin(before.settled, after.settled, lo, hi) && AddedWithin(before.claims, after.claims, lo, hi)
  }

  function Size(db: Database): nat {
    |db.settled| + |db.claims|
  }

  lemma GrowsOn(before: Database, mid: Database, after: Database)
    requires Grows(before, mid) && Grows(mid, after)
    ensures Grows(before, after)
  {
  }

  lemma CoveredJoin(chain: Chain, db: Database, c: SettlementConfig, lo: nat, mid: nat, hi: nat)
    requires lo <= mid <= hi && Covered(chain, db, c, lo, mid) && Covered(chain, db, c, mid, hi)
    ensures Covered(chain, db, c, lo, hi)
  {
  }

  lemma CoveredIsExactlyOnce(chain: Chain, db: Database, c: SettlementConfig, lo: nat, hi: nat)
    requires ChainOk(chain.blocks) && RowsOk(chain, db)
    ensures Covered(chain, db, c, lo, hi) <==> StoredExactlyOnce(chain, db, c, lo, hi)
  {
    HeldIsExactlyOnce(chain.blocks, ReadSettled(chain.time), db.settled, c.entryPoint, lo, hi);
    if c.rewardPool.Some? {
      HeldIsExactlyOnce(chain.blocks, ReadClaimed(chain.time), db.claims, c.rewardPool.value, lo, hi);
    }
  }

  // ---- Progress ----------------------------------------------------------------------------

  /** Where each source's stored stretch starts. */
  type Starts = map<string, nat>

  /** Some process that followed the same contracts was configured to start there. */
  ghost predicate StartedBy(used: set<SettlementConfig>, c: SettlementConfig, from: nat) {
    exists d :: d in used && SameContracts(c, d) && d.fromBlock == from
  }

  /** Up to its checkpoint, every source is stored from some configured start on. */
  ghost predicate CheckpointsOk(chain: Chain, db: Database, starts: Starts, used: set<SettlementConfig>) {
    forall c :: SourceKey(c) in db.checkpoints ==> CheckpointOk(chain, db, starts, used, c)
  }

  ghost predicate CheckpointOk(
    chain: Chain, db: Database, starts: Starts, used: set<SettlementConfig>, c: SettlementConfig)
    requires SourceKey(c) in db.checkpoints
  {
    && SourceKey(c) in starts && starts[SourceKey(c)] <= db.checkpoints[SourceKey(c)] + 1
    && Covered(chain, db, c, starts[SourceKey(c)], db.checkpoints[SourceKey(c)] + 1)
    && StartedBy(used, c, starts[SourceKey(c)])
  }

  /** Below `next` the running process's source is stored from `start` on. */
  ghost predicate PositionOk(
    chain: Chain, db: Database, c: SettlementConfig, start: nat, next: nat, used: set<SettlementConfig>) {
    start <= next && Covered(chain, db, c, start, next) && StartedBy(used, c, start)
  }

  lemma GrowthKeeps(chain: Chain, before: Database, after: Database, starts: Starts, used: set<SettlementConfig>)
    requires CheckpointsOk(chain, before, starts, used)
    requires Grows(before, after) && after.checkpoints == before.checkpoints
    ensures CheckpointsOk(chain, after, starts, used)
  {
  }

  lemma CheckpointKeeps(
    chain: Chain, db: Database, starts: Starts, used: set<SettlementConfig>, c: SettlementConfig, start: nat, end: nat)
    requires CheckpointsOk(chain, db, starts, used) && PositionOk(chain, db, c, start, end + 1, used)
    ensures CheckpointsOk(chain, db.(checkpoints := db.checkpoints[SourceKey(c) := end]),
                          starts[SourceKey(c) := start], used)
  {
    var after := db.(checkpoints := db.checkpoints[SourceKey(c) := end]);
    forall d | SourceKey(d) in after.checkpoints
      ensures CheckpointOk(chain, after, starts[SourceKey(c) := start], used, d)
    {
      if SourceKey(d) == SourceKey(c) {
        SourceKeyTellsContractsApart(c, d);
      } else {
        assert CheckpointOk(chain, db, starts, used, d);
      }
    }
  }

  /** First block of a poll that has no position in memory. */
  function StartBlock(checkpoint: Option<nat>, fromBlock: nat): nat {
    if checkpoint.Some? then Max(checkpoint.value + 1, fromBlock) else fromBlock
  }

  lemma {:induction false} EntryIsAmong(entries: seq<SettlementLog>, i: nat, contract: Account)
    requires i < |entries|
    ensures entries[i].Settled? ==> AsRow(entries[i].settlement, contract) in SettledIn(entries, contract)
    ensures entries[i].Claimed? ==> AsRow(entries[i].claim, contract) in ClaimedIn(entries, contract)
  {
    var n := |entries| - 1;
    if i < n {
      EntryIsAmong(entries[..n], i, contract);
    }
  }

  /** What a chunk's entries come to as rows of the two contracts. */
  ghost predicate EntriesAre(chain: Chain, c: SettlementConfig, entries: seq<SettlementLog>, lo: nat, hi: nat) {
    && SettledIn(entries, c.entryPoint) == RowsOf(Logs(chain.blocks, lo, hi), c.entryPoint, ReadSettled(chain.time))
    && (c.rewardPool.Some? ==>
          ClaimedIn(entries, c.rewardPool.value)
          == RowsOf(Logs(chain.blocks, lo, hi), c.rewardPool.value, ReadClaimed(chain.time)))
  }

  ghost predicate EntriesStored(db: Database, c: SettlementConfig, entries: seq<SettlementLog>) {
    && Holds(db.settled, SettledIn(entries, c.entryPoint))
    && (c.rewardPool.Some? ==> Holds(db.claims, ClaimedIn(entries, c.rewardPool.value)))
  }

  lemma SettledKeeps(
    chain: Chain, before: Table<Execution>, table: Table<Execution>, contract: Account,
    entries: seq<SettlementLog>, i: nat, lo: nat, hi: nat, first: nat, last: nat)
    requires ChainOk(chain.blocks) && AllOnChain(chain.blocks, ReadSettled(chain.time), table)
    requires first <= lo && hi <= last && Extends(before, table) && AddedWithin(before, table, first, last)
    requires SettledIn(entries, contract) == RowsOf(Logs(chain.blocks, lo, hi), contract, ReadSettled(chain.time))
    requires i < |entries| && entries[i].Settled?
    ensures var after := Insert(table, AsRow(entries[i].settlement, contract));
            && AllOnChain(chain.blocks, ReadSettled(chain.time), after)
            && Extends(table, after) && Extends(before, after) && AddedWithin(before, after, first, last)
            && (Holds(table, SettledIn(entries[..i], contract)) ==> Holds(after, SettledIn(entries[..i + 1], contract)))
            && |after| == |table| + if after == table then 0 else 1
  {
    assert entries[..i + 1] == entries[..i] + [entries[i]];
    InNext(entries[..i], entries[i], contract);
    EntryIsAmong(entries, i, contract);
    InsertKeepsTable(chain.blocks, ReadSettled(chain.time), before, table, contract,
                     SettledIn(entries[..i], contract), AsRow(entries[i].settlement, contract), lo, hi, first, last);
  }

  lemma ClaimedKeeps(
    chain: Chain, before: Table<Credit>, table: Table<Credit>, contract: Account,
    entries: seq<SettlementLog>, i: nat, lo: nat, hi: nat, first: nat, last: nat)
    requires ChainOk(chain.blocks) && AllOnChain(chain.blocks, ReadClaimed(chain.time), table)
    requires first <= lo && hi <= last && Extends(before, table) && AddedWithin(before, table, first, last)
    requires ClaimedIn(entries, contract) == RowsOf(Logs(chain.blocks, lo, hi), contract, ReadClaimed(chain.time))
    requires i < |entries| && entries[i].Claimed?
    ensures var after := Insert(table, AsRow(entries[i].claim, contract));
            && AllOnChain(chain.blocks, ReadClaimed(chain.time), after)
            && Extends(table, after) && Extends(before, after) && AddedWithin(before, after, first, last)
            && (Holds(table, ClaimedIn(entries[..i], contract)) ==> Holds(after, ClaimedIn(entries[..i + 1], contract)))
            && |after| == |table| + if after == table then 0 else 1
  {
    assert entries[..i + 1] == entries[..i] + [entries[i]];
    InNext(entries[..i], entries[i], contract);
    EntryIsAmong(entries, i, contract);
    InsertKeepsTable(chain.blocks, ReadClaimed(chain.time), before, table, contract,
                     ClaimedIn(entries[..i], contract), AsRow(entries[i].claim, contract), lo, hi, first, last);
  }

  /** Entry `e` went in (or had been there): `after` follows `db`. */
  ghost predicate EntryStored(db: Database, after: Database, c: SettlementConfig, e: SettlementLog) {
    match e
    case Settled(s) => after == db.(settled := Insert(db.settled, AsRow(s, c.entryPoint)))
    case Claimed(claim) =>
      after == if c.rewardPool.Some? then db.(claims := Insert(db.claims, AsRow(claim, c.rewardPool.value))) else db
  }

  /** What storing entry `i` of a chunk keeps. */
  ghost predicate EntryKept(
    chain: Chain, before: Database, db: Database, after: Database, c: SettlementConfig,
    entries: seq<SettlementLog>, i: nat, lo: nat, hi: nat, first: nat, last: nat)
    requires i < |entries|
  {
    && RowsOk(chain, after) && Grows(db, after) && GrowsWithin(before, after, first, last)
    && after.checkpoints == db.checkpoints
    && (EntriesStored(db, c, entries[..i]) ==> EntriesStored(after, c, entries[..i + 1]))
    && Size(after) == Size(db) + if db == after then 0 else 1
  }

  lemma OtherTableUnmoved(entries: seq<SettlementLog>, i: nat, contract: Account)
    requires i < |entries|
    ensures entries[i].Settled? ==> ClaimedIn(entries[..i + 1], contract) == ClaimedIn(entries[..i], contract)
    ensures entries[i].Claimed? ==> SettledIn(entries[..i + 1], contract) == SettledIn(entries[..i], contract)
  {
    assert entries[..i + 1] == entries[..i] + [entries[i]];
    InNext(entries[..i], entries[i], contract);
  }

  lemma SettledEntryKeeps(
    chain: Chain, before: Database, db: Database, after: Database, c: SettlementConfig,
    entries: seq<SettlementLog>, i: nat, lo: nat, hi: nat, first: nat, last: nat)
    requires ChainOk(chain.blocks) && RowsOk(chain, db)
    requires first <= lo && hi <= last && GrowsWithin(before, db, first, last)
    requires EntriesAre(chain, c, entries, lo, hi) && i < |entries| && EntryStored(db, after, c, entries[i])
    requires entries[i].Settled?
    ensures EntryKept(chain, before, db, after, c, entries, i, lo, hi, first, last)
  {
    SettledKeeps(chain, before.settled, db.settled, c.entryPoint, entries, i, lo, hi, first, last);
    if c.rewardPool.Some? {
      OtherTableUnmoved(entries, i, c.rewardPool.value);
    }
  }

  lemma PoollessClaimKeeps(
    chain: Chain, before: Database, db: Database, c: SettlementConfig,
    entries: seq<SettlementLog>, i: nat, lo: nat, hi: nat, first: nat, last: nat)
    requires RowsOk(chain, db) && GrowsWithin(before, db, first, last) && c.rewardPool.None?
    requires i < |entries| && entries[i].Claimed?
    ensures EntryKept(chain, before, db, db, c, entries, i, lo, hi, first, last)
  {
    OtherTableUnmoved(entries, i, c.entryPoint);
  }

  lemma ClaimedEntryKeeps(
    chain: Chain, before: Database, db: Database, after: Database, c: SettlementConfig,
    entries: seq<SettlementLog>, i: nat, lo: nat, hi: nat, first: nat, last: nat)
    requires ChainOk(chain.blocks) && RowsOk(chain, db)
    requires first <= lo && hi <= last && GrowsWithin(before, db, first, last)
    requires EntriesAre(chain, c, entries, lo, hi) && i < |entries| && EntryStored(db, after, c, entries[i])
    requires entries[i].Claimed?
    ensures EntryKept(chain, before, db, after, c, entries, i, lo, hi, first, last)
  {
    if c.rewardPool.Some? {
      ClaimedKeeps(chain, before.claims, db.claims, c.rewardPool.value, entries, i, lo, hi, first, last);
      OtherTableUnmoved(entries, i, c.entryPoint);
    } else {
      PoollessClaimKeeps(chain, before, db, c, entries, i, lo, hi, first, last);
    }
  }

  lemma EntryKeeps(
    chain: Chain, before: Database, db: Database, after: Database, c: SettlementConfig,
    entries: seq<SettlementLog>, i: nat, lo: nat, hi: nat, first: nat, last: nat)
    requires ChainOk(chain.blocks) && RowsOk(chain, db)
    requires first <= lo && hi <= last && GrowsWithin(before, db, first, last)
    requires EntriesAre(chain, c, entries, lo, hi) && i < |entries| && EntryStored(db, after, c, entries[i])
    ensures EntryKept(chain, before, db, after, c, entries, i, lo, hi, first, last)
  {
    if entries[i].Settled? {
      SettledEntryKeeps(chain, before, db, after, c, entries, i, lo, hi, first, last);
    } else {
      ClaimedEntryKeeps(chain, before, db, after, c, entries, i, lo, hi, first, last);
    }
  }

  /** Once a chunk's entries are stored, its blocks are covered. */
  lemma EntriesCover(chain: Chain, db: Database, c: SettlementConfig, entries: seq<SettlementLog>, lo: nat, hi: nat)
    requires ChainOk(chain.blocks) && EntriesAre(chain, c, entries, lo, hi) && EntriesStored(db, c, entries)
    ensures Covered(chain, db, c, lo, hi)
  {
    HoldsRangeIsHolds(chain.blocks, ReadSettled(chain.time), db.settled, c.entryPoint, lo, hi);
    if c.rewardPool.Some? {
      HoldsRangeIsHolds(chain.blocks, ReadClaimed(chain.time), db.claims, c.rewardPool.value, lo, hi);
    }
  }

  // ---- The sync -----------------------------------------------------------------------------

  /** How a database write ends: done; not done; or done with the reply lost. */
  datatype Write = Done | NotDone | DoneUnconfirmed

  /** One process life: its configuration, network and accidents, and how many polls it
      makes before it ends. */
  datatype Life = Life(
    config: SettlementConfig, world: World<RawLog>, initial: nat, min: nat, max: nat, confirmations: nat,
    fails: (nat, nat) -> bool,               // tick, operation
    write: (nat, nat) -> Write,              // tick, operation
    timestampFails: (nat, nat, nat) -> bool, // tick, block, attempt
    entropy: nat -> nat, cancelled: (nat, nat) -> bool, polls: nat)

  ghost predicate LifeOk(chain: Chain, life: Life) {
    && life.world.blocks == chain.blocks && life.world.endpoints > 0
    && life.initial <= U64_MAX && life.min <= U64_MAX && life.max <= U64_MAX
  }

  /** A decoded chunk and the last block it covers. */
  datatype Decoded = Decoded(entries: seq<SettlementLog>, end: nat)

  /** The assumptions on the life's endpoints. */
  ghost predicate LifeSound(life: Life) {
    HeadsAreAtomic(life.world) && LagIsBounded(life.world)
  }

  /** A life in which the network works and nothing else goes wrong. */
  ghost predicate Smooth(life: Life) {
    && Healthy(life.world)
    && (forall t, op :: !life.fails(t, op) && life.write(t, op).Done?)
    && (forall t, block, attempt :: !life.timestampFails(t, block, attempt))
  }

  /** The source's checkpoint is at or past `block`. */
  predicate CheckpointPast(db: Database, c: SettlementConfig, block: nat) {
    SourceKey(c) in db.checkpoints && block <= db.checkpoints[SourceKey(c)]
  }

  /** Each poll that read a head did so later than the ones before and after request
      `since`, and left the source's checkpoint at or past the safe head it found, unless
      that is below the start block. */
  ghost predicate PollsDone(life: Life, db: Database, heads: seq<Option<HeadRead>>, since: nat) {
    && (forall k :: 0 <= k < |heads| && heads[k].Some? ==> PollDone(life, db, heads[k].value, since))
    && (forall j, k :: 0 <= j < k < |heads| && heads[j].Some? && heads[k].Some? ==>
          heads[j].value.request < heads[k].value.request)
  }

  ghost predicate PollDone(life: Life, db: Database, read: HeadRead, since: nat) {
    var head := SafeBlock(life.world, life.confirmations, read);
    && since < read.request && head.Some?
    && (life.config.fromBlock <= head.value ==> CheckpointPast(db, life.config, head.value))
  }

  /** The position `next` is past the safe head each poll found. */
  ghost predicate AllReached(life: Life, heads: seq<Option<HeadRead>>, since: nat, t: nat, next: nat) {
    && (forall k :: 0 <= k < |heads| && heads[k].Some? ==> HasReached(life, heads[k].value, since, t, next))
    && (forall j, k :: 0 <= j < k < |heads| && heads[j].Some? && heads[k].Some? ==>
          heads[j].value.request < heads[k].value.request)
  }

  ghost predicate HasReached(life: Life, read: HeadRead, since: nat, t: nat, next: nat) {
    var head := SafeBlock(life.world, life.confirmations, read);
    since < read.request <= t && head.Some? && head.value < next
  }

  lemma OneMoreReached(
    life: Life, heads: seq<Option<HeadRead>>, head: Option<HeadRead>, since: nat, t0: nat, t: nat,
    next0: nat, next: nat)
    requires AllReached(life, heads, since, t0, next0) && since <= t0 <= t && next0 <= next
    requires head.Some? ==> t0 < head.value.request && HasReached(life, head.value, since, t, next)
    ensures AllReached(life, heads + [head], since, t, next)
  {
    forall k | 0 <= k < |heads| && heads[k].Some?
      ensures HasReached(life, heads[k].value, since, t, next)
    {
      assert HasReached(life, heads[k].value, since, t0, next0);
    }
  }

  class SettlementSync {
    const chain: Chain
    var life: Life
    var rpc: ChainConfig<RawLog>
    var tick: nat
    var nextBlock: Option<nat>
    var db: Database
    /** Start of the stretch the process is extending, and of each source's stored stretch. */
    ghost var start: nat
    ghost var starts: Starts
    /** Every configuration a process has run with. */
    ghost var used: set<SettlementConfig>

    ghost predicate Valid()
      reads this, rpc, rpc.transport, rpc.chunk
    {
      && rpc.Valid() && rpc.transport.world == life.world && rpc.confirmations == life.confirmations
      && LifeOk(chain, life) && Stored() && life.config in used
    }

    /** `Valid`, stated of whatever equals the database so that it is only looked into where
        it is needed. */
    ghost predicate Ready()
      reads this, rpc, rpc.transport, rpc.chunk
    {
      forall d: Database :: d == db ==> ReadyOn(d)
    }

    ghost predicate ReadyOn(d: Database)
      reads this, rpc, rpc.transport, rpc.chunk
    {
      d == db && Valid()
    }

    ghost predicate Stored()
      reads this
    {
      && ChainOk(chain.blocks) && RowsOk(chain, db) && CheckpointsOk(chain, db, starts, used)
      && (nextBlock.Some? ==>
            PositionOk(chain, db, life.config, start, nextBlock.value, used) && Committed(nextBlock.value))
    }

    /** Whatever was followed past the start block is checkpointed. */
    ghost predicate Committed(next: nat)
      reads this
    {
      next <= life.config.fromBlock || CheckpointPast(db, life.config, next - 1)
    }

    /** A first process on an empty database. */
    constructor (chain: Chain, life: Life)
      requires ChainOk(chain.blocks) && LifeOk(chain, life)
      ensures Valid() && fresh(rpc) && fresh(rpc.transport) && fresh(rpc.chunk)
      ensures this.chain == chain && this.life == life && used == {life.config}
      ensures db == Database(map[], map[], map[]) && nextBlock == None && rpc.transport.requests == 0
    {
      this.chain, this.life := chain, life;
      rpc := new ChainConfig(life.world, life.initial, life.min, life.max, life.confirmations);
      tick, nextBlock, db, start, starts, used := 0, None, Database(map[], map[], map[]), 0, map[], {life.config};
    }

    /** The process died, at whatever point, and another one starts on its database. */
    method Restart(life: Life)
      requires Valid() && LifeOk(chain, life)
      modifies this`life, this`rpc, this`tick, this`nextBlock, this`used
      ensures Valid() && fresh(rpc) && fresh(rpc.transport) && fresh(rpc.chunk)
      ensures this.life == life && used == old(used) + {life.config} && nextBlock == None
      ensures rpc.transport.requests == 0
    {
      this.life := life;
      rpc := new ChainConfig(life.world, life.initial, life.min, life.max, life.confirmations);
      tick, nextBlock := 0, None;
      used := used + {life.config};
      assert forall c, from :: StartedBy(old(used), c, from) ==> StartedBy(used, c, from);
    }

    /** The timestamps of the entries' blocks, each block read once. */
    method StampEntries(decoded: seq<SettlementLog>) returns (r: Option<seq<SettlementLog>>)
      ensures r.Some? ==> r.value == StampAll(decoded, chain.time)
      ensures Smooth(life) ==> r.Some?
    {
      var rest: set<nat> := set i | 0 <= i < |decoded| :: BlockOf(decoded[i]);
      var timestamps: map<nat, nat> := map[];
      while rest != {}
        invariant forall i :: 0 <= i < |decoded| ==> BlockOf(decoded[i]) in rest || BlockOf(decoded[i]) in timestamps
        invariant forall b :: b in timestamps ==> timestamps[b] == chain.time(b)
        decreases rest
      {
        var block :| block in rest;
        var t, l := tick, life;
        var answer, _, _ := Retry.RetryRpcAttempts<nat, ()>(MAX_CALL_ATTEMPTS,
          k => if l.timestampFails(t, block, k) then Err(()) else Ok(chain.time(block)),
          l.entropy, (k: nat) => l.cancelled(t, k));
        if answer.None? || answer.value.Err? {
          return None;
        }
        timestamps, rest := timestamps[block := answer.value.value], rest - {block};
      }
      var stamped := seq(|decoded|, i requires 0 <= i < |decoded| =>
        SetTimestamp(decoded[i], if BlockOf(decoded[i]) in timestamps then timestamps[BlockOf(decoded[i])] else 0));
      assert forall i :: 0 <= i < |decoded| ==> stamped[i] == StampAll(decoded, chain.time)[i];
      return Some(stamped);
    }

    /** Insert one entry unless its key is taken; `None` when the database failed. */
    method InsertEntry(e: SettlementLog, op: nat) returns (inserted: Option<bool>)
      modifies this`db
      ensures EntryStored(old(db), db, life.config, e) || (inserted == None && db == old(db))
      ensures inserted.Some? ==> (inserted.value <==> db != old(db)) && EntryStored(old(db), db, life.config, e)
      ensures Smooth(life) ==> inserted.Some?
    {
      var write := life.write(tick, op);
      match e {
        case Settled(s) =>
          if write.NotDone? {
            return None;
          }
          inserted := Some(s.key !in db.settled);
          db := db.(settled := Insert(db.settled, AsRow(s, life.config.entryPoint)));
        case Claimed(claim) =>
          if life.config.rewardPool.None? {
            return Some(false);
          }
          if write.NotDone? {
            return None;
          }
          inserted := Some(claim.key !in db.claims);
          db := db.(claims := Insert(db.claims, AsRow(claim, life.config.rewardPool.value)));
      }
      if write.DoneUnconfirmed? {
        inserted := None;
      }
    }

    /** Insert entry `i` of a chunk's entries. */
    method StoreEntry(
      entries: seq<SettlementLog>, i: nat,
      ghost lo: nat, ghost hi: nat, ghost was: Database, ghost before: Database, ghost first: nat, ghost last: nat)
      returns (inserted: Option<bool>)
      requires ChainOk(chain.blocks) && RowsOk(chain, db) && EntriesAre(chain, life.config, entries, lo, hi)
      requires i < |entries| && EntriesStored(db, life.config, entries[..i])
      requires first <= lo && hi <= last && GrowsWithin(before, db, first, last) && Grows(was, db)
      modifies this`db
      ensures RowsOk(chain, db) && db.checkpoints == old(db).checkpoints
      ensures GrowsWithin(before, db, first, last) && Grows(was, db)
      ensures inserted.Some? ==>
                && EntriesStored(db, life.config, entries[..i + 1])
                && Size(db) == Size(old(db)) + if inserted.value then 1 else 0
      ensures Smooth(life) ==> inserted.Some?
    {
      inserted := InsertEntry(entries[i], i);
      if db != old(db) || inserted.Some? {
        EntryKeeps(chain, before, old(db), db, life.config, entries, i, lo, hi, first, last);
        GrowsOn(was, old(db), db);
      }
    }

    /** Insert a chunk's entries in order, stopping at the first failure. */
    method InsertEntries(
      entries: seq<SettlementLog>, ghost lo: nat, ghost hi: nat,
      ghost before: Database, ghost first: nat, ghost last: nat)
      returns (stored: Option<nat>)
      requires ChainOk(chain.blocks) && RowsOk(chain, db) && EntriesAre(chain, life.config, entries, lo, hi)
      requires first <= lo && hi <= last && GrowsWithin(before, db, first, last)
      modifies this`db
      ensures RowsOk(chain, db) && Grows(old(db), db) && db.checkpoints == old(db).checkpoints
      ensures GrowsWithin(before, db, first, last)
      ensures stored.Some? ==> EntriesStored(db, life.config, entries) && Size(db) == Size(old(db)) + stored.value
      ensures Smooth(life) ==> stored.Some?
    {
      var n := 0;
      for i := 0 to |entries|
        invariant RowsOk(chain, db) && Grows(old(db), db) && db.checkpoints == old(db).checkpoints
        invariant GrowsWithin(before, db, first, last)
        invariant EntriesStored(db, life.config, entries[..i]) && Size(db) == Size(old(db)) + n
      {
        var inserted := StoreEntry(entries, i, lo, hi, old(db), before, first, last);
        if inserted.None? {
          return None;
        }
        n := n + if inserted.value then 1 else 0;
      }
      assert entries[..|entries|] == entries;
      return Some(n);
    }

    /** Stamp and insert the entries decoded from blocks lo, ..., hi - 1. */
    method StoreLogs(
      decoded: seq<SettlementLog>, ghost lo: nat, ghost hi: nat,
      ghost before: Database, ghost first: nat, ghost last: nat)
      returns (stored: Option<nat>)
      requires Stored() && EntriesAre(chain, life.config, StampAll(decoded, chain.time), lo, hi)
      requires first <= lo && hi <= last && GrowsWithin(before, db, first, last)
      modifies this`db
      ensures Stored() && GrowsWithin(before, db, first, last) && db.checkpoints == old(db).checkpoints
      ensures stored.Some? ==> Covered(chain, db, life.config, lo, hi) && Size(db) == Size(old(db)) + stored.value
      ensures Smooth(life) ==> stored.Some?
    {
      if decoded == [] {
        assert StampAll(decoded, chain.time) == [];
        EntriesCover(chain, db, life.config, [], lo, hi);
        return Some(0);
      }
      var entries := StampEntries(decoded);
      if entries.None? {
        return None;
      }
      stored := InsertEntries(entries.value, lo, hi, before, first, last);
      GrowthKeeps(chain, old(db), db, starts, used);
      if stored.Some? {
        EntriesCover(chain, db, life.config, entries.value, lo, hi);
      }
    }

    /** Load the position when there is none in memory. */
    method Begin() returns (ok: bool)
      requires Valid()
      modifies this`tick, this`nextBlock, this`start
      ensures Valid() && tick == old(tick) + 1
      ensures ok ==> nextBlock.Some? && nextBlock.value == old(FirstBlock())
      ensures old(nextBlock).Some? ==> nextBlock == old(nextBlock)
      ensures Smooth(life) ==> ok
    {
      tick := tick + 1;
      if life.fails(tick, 0) {
        return false;
      }
      if nextBlock.Some? {
        return true;
      }
      if life.fails(tick, 1) {
        return false;
      }
      nextBlock := Some(StartBlock(Checkpoint(), life.config.fromBlock));
      ghost var key := SourceKey(life.config);
      start := if key in db.checkpoints && life.config.fromBlock <= db.checkpoints[key] + 1 then starts[key]
               else life.config.fromBlock;
      assert StartedBy(used, life.config, start);
      return true;
    }

    function Checkpoint(): Option<nat>
      reads this
    {
      var key := SourceKey(life.config);
      if key in db.checkpoints then Some(db.checkpoints[key]) else None
    }

    /** The checkpoint stands just below `next`. */
    predicate CheckpointedTo(next: nat)
      reads this
    {
      Checkpoint().Some? && Checkpoint().value + 1 == next
    }

    /** Where a poll begins. */
    function FirstBlock(): nat
      reads this
    {
      if nextBlock.Some? then nextBlock.value else StartBlock(Checkpoint(), life.config.fromBlock)
    }

    /** The next chunk's logs, filtered by the node and decoded, and its last block. */
    method FetchChunk(next: nat, target: nat) returns (r: Option<Decoded>)
      requires rpc.Valid() && next <= target && Trusted(rpc.transport.world, rpc.transport.requests, target)
      requires rpc.transport.world.blocks == chain.blocks
      modifies rpc.transport, rpc.chunk
      ensures rpc.Valid() && rpc.transport.requests > old(rpc.transport.requests)
      ensures r.Some? ==>
                && next <= r.value.end <= target
                && EntriesAre(chain, life.config, StampAll(r.value.entries, chain.time), next, r.value.end + 1)
      ensures Healthy(rpc.transport.world) && HeadsReach(rpc.transport.world, old(rpc.transport.requests), target) ==>
                r.Some?
    {
      HealthySucceeds(rpc.transport.world, rpc.transport.requests, next, target);
      var chunk, _ := rpc.FetchFilteredLogsChunk(next, target, U64_MAX + target, AllCaughtUp(rpc.transport.world), 0);
      if chunk.Err? {
        return None;
      }
      FilterLosesNothing(chunk.value.logs, life.config);
      DecodedRows(chunk.value.logs, life.config, chain.time);
      return Some(Decoded(DecodeAll(Filtered(chunk.value.logs, life.config), life.config), chunk.value.end));
    }

    /** Move the checkpoint, and the position when the write is known to be done. */
    method Commit(end: nat, op: nat) returns (ok: bool)
      requires Stored() && nextBlock.Some? && nextBlock.value <= end
      requires Covered(chain, db, life.config, nextBlock.value, end + 1)
      modifies this`nextBlock, this`db, this`starts
      ensures Stored() && db.settled == old(db).settled && db.claims == old(db).claims && Size(db) == Size(old(db))
      ensures !ok ==> nextBlock == old(nextBlock)
      ensures ok ==> nextBlock.Some? && nextBlock.value == end + 1 && CheckpointedTo(end + 1)
      ensures Smooth(life) ==> ok
    {
      CoveredJoin(chain, db, life.config, start, nextBlock.value, end + 1);
      var write := life.write(tick, op);
      if !write.NotDone? {
        CheckpointKeeps(chain, db, starts, used, life.config, start, end);
        db := db.(checkpoints := db.checkpoints[SourceKey(life.config) := end]);
        starts := starts[SourceKey(life.config) := start];
      }
      ok := write.Done?;
      if ok {
        nextBlock := Some(end + 1);
      }
    }

    /** Store a chunk's entries, then checkpoint it. */
    method SaveChunk(decoded: seq<SettlementLog>, end: nat, ghost target: nat, ghost before: Database, ghost lo: nat)
      returns (stored: Option<nat>)
      requires Stored() && nextBlock.Some? && lo <= nextBlock.value <= end <= target
      requires EntriesAre(chain, life.config, StampAll(decoded, chain.time), nextBlock.value, end + 1)
      requires GrowsWithin(before, db, lo, target + 1)
      modifies this`nextBlock, this`db, this`starts
      ensures GrowsWithin(before, db, lo, target + 1)
      ensures Stored() && (stored == None ==> nextBlock == old(nextBlock))
      ensures stored.Some? ==>
                && nextBlock.Some? && nextBlock.value == end + 1 && CheckpointedTo(nextBlock.value)
                && Size(db) == Size(old(db)) + stored.value
      ensures Smooth(life) ==> stored.Some?
    {
      stored := StoreLogs(decoded, nextBlock.value, end + 1, before, lo, target + 1);
      var committed := false;
      if stored.Some? {
        committed := Commit(end, |decoded|);
      }
      stored := if committed then stored else None;
    }

    /** One chunk: fetched, stored, then checkpointed. */
    method SyncChunk(target: nat, ghost before: Database, ghost lo: nat) returns (stored: Option<nat>)
      requires Ready() && nextBlock.Some? && lo <= nextBlock.value <= target
      requires GrowsWithin(before, db, lo, target + 1)
      requires Trusted(rpc.transport.world, rpc.transport.requests, target)
      modifies this`tick, this`nextBlock, this`db, this`starts, rpc.transport, rpc.chunk
      ensures Ready() && tick > old(tick) && Trusted(rpc.transport.world, rpc.transport.requests, target)
      ensures rpc.transport.requests >= old(rpc.transport.requests)
      ensures nextBlock.Some? && old(nextBlock).value <= nextBlock.value <= target + 1
      ensures GrowsWithin(before, db, lo, target + 1)
      ensures stored == None ==> nextBlock == old(nextBlock)
      ensures stored.Some? ==>
                && old(nextBlock).value < nextBlock.value && CheckpointedTo(nextBlock.value)
                && Size(db) == Size(old(db)) + stored.value
      ensures Smooth(life) && HeadsReach(rpc.transport.world, old(rpc.transport.requests), target) ==>
                stored.Some? && HeadsReach(rpc.transport.world, rpc.transport.requests, target)
    {
      assert ReadyOn(db);
      ghost var t0 := rpc.transport.requests;
      stored := SyncNext(target, before, lo);
      ReachesLater(rpc.transport.world, t0, rpc.transport.requests, target);
    }

    method SyncNext(target: nat, ghost before: Database, ghost lo: nat) returns (stored: Option<nat>)
      requires Valid() && nextBlock.Some? && lo <= nextBlock.value <= target
      requires GrowsWithin(before, db, lo, target + 1)
      requires Trusted(rpc.transport.world, rpc.transport.requests, target)
      modifies this`tick, this`nextBlock, this`db, this`starts, rpc.transport, rpc.chunk
      ensures Valid() && tick > old(tick) && rpc.transport.requests >= old(rpc.transport.requests)
      ensures nextBlock.Some? && old(nextBlock).value <= nextBlock.value <= target + 1
      ensures GrowsWithin(before, db, lo, target + 1)
      ensures stored == None ==> nextBlock == old(nextBlock)
      ensures stored.Some? ==>
                && old(nextBlock).value < nextBlock.value && CheckpointedTo(nextBlock.value)
                && Size(db) == Size(old(db)) + stored.value
      ensures Smooth(life) && HeadsReach(rpc.transport.world, old(rpc.transport.requests), target) ==> stored.Some?
    {
      tick := tick + 1;
      stored := None;
      var chunk := FetchChunk(nextBlock.value, target);
      if chunk.Some? {
        stored := SaveChunk(chunk.value.entries, chunk.value.end, target, before, lo);
      }
    }

    /** Store every log from the position up to `target`. */
    method SyncTo(target: nat) returns (stored: Option<nat>)
      requires Ready() && nextBlock.Some?
      requires nextBlock.value <= target ==> Trusted(rpc.transport.world, rpc.transport.requests, target)
      modifies this`tick, this`nextBlock, this`db, this`starts, rpc.transport, rpc.chunk
      ensures Ready() && rpc.transport.requests >= old(rpc.transport.requests)
      ensures nextBlock.Some? && nextBlock.value >= old(nextBlock).value
      ensures GrowsWithin(old(db), db, old(nextBlock).value, target + 1)
      ensures stored.Some? ==>
                && nextBlock.value == Max(old(nextBlock).value, target + 1)
                && (nextBlock != old(nextBlock) ==> CheckpointedTo(nextBlock.value))
                && Size(db) == Size(old(db)) + stored.value
      ensures Smooth(life) && HeadsReach(rpc.transport.world, old(rpc.transport.requests), target) ==> stored.Some?
    {
      var n := 0;
      stored := None;
      ghost var smooth := Smooth(life) && HeadsReach(rpc.transport.world, rpc.transport.requests, target);
      while nextBlock.value <= target
        invariant smooth ==> HeadsReach(rpc.transport.world, rpc.transport.requests, target)
        invariant Ready() && nextBlock.Some? && rpc.transport.requests >= old(rpc.transport.requests)
        invariant old(nextBlock).value <= nextBlock.value <= Max(old(nextBlock).value, target + 1)
        invariant nextBlock.value <= target ==> Trusted(rpc.transport.world, rpc.transport.requests, target)
        invariant GrowsWithin(old(db), db, old(nextBlock).value, target + 1) && Size(db) == Size(old(db)) + n
        invariant nextBlock != old(nextBlock) ==> CheckpointedTo(nextBlock.value)
        decreases target + 1 - nextBlock.value
      {
        var chunk := SyncChunk(target, old(db), old(nextBlock).value);
        if chunk.None? {
          return;
        }
        n := n + chunk.value;
      }
      stored := Some(n);
    }

    /** Store every log from the position up to the safe head. */
    method SyncToHead() returns (r: Option<nat>, ghost target: nat, ghost read: HeadRead)
      requires Ready() && LifeSound(life) && nextBlock.Some?
      modifies this`tick, this`nextBlock, this`db, this`starts, rpc.transport, rpc.chunk
      ensures Ready()
      ensures nextBlock.Some? && GrowsWithin(old(db), db, old(nextBlock).value, target + 1)
      ensures r.Some? ==>
                && nextBlock.value == Max(old(nextBlock).value, target + 1)
                && (nextBlock != old(nextBlock) ==> CheckpointedTo(nextBlock.value))
                && Size(db) == Size(old(db)) + r.value
      ensures nextBlock.value >= old(nextBlock).value
      ensures r.Some? ==> SafeBlock(life.world, life.confirmations, read) == Some(target)
                          && old(rpc.transport.requests) < read.request <= rpc.transport.requests
      ensures rpc.transport.requests >= old(rpc.transport.requests)
      ensures Smooth(life) ==> r.Some?
    {
      assert ReadyOn(db);
      target, r := 0, None;
      var head := rpc.SafeHead();
      read := HeadRead(rpc.transport.requests, rpc.transport.preferred);
      if head.Ok? {
        target := head.value;
        r := SyncTo(head.value);
      }
    }

    /** Store every settlement log up to the safe head; the number of new rows, unless
        something failed. */
    method SyncOnce() returns (r: Option<nat>, ghost target: nat, ghost read: HeadRead)
      requires Ready() && LifeSound(life)
      modifies this`tick, this`nextBlock, this`db, this`start, this`starts, rpc.transport, rpc.chunk
      ensures Ready()
      ensures GrowsWithin(old(db), db, old(FirstBlock()), target + 1)
      ensures r.Some? ==>
                && Size(db) == Size(old(db)) + r.value
                && nextBlock.Some? && nextBlock.value == Max(old(FirstBlock()), target + 1)
                && (nextBlock.value > old(FirstBlock()) ==> CheckpointedTo(nextBlock.value))
      ensures old(nextBlock).Some? ==> nextBlock.Some? && nextBlock.value >= old(nextBlock).value
      ensures r.Some? ==> SafeBlock(life.world, life.confirmations, read) == Some(target)
                          && old(rpc.transport.requests) < read.request <= rpc.transport.requests
      ensures rpc.transport.requests >= old(rpc.transport.requests)
      ensures Smooth(life) ==> r.Some?
    {
      assert ReadyOn(db);
      target, r, read := 0, None, HeadRead(0, 0);
      var begun := Begin();
      if begun {
        r, target, read := SyncToHead();
      }
    }

    /** One life's polls; a failed poll is retried at the next. `heads` are the heads that
        the polls that succeeded had read. */
    method PollAll() returns (ghost heads: seq<Option<HeadRead>>)
      requires Ready() && LifeSound(life)
      modifies this`tick, this`nextBlock, this`db, this`start, this`starts, rpc.transport, rpc.chunk
      ensures Ready() && Grows(old(db), db)
      ensures |heads| == life.polls && PollsDone(life, db, heads, old(rpc.transport.requests))
      ensures Smooth(life) ==> forall k :: 0 <= k < |heads| ==> heads[k].Some?
    {
      heads := [];
      for poll := 0 to life.polls
        invariant Ready() && Grows(old(db), db) && |heads| == poll
        invariant rpc.transport.requests >= old(rpc.transport.requests)
        invariant AllReached(life, heads, old(rpc.transport.requests), rpc.transport.requests, nextBlock.GetOr(0))
        invariant Smooth(life) ==> forall k :: 0 <= k < |heads| ==> heads[k].Some?
      {
        ghost var mid, t0, next := db, rpc.transport.requests, nextBlock.GetOr(0);
        var r;
        ghost var target, read;
        r, target, read := SyncOnce();
        GrowsOn(old(db), mid, db);
        ghost var head := if r.Some? then Some(read) else None;
        OneMoreReached(life, heads, head, old(rpc.transport.requests), t0, rpc.transport.requests, next,
                       nextBlock.GetOr(0));
        heads := heads + [head];
      }
      assert ReadyOn(db);
      ReachedIsDone(heads, old(rpc.transport.requests));
    }

    /** One life: of the process as it stands, or of one that starts after it died. */
    method LiveThrough(life: Life, first: bool) returns (ghost heads: seq<Option<HeadRead>>)
      requires Ready() && LifeOk(chain, life) && LifeSound(life)
      requires first ==> this.life == life && rpc.transport.requests == 0
      modifies this, rpc.transport, rpc.chunk
      ensures Ready() && this.life == life && used <= old(used) + {life.config}
      ensures AllPolled(life, db, heads)
      ensures (rpc == old(rpc) && rpc.transport == old(rpc.transport) && rpc.chunk == old(rpc.chunk))
              || (fresh(rpc) && fresh(rpc.transport) && fresh(rpc.chunk))
    {
      assert ReadyOn(db);
      if !first {
        Restart(life);
      }
      heads := PollAll();
    }

    lemma ReachedIsDone(heads: seq<Option<HeadRead>>, since: nat)
      requires Stored() && AllReached(life, heads, since, rpc.transport.requests, nextBlock.GetOr(0))
      ensures PollsDone(life, db, heads, since)
    {
      forall k | 0 <= k < |heads| && heads[k].Some?
        ensures PollDone(life, db, heads[k].value, since)
      {
        assert HasReached(life, heads[k].value, since, rpc.transport.requests, nextBlock.GetOr(0));
      }
    }
  }

  // ---- Whole runs ------------------------------------------------------------------------------

  /** The indexer over any number of lives: each polls some number of times, any poll may
      fail anywhere, and each later life starts on what the one before left. Whatever
      happened, the rows of every checkpointed source are stored exactly once each, from
      a start block some life was given for it up to its checkpoint; and the checkpoint
      is at or past every safe head that a poll of the last life read and succeeded with,
      which they all do when nothing goes wrong. */
  method RunLives(chain: Chain, lives: seq<Life>) returns (db: Database, ghost heads: seq<Option<HeadRead>>)
    requires ChainOk(chain.blocks) && lives != []
    requires forall life :: life in lives ==> LifeOk(chain, life) && LifeSound(life)
    ensures RowsOk(chain, db)
    ensures forall c :: SourceKey(c) in db.checkpoints ==>
                          ServedFrom(chain, db, c, set life | life in lives :: life.config)
    ensures var last := lives[|lives| - 1];
            && AllPolled(last, db, heads)
            && (Smooth(last) && last.polls > 0 ==> forall block: nat ::
                  last.config.fromBlock <= block && HeadsReach(last.world, 0, block + last.confirmations) ==>
                    CheckpointPast(db, last.config, block))
  {
    heads := [];
    var sync := new SettlementSync(chain, lives[0]);
    for n := 0 to |lives|
      invariant n == 0 ==> sync.life == lives[0]
      invariant sync.Ready() && sync.chain == chain && fresh(sync) && fresh(sync.rpc)
      invariant fresh(sync.rpc.transport) && fresh(sync.rpc.chunk)
      invariant sync.used <= set life | life in lives :: life.config
      invariant n == 0 ==> sync.rpc.transport.requests == 0
      invariant n > 0 ==>
                  sync.life == lives[n - 1] && AllPolled(sync.life, sync.db, heads)
    {
      heads := sync.LiveThrough(lives[n], n == 0);
    }
    db := sync.db;
    assert sync.ReadyOn(db);
    PollsMeanProgress(sync.life, db, heads);
    CheckpointsMeanExactlyOnce(chain, db, sync.starts, sync.used, set life | life in lives :: life.config);
  }

  /** Every poll was made; unless something went wrong, every one succeeded. */
  ghost predicate AllPolled(life: Life, db: Database, heads: seq<Option<HeadRead>>) {
    && |heads| == life.polls && PollsDone(life, db, heads, 0)
    && (Smooth(life) ==> forall k :: 0 <= k < |heads| ==> heads[k].Some?)
  }

  /** With all heads past a block from the start on, so is the checkpoint. */
  lemma PollsMeanProgress(life: Life, db: Database, heads: seq<Option<HeadRead>>)
    requires AllPolled(life, db, heads)
    ensures Smooth(life) && life.polls > 0 ==> forall block: nat ::
              life.config.fromBlock <= block && HeadsReach(life.world, 0, block + life.confirmations) ==>
                CheckpointPast(db, life.config, block)
  {
    if Smooth(life) && life.polls > 0 {
      var read := heads[0].value;
      assert PollDone(life, db, read, 0);
    }
  }

  /** Some configuration with these contracts named a start from which everything up to
      the checkpoint is stored exactly once. */
  ghost predicate ServedFrom(chain: Chain, db: Database, c: SettlementConfig, used: set<SettlementConfig>)
    requires SourceKey(c) in db.checkpoints
  {
    exists d :: d in used && SameContracts(c, d)
                && StoredExactlyOnce(chain, db, c, d.fromBlock, db.checkpoints[SourceKey(c)] + 1)
  }

  lemma CheckpointsMeanExactlyOnce(
    chain: Chain, db: Database, starts: Starts, used: set<SettlementConfig>, all: set<SettlementConfig>)
    requires ChainOk(chain.blocks) && RowsOk(chain, db) && CheckpointsOk(chain, db, starts, used) && used <= all
    ensures forall c :: SourceKey(c) in db.checkpoints ==> ServedFrom(chain, db, c, all)
  {
    forall c | SourceKey(c) in db.checkpoints
      ensures ServedFrom(chain, db, c, all)
    {
      CoveredIsExactlyOnce(chain, db, c, starts[SourceKey(c)], db.checkpoints[SourceKey(c)] + 1);
    }
  }

  /** A start block set above the checkpoint opens a gap. After a poll from there, the
      stretch from the old start is complete exactly if the gap's rows had been stored
      before. */
  lemma RaisedStartLeavesGapExactly(
    chain: Chain, before: Database, after: Database, c: SettlementConfig, lo: nat, checkpoint: nat, next: nat)
    requires lo <= checkpoint + 1 <= StartBlock(Some(checkpoint), c.fromBlock) <= next
    requires Covered(chain, before, c, lo, checkpoint + 1)
    requires GrowsWithin(before, after, StartBlock(Some(checkpoint), c.fromBlock), next)
    requires Covered(chain, after, c, StartBlock(Some(checkpoint), c.fromBlock), next)
    ensures Covered(chain, after, c, lo, next)
       <==> Covered(chain, before, c, checkpoint + 1, StartBlock(Some(checkpoint), c.fromBlock))
  {
  }

  const NOTHING: Database := Database(map[], map[], map[])

  /** For instance, with a checkpoint at block 4, a start block raised to 6 and a settlement
      in block 5, no poll from there on ever stores it. */
  lemma RaisedStartLosesALog(entryPoint: Account, e: Execution) returns (chain: Chain, c: SettlementConfig)
    ensures ChainOk(chain.blocks) && c.fromBlock == 6 && StartBlock(Some(4), c.fromBlock) == 6
    ensures Covered(chain, NOTHING, c, 0, 5)
    ensures forall after, next :: 6 <= next && GrowsWithin(NOTHING, after, 6, next) ==>
              !Covered(chain, after, c, 0, next)
  {
    var log := RawLog(entryPoint, None, Some(PaidExecutionSettled), Some(0), Some(0), Some(5), Some(e), None);
    chain := Chain(b => if b == 5 then [log] else [], b => b);
    c := SettlementConfig(entryPoint, None, 6);
    var read := ReadSettled(chain.time);
    var row := read(log).value;
    forall other | OnChain(chain.blocks, read, other)
      ensures other == row
    {
      var i := RowPosition(chain.blocks, read, other);
    }
    assert OnChain(chain.blocks, read, row) by {
      RowsComeFromLogs(chain.blocks(5), entryPoint, read, row);
      assert chain.blocks(5)[0] == log;
    }
    forall after, next | 6 <= next && GrowsWithin(NOTHING, after, 6, next)
      ensures !Covered(chain, after, c, 0, next)
    {
      assert row.key !in NOTHING.settled && row.block == 5;
    }
  }
}
