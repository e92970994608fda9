/** Settlement sync: every decoded log up to the safe head is inserted under its own
    key, then the checkpoint moves. An error or a crash may fall between any two
    writes, and a restart may come with other contracts. */
module Settlement {
  import opened Wrappers
  import opened Registry

  // ---- Addresses, contracts and the checkpoint key ------------------------------------

  function Pow16(n: nat): (r: nat)
    ensures r >= 1
  {
    if n == 0 then 1 else 16 * Pow16(n - 1)
  }

  const ACCOUNTS: nat := 0x1_0000_0000_0000_0000_0000_0000_0000_0000_0000_0000

  type Account = a: nat | a < ACCOUNTS

  function HexDigit(d: nat): char
    requires d < 16
  {
    if d < 10 then '0' + d as char else 'a' + (d - 10) as char
  }

  /** The lowest `n` hex digits. */
  function HexDigits(a: nat, n: nat): (r: string)
    ensures |r| == n
    decreases n, a
  {
    if n == 0 then "" else HexDigits(a / 16, n - 1) + [HexDigit(a % 16)]
  }

  function HexAddress(a: Account): (r: string)
    ensures |r| == 42
  {
    "0x" + HexDigits(a, 40)
  }

  datatype SettlementConfig = SettlementConfig(entryPoint: Account, rewardPool: Option<Account>, fromBlock: nat)

  function SourceKey(c: SettlementConfig): string {
    match c.rewardPool
    case Some(pool) => HexAddress(c.entryPoint) + "|" + HexAddress(pool)
    case None => HexAddress(c.entryPoint)
  }

  predicate SameContracts(c: SettlementConfig, d: SettlementConfig) {
    c.entryPoint == d.entryPoint && c.rewardPool == d.rewardPool
  }

  lemma {:induction false} HexDigitsTellApart(a: nat, b: nat, n: nat)
    requires a < Pow16(n) && b < Pow16(n) && HexDigits(a, n) == HexDigits(b, n)
    ensures a == b
  {
    if n > 0 {
      var x, y := HexDigits(a, n), HexDigits(b, n);
      assert x[..n - 1] == HexDigits(a / 16, n - 1) && y[..n - 1] == HexDigits(b / 16, n - 1);
      assert x[n - 1] == HexDigit(a % 16) && y[n - 1] == HexDigit(b % 16);
      HexDigitsTellApart(a / 16, b / 16, n - 1);
    }
  }

  lemma {:induction false} Pow16Adds(m: nat, n: nat)
    ensures Pow16(m + n) == Pow16(m) * Pow16(n)
  {
    if m > 0 {
      Pow16Adds(m - 1, n);
      assert Pow16(m + n) == 16 * (Pow16(m - 1) * Pow16(n));
    }
  }

  lemma AccountsFitFortyDigits()
    ensures Pow16(40) == ACCOUNTS
  {
    assert Pow16(5) == 0x10_0000;
    Pow16Adds(5, 5);
    Pow16Adds(10, 10);
    Pow16Adds(20, 20);
  }

  lemma HexTellsApart(a: Account, b: Account)
    requires HexAddress(a) == HexAddress(b)
    ensures a == b
  {
    assert HexAddress(a)[2..] == HexDigits(a, 40) && HexAddress(b)[2..] == HexDigits(b, 40);
    AccountsFitFortyDigits();
    HexDigitsTellApart(a, b, 40);
  }

  /** Changing either contract, and nothing else, changes the checkpoint's key. */
  lemma SourceKeyTellsContractsApart(c: SettlementConfig, d: SettlementConfig)
    ensures SourceKey(c) == SourceKey(d) <==> SameContracts(c, d)
  {
    if SourceKey(c) == SourceKey(d) {
      assert |SourceKey(c)| == if c.rewardPool.Some? then 85 else 42;
      assert |SourceKey(d)| == if d.rewardPool.Some? then 85 else 42;
      assert SourceKey(c)[..42] == HexAddress(c.entryPoint) && SourceKey(d)[..42] == HexAddress(d.entryPoint);
      HexTellsApart(c.entryPoint, d.entryPoint);
      if c.rewardPool.Some? {
        assert SourceKey(c)[43..] == HexAddress(c.rewardPool.value);
        assert SourceKey(d)[43..] == HexAddress(d.rewardPool.value);
        HexTellsApart(c.rewardPool.value, d.rewardPool.value);
      }
    }
  }

  // ---- Logs and rows ------------------------------------------------------------------

  datatype Topic = PaidExecutionSettled | ExitCreditClaimed | OtherEvent

  datatype Execution = Execution(
    executionId: nat, paymentId: nat, exit: Account, feeAsset: Account,
    exitFee: nat, networkFee: nat, actionTarget: Account, actionSuccess: bool)

  datatype Credit = Credit(exit: Account, recipient: Account, asset: Account, amount: nat)

  /** A log as an endpoint returns it; the last two fields are what the ABI decoder
      makes of its data. */
  datatype RawLog = RawLog(
    address: Account, removed: Option<bool>, topic: Option<Topic>,
    txHash: Option<nat>, logIndex: Option<nat>, block: Option<nat>,
    execution: Option<Execution>, credit: Option<Credit>)

  datatype LogKey = LogKey(txHash: nat, logIndex: nat)

  /** A decoded event; its timestamp is filled in later. */
  datatype Stamped<+D> = Stamped(key: LogKey, block: nat, timestamp: nat, data: D)
  datatype SettlementLog = Settled(settlement: Stamped<Execution>) | Claimed(claim: Stamped<Credit>)

  function BlockOf(e: SettlementLog): nat {
    match e
    case Settled(s) => s.block
    case Claimed(c) => c.block
  }

  function SetTimestamp(e: SettlementLog, timestamp: nat): SettlementLog {
    match e
    case Settled(s) => Settled(s.(timestamp := timestamp))
    case Claimed(c) => Claimed(c.(timestamp := timestamp))
  }

  /** What the node's log filter lets through. */
  predicate Matches(log: RawLog, c: SettlementConfig) {
    && (log.address == c.entryPoint || Some(log.address) == c.rewardPool)
    && (log.topic == Some(PaidExecutionSettled) || (c.rewardPool.Some? && log.topic == Some(ExitCreditClaimed)))
  }

  function Filtered(logs: seq<RawLog>, c: SettlementConfig): seq<RawLog> {
    if logs == [] then []
    else Filtered(logs[..|logs| - 1], c) + if Matches(logs[|logs| - 1], c) then [logs[|logs| - 1]] else []
  }

  function DecodeSettlementLog(log: RawLog, c: SettlementConfig): Option<SettlementLog> {
    if log.removed == Some(true) || log.topic.None? || log.txHash.None? || log.logIndex.None? || log.block.None?
    then None
    else
      var key := LogKey(log.txHash.value, log.logIndex.value);
      if log.address == c.entryPoint && log.topic.value.PaidExecutionSettled? then
        if log.execution.None? then None
        else Some(Settled(Stamped(key, log.block.value, 0, log.execution.value)))
      else if Some(log.address) == c.rewardPool && log.topic.value.ExitCreditClaimed? then
        if log.credit.None? then None
        else Some(Claimed(Stamped(key, log.block.value, 0, log.credit.value)))
      else None
  }

  function DecodeAll(logs: seq<RawLog>, c: SettlementConfig): seq<SettlementLog> {
    if logs == [] then []
    else
      var last := DecodeSettlementLog(logs[|logs| - 1], c);
      DecodeAll(logs[..|logs| - 1], c) + if last.Some? then [last.value] else []
  }

  /** The node's filter drops no log that would have been decoded. */
  lemma {:induction false} FilterLosesNothing(logs: seq<RawLog>, c: SettlementConfig)
    ensures DecodeAll(Filtered(logs, c), c) == DecodeAll(logs, c)
  {
    if logs != [] {
      var n := |logs| - 1;
      FilterLosesNothing(logs[..n], c);
      var kept := Filtered(logs[..n], c);
      assert (kept + [logs[n]])[..|kept|] == kept;
      assert kept + [] == kept;
    }
  }

  /** A stored row. */
  datatype Row<+D> = Row(key: LogKey, block: nat, timestamp: nat, contract: Account, data: D)
  type Table<+D> = map<LogKey, Row<D>>

  /** The row a log is worth, whoever reads it. */
  type Reader<!D> = RawLog -> Option<Row<D>>

  function ReadSettled(time: nat -> nat): Reader<Execution> {
    (log: RawLog) =>
      if log.removed == Some(true) || log.topic != Some(PaidExecutionSettled) || log.txHash.None? || log.logIndex.None?
         || log.block.None? || log.execution.None? then None
      else Some(Row(LogKey(log.txHash.value, log.logIndex.value), log.block.value, time(log.block.value), log.address,
                    log.execution.value))
  }

  function ReadClaimed(time: nat -> nat): Reader<Credit> {
    (log: RawLog) =>
      if log.removed == Some(true) || log.topic != Some(ExitCreditClaimed) || log.txHash.None? || log.logIndex.None?
         || log.block.None? || log.credit.None? then None
      else Some(Row(LogKey(log.txHash.value, log.logIndex.value), log.block.value, time(log.block.value), log.address,
                    log.credit.value))
  }

  /** The rows the logs of one contract are worth, in chain order. */
  function RowsOf<D>(logs: seq<RawLog>, contract: Account, read: Reader<D>): seq<Row<D>> {
    if logs == [] then []
    else
      var last := logs[|logs| - 1];
      RowsOf(logs[..|logs| - 1], contract, read)
      + if last.address == contract && read(last).Some? then [read(last).value] else []
  }

  lemma {:induction false} RowsOfBoth<D>(first: seq<RawLog>, second: seq<RawLog>, contract: Account, read: Reader<D>)
    ensures RowsOf(first + second, contract, read) == RowsOf(first, contract, read) + RowsOf(second, contract, read)
  {
    if second == [] {
      assert first + second == first;
    } else {
      var n := |second| - 1;
      assert (first + second)[..|first + second| - 1] == first + second[..n];
      RowsOfBoth(first, second[..n], contract, read);
    }
  }

  lemma {:induction false} RowsComeFromLogs<D>(logs: seq<RawLog>, contract: Account, read: Reader<D>, row: Row<D>)
    ensures row in RowsOf(logs, contract, read)
       <==> exists i :: 0 <= i < |logs| && logs[i].address == contract && read(logs[i]) == Some(row)
  {
    if logs != [] {
      var n := |logs| - 1;
      RowsComeFromLogs(logs[..n], contract, read, row);
      if i :| 0 <= i < n && logs[i].address == contract && read(logs[i]) == Some(row) {
        assert logs[..n][i] == logs[i];
      }
    }
  }

  // ---- The chain ------------------------------------------------------------------------

  /** Log `i` of block `b`. */
  ghost predicate At(blocks: Blocks<RawLog>, b: nat, i: nat, log: RawLog) {
    i < |blocks(b)| && blocks(b)[i] == log
  }

  /** Logs name the block they are in, and no two logs share a key. */
  ghost predicate ChainOk(blocks: Blocks<RawLog>) {
    && (forall b, i, log :: At(blocks, b, i, log) && log.block.Some? ==> log.block.value == b)
    && (forall b, i, log, d, j, other :: At(blocks, b, i, log) && At(blocks, d, j, other) && SameKey(log, other)
                                         ==> b == d && i == j)
  }

  predicate SameKey(log: RawLog, other: RawLog) {
    log.txHash.Some? && log.logIndex.Some? && log.txHash == other.txHash && log.logIndex == other.logIndex
  }

  /** A reader names each row by its log. */
  ghost predicate Faithful<D(!new)>(read: Reader<D>) {
    forall log :: read(log).Some? ==>
                    && log.txHash == Some(read(log).value.key.txHash)
                    && log.logIndex == Some(read(log).value.key.logIndex)
                    && log.block == Some(read(log).value.block) && read(log).value.contract == log.address
  }

  /** The row is what some log on the chain is worth. */
  ghost predicate OnChain<D>(blocks: Blocks<RawLog>, read: Reader<D>, row: Row<D>) {
    row in RowsOf(blocks(row.block), row.contract, read)
  }

  lemma RowPosition<D(!new)>(blocks: Blocks<RawLog>, read: Reader<D>, row: Row<D>) returns (i: nat)
    requires OnChain(blocks, read, row)
    ensures i < |blocks(row.block)| && read(blocks(row.block)[i]) == Some(row)
  {
    RowsComeFromLogs(blocks(row.block), row.contract, read, row);
    var logs := blocks(row.block);
    i :| 0 <= i < |logs| && logs[i].address == row.contract && read(logs[i]) == Some(row);
  }

  /** A key names one row only. */
  lemma KeyNamesOneRow<D(!new)>(blocks: Blocks<RawLog>, read: Reader<D>, row: Row<D>, other: Row<D>)
    requires ChainOk(blocks) && Faithful(read) && OnChain(blocks, read, row) && OnChain(blocks, read, other)
    requires row.key == other.key
    ensures row == other
  {
    var i := RowPosition(blocks, read, row);
    var j := RowPosition(blocks, read, other);
    assert SameKey(blocks(row.block)[i], blocks(other.block)[j]);
    assert At(blocks, row.block, i, blocks(row.block)[i]) && At(blocks, other.block, j, blocks(other.block)[j]);
  }

  lemma RowInBoth<D>(first: seq<RawLog>, second: seq<RawLog>, contract: Account, read: Reader<D>, row: Row<D>)
    ensures row in RowsOf(first + second, contract, read)
       <==> row in RowsOf(first, contract, read) || row in RowsOf(second, contract, read)
  {
    RowsOfBoth(first, second, contract, read);
  }

  lemma RowsInBlock<D(!new)>(blocks: Blocks<RawLog>, read: Reader<D>, contract: Account, b: nat, row: Row<D>)
    requires ChainOk(blocks) && Faithful(read)
    ensures row in RowsOf(blocks(b), contract, read)
       <==> row.block == b && row.contract == contract && OnChain(blocks, read, row)
  {
    RowsComeFromLogs(blocks(b), contract, read, row);
    assert forall i :: 0 <= i < |blocks(b)| ==> At(blocks, b, i, blocks(b)[i]);
  }

  lemma {:induction false} RowsInRangeIf<D(!new)>(
    blocks: Blocks<RawLog>, read: Reader<D>, contract: Account, lo: nat, hi: nat, row: Row<D>, held: bool)
    requires forall b :: row in RowsOf(blocks(b), contract, read) <==> row.block == b && held
    ensures row in RowsOf(Logs(blocks, lo, hi), contract, read) <==> lo <= row.block < hi && held
    decreases hi
  {
    if lo < hi {
      RowsInRangeIf(blocks, read, contract, lo, hi - 1, row, held);
      RowInBoth(Logs(blocks, lo, hi - 1), blocks(hi - 1), contract, read, row);
    }
  }

  /** Row `row` is among those of blocks lo, ..., hi - 1 exactly if it is its own block's
      and that block is in the range. */
  lemma RowsInRange<D(!new)>(
    blocks: Blocks<RawLog>, read: Reader<D>, contract: Account, lo: nat, hi: nat, row: Row<D>)
    requires ChainOk(blocks) && Faithful(read)
    ensures row in RowsOf(Logs(blocks, lo, hi), contract, read)
       <==> lo <= row.block < hi && row.contract == contract && OnChain(blocks, read, row)
  {
    forall b
      ensures row in RowsOf(blocks(b), contract, read)
         <==> row.block == b && row.contract == contract && OnChain(blocks, read, row)
    {
      RowsInBlock(blocks, read, contract, b, row);
    }
    RowsInRangeIf(blocks, read, contract, lo, hi, row, row.contract == contract && OnChain(blocks, read, row));
  }

  predicate DistinctKeys<D>(rows: seq<Row<D>>) {
    forall i, j :: 0 <= i < j < |rows| ==> rows[i].key != rows[j].key
  }

  ghost predicate ShareNoKey<D(!new)>(rows: seq<Row<D>>, others: seq<Row<D>>) {
    forall row, other :: row in rows && other in others ==> row.key != other.key
  }

  lemma DistinctBoth<D(!new)>(rows: seq<Row<D>>, others: seq<Row<D>>)
    requires DistinctKeys(rows) && DistinctKeys(others) && ShareNoKey(rows, others)
    ensures DistinctKeys(rows + others)
  {
    forall i, j | 0 <= i < |rows| && 0 <= j < |others|
      ensures rows[i].key != others[j].key
    {
      assert rows[i] in rows && others[j] in others;
    }
  }

  lemma DistinctAppend<D>(rows: seq<Row<D>>, row: Row<D>)
    requires DistinctKeys(rows) && forall r :: r in rows ==> r.key != row.key
    ensures DistinctKeys(rows + [row])
  {
    assert forall i :: 0 <= i < |rows| ==> rows[i] in rows;
  }

  lemma {:induction false} BlockRowsAreDistinct<D(!new)>(
    blocks: Blocks<RawLog>, read: Reader<D>, contract: Account, b: nat, n: nat)
    requires ChainOk(blocks) && Faithful(read) && n <= |blocks(b)|
    ensures DistinctKeys(RowsOf(blocks(b)[..n], contract, read))
  {
    if n > 0 {
      BlockRowsAreDistinct(blocks, read, contract, b, n - 1);
      var logs, last := blocks(b)[..n], blocks(b)[n - 1];
      assert logs[..n - 1] == blocks(b)[..n - 1];
      var rows := RowsOf(logs[..n - 1], contract, read);
      if last.address == contract && read(last).Some? {
        forall r | r in rows
          ensures r.key != read(last).value.key
        {
          RowsComeFromLogs(logs[..n - 1], contract, read, r);
          var i :| 0 <= i < n - 1 && logs[..n - 1][i].address == contract && read(logs[..n - 1][i]) == Some(r);
          assert At(blocks, b, i, blocks(b)[i]) && At(blocks, b, n - 1, blocks(b)[n - 1]);
        }
        DistinctAppend(rows, read(last).value);
      }
    }
  }

  /** Pieces that are distinct and share no key with what came before add up to
      distinct rows. */
  lemma {:induction false} PiecesAreDistinct<D(
    !new)>(upTo: nat -> seq<Row<D>>, piece: nat -> seq<Row<D>>, lo: nat, hi: nat)
    requires lo <= hi && upTo(lo) == []
    requires forall b :: lo <= b < hi ==>
               upTo(b + 1) == upTo(b) + piece(b) && DistinctKeys(piece(b)) && ShareNoKey(upTo(b), piece(b))
    ensures DistinctKeys(upTo(hi))
    decreases hi
  {
    if lo < hi {
      PiecesAreDistinct(upTo, piece, lo, hi - 1);
      DistinctBoth(upTo(hi - 1), piece(hi - 1));
      assert upTo(hi - 1 + 1) == upTo(hi - 1) + piece(hi - 1);
    }
  }

  lemma WholeBlockIsDistinct<D(!new)>(blocks: Blocks<RawLog>, read: Reader<D>, contract: Account, b: nat)
    requires ChainOk(blocks) && Faithful(read)
    ensures DistinctKeys(RowsOf(blocks(b), contract, read))
  {
    assert blocks(b)[..|blocks(b)|] == blocks(b);
    BlockRowsAreDistinct(blocks, read, contract, b, |blocks(b)|);
  }

  lemma BlockIsAPiece<D(!new)>(blocks: Blocks<RawLog>, read: Reader<D>, contract: Account, lo: nat, b: nat)
    requires ChainOk(blocks) && Faithful(read) && lo <= b
    ensures RowsOf(Logs(blocks, lo, b + 1), contract, read)
         == RowsOf(Logs(blocks, lo, b), contract, read) + RowsOf(blocks(b), contract, read)
    ensures DistinctKeys(RowsOf(blocks(b), contract, read))
    ensures ShareNoKey(RowsOf(Logs(blocks, lo, b), contract, read), RowsOf(blocks(b), contract, read))
  {
    WholeBlockIsDistinct(blocks, read, contract, b);
    BlocksShareNoKey(blocks, read, contract, lo, b);
    RowsOfBoth(Logs(blocks, lo, b), blocks(b), contract, read);
  }

  lemma RowsAreDistinct<D(!new)>(blocks: Blocks<RawLog>, read: Reader<D>, contract: Account, lo: nat, hi: nat)
    requires ChainOk(blocks) && Faithful(read)
    ensures DistinctKeys(RowsOf(Logs(blocks, lo, hi), contract, read))
  {
    if lo < hi {
      var upTo := (b: nat) => RowsOf(Logs(blocks, lo, b), contract, read);
      var piece := (b: nat) => RowsOf(blocks(b), contract, read);
      forall b | lo <= b < hi
        ensures upTo(b + 1) == upTo(b) + piece(b) && DistinctKeys(piece(b)) && ShareNoKey(upTo(b), piece(b))
      {
        BlockIsAPiece(blocks, read, contract, lo, b);
      }
      PiecesAreDistinct(upTo, piece, lo, hi);
    }
  }

  lemma BlocksShareNoKey<D(!new)>(blocks: Blocks<RawLog>, read: Reader<D>, contract: Account, lo: nat, b: nat)
    requires ChainOk(blocks) && Faithful(read)
    ensures ShareNoKey(RowsOf(Logs(blocks, lo, b), contract, read), RowsOf(blocks(b), contract, read))
  {
    forall row, other | row in RowsOf(Logs(blocks, lo, b), contract, read) && other in RowsOf(blocks(b), contract, read)
      ensures row.key != other.key
    {
      RowsInRange(blocks, read, contract, lo, b, row);
      RowsInBlock(blocks, read, contract, b, other);
      if row.key == other.key {
        KeyNamesOneRow(blocks, read, row, other);
      }
    }
  }

  // ---- Tables -----------------------------------------------------------------------------

  ghost predicate Holds<D(!new)>(table: Table<D>, rows: seq<Row<D>>) {
    forall row :: row in rows ==> row.key in table && table[row.key] == row
  }

  /** Every stored row is under its own key and is what a log on the chain is worth. */
  ghost predicate AllOnChain<D(!new)>(blocks: Blocks<RawLog>, read: Reader<D>, table: Table<D>) {
    forall k :: k in table ==> table[k].key == k && OnChain(blocks, read, table[k])
  }

  /** Nothing stored is lost or changed. */
  ghost predicate Extends<D(!new)>(before: Table<D>, after: Table<D>) {
    forall k :: k in before ==> k in after && after[k] == before[k]
  }

  /** Every row added is from a block in [lo, hi). */
  ghost predicate AddedWithin<D(!new)>(before: Table<D>, after: Table<D>, lo: nat, hi: nat) {
    forall k :: k in after && k !in before ==> lo <= after[k].block < hi
  }

  /** INSERT ... ON CONFLICT DO NOTHING. */
  function Insert<D>(table: Table<D>, row: Row<D>): Table<D> {
    if row.key in table then table else table[row.key := row]
  }

  lemma InsertKeeps<D(!new)>(blocks: Blocks<RawLog>, read: Reader<D>, table: Table<D>, row: Row<D>)
    requires ChainOk(blocks) && Faithful(read) && AllOnChain(blocks, read, table) && OnChain(blocks, read, row)
    ensures AllOnChain(blocks, read, Insert(table, row)) && Extends(table, Insert(table, row))
    ensures row.key in Insert(table, row) && Insert(table, row)[row.key] == row
    ensures |Insert(table, row)| == |table| + if row.key in table then 0 else 1
  {
    if row.key in table {
      KeyNamesOneRow(blocks, read, table[row.key], row);
    }
  }

  /** Inserting the row of a log from blocks lo, ..., hi - 1 keeps the table right. */
  lemma InsertKeepsTable<D(!new)>(
    blocks: Blocks<RawLog>, read: Reader<D>, before: Table<D>, table: Table<D>, contract: Account,
    rows: seq<Row<D>>, row: Row<D>, lo: nat, hi: nat, first: nat, last: nat)
    requires ChainOk(blocks) && Faithful(read) && AllOnChain(blocks, read, table)
    requires first <= lo && hi <= last && Extends(before, table) && AddedWithin(before, table, first, last)
    requires row in RowsOf(Logs(blocks, lo, hi), contract, read)
    ensures AllOnChain(blocks, read, Insert(table, row)) && Extends(table, Insert(table, row))
    ensures Extends(before, Insert(table, row)) && AddedWithin(before, Insert(table, row), first, last)
    ensures Holds(table, rows) ==> Holds(Insert(table, row), rows + [row])
    ensures |Insert(table, row)| == |table| + if Insert(table, row) == table then 0 else 1
  {
    RowsInRange(blocks, read, contract, lo, hi, row);
    InsertKeeps(blocks, read, table, row);
  }

  /** The stored rows of a contract in blocks lo, ..., hi - 1 are exactly the rows of
      its logs there, and no two of these logs share a row. */
  ghost predicate ExactlyOnce<D(!new)>(
    blocks: Blocks<RawLog>, read: Reader<D>, table: Table<D>, contract: Account, lo: nat, hi: nat) {
    var rows := RowsOf(Logs(blocks, lo, hi), contract, read);
    && DistinctKeys(rows)
    && forall row :: row in rows
                <==> row.key in table && table[row.key] == row && row.contract == contract && lo <= row.block < hi
  }

  /** Every row a contract's logs in blocks lo, ..., hi - 1 are worth is stored. */
  ghost predicate HoldsRange<D(!new)>(
    blocks: Blocks<RawLog>, read: Reader<D>, table: Table<D>, contract: Account, lo: nat, hi: nat) {
    forall row :: OnChain(blocks, read, row) && row.contract == contract && lo <= row.block < hi
                  ==> row.key in table && table[row.key] == row
  }

  lemma HoldsRangeIsHolds<D(!new)>(
    blocks: Blocks<RawLog>, read: Reader<D>, table: Table<D>, contract: Account, lo: nat, hi: nat)
    requires ChainOk(blocks) && Faithful(read)
    ensures HoldsRange(blocks, read, table, contract, lo, hi)
       <==> Holds(table, RowsOf(Logs(blocks, lo, hi), contract, read))
  {
    forall row
      ensures row in RowsOf(Logs(blocks, lo, hi), contract, read)
         <==> lo <= row.block < hi && row.contract == contract && OnChain(blocks, read, row)
    {
      RowsInRange(blocks, read, contract, lo, hi, row);
    }
  }

  lemma HeldIsExactlyOnce<D(!new)>(
    blocks: Blocks<RawLog>, read: Reader<D>, table: Table<D>, contract: Account, lo: nat, hi: nat)
    requires ChainOk(blocks) && Faithful(read) && AllOnChain(blocks, read, table)
    ensures HoldsRange(blocks, read, table, contract, lo, hi) <==> ExactlyOnce(blocks, read, table, contract, lo, hi)
  {
    RowsAreDistinct(blocks, read, contract, lo, hi);
    forall row
      ensures row in RowsOf(Logs(blocks, lo, hi), contract, read)
         <==> lo <= row.block < hi && row.contract == contract && OnChain(blocks, read, row)
    {
      RowsInRange(blocks, read, contract, lo, hi, row);
    }
  }

  function Total<D>(rows: seq<Row<D>>, amount: D -> nat): nat {
    if rows == [] then 0 else Total(rows[..|rows| - 1], amount) + amount(rows[|rows| - 1].data)
  }

  lemma {:induction false} TotalWithout<D>(rows: seq<Row<D>>, k: nat, amount: D -> nat)
    requires k < |rows|
    ensures Total(rows, amount) == Total(rows[..k] + rows[k + 1..], amount) + amount(rows[k].data)
  {
    var n := |rows| - 1;
    if k < n {
      TotalWithout(rows[..n], k, amount);
      assert (rows[..k] + rows[k + 1..])[..n - 1] == rows[..n][..k] + rows[..n][k + 1..];
    } else {
      assert rows[..k] + rows[k + 1..] == rows[..n];
    }
  }

  lemma FirstIsIn<D>(listed: seq<D>)
    ensures listed == [] || listed[0] in listed
  {
  }

  /** Two listings of the same rows have the same length and total. */
  lemma {:induction false} ListingsAgree<D>(rows: seq<Row<D>>, listed: seq<Row<D>>, amount: D -> nat)
    requires DistinctKeys(rows) && DistinctKeys(listed) && forall row :: row in rows <==> row in listed
    ensures |rows| == |listed| && Total(rows, amount) == Total(listed, amount)
    decreases |rows|
  {
    if rows == [] {
      FirstIsIn(listed);
    } else {
      var n := |rows| - 1;
      assert rows[n] in listed;
      var k :| 0 <= k < |listed| && listed[k] == rows[n];
      var others := listed[..k] + listed[k + 1..];
      forall row
        ensures row in rows[..n] <==> row in others
      {
        assert row in rows <==> row in rows[..n] || row == rows[n];
        assert row in listed <==> row in others || row == listed[k];
      }
      ListingsAgree(rows[..n], others, amount);
      TotalWithout(listed, k, amount);
    }
  }

  /** What a query for all stored rows of a contract lists, in some order. */
  ghost predicate Listing<D(!new)>(table: Table<D>, contract: Account, listed: seq<Row<D>>) {
    && DistinctKeys(listed)
    && forall row :: row in listed <==> row.key in table && table[row.key] == row && row.contract == contract
  }

  function Inside<D>(rows: seq<Row<D>>, lo: nat, hi: nat): seq<Row<D>> {
    if rows == [] then []
    else
      var last := rows[|rows| - 1];
      Inside(rows[..|rows| - 1], lo, hi) + if lo <= last.block < hi then [last] else []
  }

  function Outside<D>(rows: seq<Row<D>>, lo: nat, hi: nat): seq<Row<D>> {
    if rows == [] then []
    else
      var last := rows[|rows| - 1];
      Outside(rows[..|rows| - 1], lo, hi) + if lo <= last.block < hi then [] else [last]
  }

  lemma {:induction false} InsideAndOutside<D>(rows: seq<Row<D>>, lo: nat, hi: nat, row: Row<D>)
    ensures row in Inside(rows, lo, hi) <==> row in rows && lo <= row.block < hi
    ensures row in Outside(rows, lo, hi) <==> row in rows && !(lo <= row.block < hi)
  {
    if rows != [] {
      InsideAndOutside(rows[..|rows| - 1], lo, hi, row);
    }
  }

  lemma {:induction false} InsideIsDistinct<D>(rows: seq<Row<D>>, lo: nat, hi: nat)
    requires DistinctKeys(rows)
    ensures DistinctKeys(Inside(rows, lo, hi))
  {
    if rows != [] {
      var n := |rows| - 1;
      var inside := Inside(rows[..n], lo, hi);
      InsideIsDistinct(rows[..n], lo, hi);
      forall r | r in inside
        ensures r.key != rows[n].key
      {
        InsideAndOutside(rows[..n], lo, hi, r);
      }
      DistinctAppend(inside, rows[n]);
    }
  }

  /** Every row is counted inside or outside. */
  lemma {:induction false} SplitTotal<D>(rows: seq<Row<D>>, lo: nat, hi: nat, amount: D -> nat)
    ensures |rows| == |Inside(rows, lo, hi)| + |Outside(rows, lo, hi)|
    ensures Total(rows, amount) == Total(Inside(rows, lo, hi), amount) + Total(Outside(rows, lo, hi), amount)
  {
    if rows != [] {
      var n := |rows| - 1;
      SplitTotal(rows[..n], lo, hi, amount);
      if lo <= rows[n].block < hi {
        TotalAppend(Inside(rows[..n], lo, hi), rows[n], amount);
        assert Outside(rows, lo, hi) == Outside(rows[..n], lo, hi);
      } else {
        TotalAppend(Outside(rows[..n], lo, hi), rows[n], amount);
        assert Inside(rows, lo, hi) == Inside(rows[..n], lo, hi);
      }
    }
  }

  lemma TotalAppend<D>(rows: seq<Row<D>>, row: Row<D>, amount: D -> nat)
    ensures Total(rows + [row], amount) == Total(rows, amount) + amount(row.data)
  {
    assert (rows + [row])[..|rows|] == rows;
  }

  /** However a query lists all stored rows of a contract, every one is a log of that
      contract on the chain, no two of them the same; and what they add up to is what
      the logs of the covered blocks say, each log once, plus the rows stored from other
      blocks. There are as many as covered logs if and only if no row is from elsewhere,
      above the checkpoint say, after a chunk that failed half way. */
  lemma TotalsAreTheChains<D(!new)>(
    blocks: Blocks<RawLog>, read: Reader<D>, table: Table<D>, contract: Account, lo: nat, hi: nat,
    listed: seq<Row<D>>, amount: D -> nat)
    requires AllOnChain(blocks, read, table) && ExactlyOnce(blocks, read, table, contract, lo, hi)
    requires Listing(table, contract, listed)
    ensures forall row :: row in listed ==> row.contract == contract && OnChain(blocks, read, row)
    ensures var logs, elsewhere := RowsOf(Logs(blocks, lo, hi), contract, read), Outside(listed, lo, hi);
            && |listed| == |logs| + |elsewhere|
            && Total(listed, amount) == Total(logs, amount) + Total(elsewhere, amount)
            && (|listed| == |logs| <==> forall row :: row in listed ==> lo <= row.block < hi)
  {
    forall row
      ensures row in Inside(listed, lo, hi) <==> row in listed && lo <= row.block < hi
      ensures row in Outside(listed, lo, hi) <==> row in listed && !(lo <= row.block < hi)
    {
      InsideAndOutside(listed, lo, hi, row);
    }
    InsideIsDistinct(listed, lo, hi);
    SplitTotal(listed, lo, hi, amount);
    ListingsAgree(RowsOf(Logs(blocks, lo, hi), contract, read), Inside(listed, lo, hi), amount);
    FirstIsIn(Outside(listed, lo, hi));
  }
}
