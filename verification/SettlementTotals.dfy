/** Per-exit settlement totals: rows grouped per (exit, asset), then joined. */
module SettlementTotals {
  import opened Wrappers
  import opened Registry
  import opened Settlement
  import opened SettlementRun

  /** Accounts are stored as equally long lower-case hex texts, which order like the
      numbers they write. */
  datatype Pair = Pair(exit: Account, asset: Account)

  predicate Less(p: Pair, q: Pair) {
    p.exit < q.exit || (p.exit == q.exit && p.asset < q.asset)
  }

  datatype SettledTotalsRow = SettledTotalsRow(pair: Pair, executions: int, exitFees: nat, networkFees: nat)
  datatype ClaimedTotalsRow = ClaimedTotalsRow(pair: Pair, claimed: nat)
  datatype ExitTotals = ExitTotals(pair: Pair, executions: nat, exitFees: nat, networkFees: nat, claimed: nat)

  predicate StrictlyOrdered(entries: seq<ExitTotals>) {
    forall i, j :: 0 <= i < j < |entries| ==> Less(entries[i].pair, entries[j].pair)
  }

  // ---- The join --------------------------------------------------------------------

  /** The last row for a pair. */
  function LastSettled(rows: seq<SettledTotalsRow>, p: Pair): Option<SettledTotalsRow> {
    if rows == [] then None
    else if rows[|rows| - 1].pair == p then Some(rows[|rows| - 1])
    else LastSettled(rows[..|rows| - 1], p)
  }

  function LastClaimed(rows: seq<ClaimedTotalsRow>, p: Pair): Option<ClaimedTotalsRow> {
    if rows == [] then None
    else if rows[|rows| - 1].pair == p then Some(rows[|rows| - 1])
    else LastClaimed(rows[..|rows| - 1], p)
  }

  /** One entry: the pair's settlements, or zeros, with its claims, or zero. */
  function Joined(p: Pair, settled: Option<SettledTotalsRow>, claimed: Option<ClaimedTotalsRow>): ExitTotals {
    ExitTotals(p,
      if settled.Some? then Max(settled.value.executions, 0) else 0,
      if settled.Some? then settled.value.exitFees else 0,
      if settled.Some? then settled.value.networkFees else 0,
      if claimed.Some? then claimed.value.claimed else 0)
  }

  ghost predicate IsJoin(
    merged: map<Pair, ExitTotals>, settled: seq<SettledTotalsRow>, claimed: seq<ClaimedTotalsRow>) {
    forall p :: (p in merged <==> LastSettled(settled, p).Some? || LastClaimed(claimed, p).Some?)
                && (p in merged ==> merged[p] == Joined(p, LastSettled(settled, p), LastClaimed(claimed, p)))
  }

  predicate Lists(r: seq<ExitTotals>, p: Pair) {
    exists e :: e in r && e.pair == p
  }

  /** The joined list: one strictly ordered entry for every pair in either list, holding
      that pair's rows. */
  ghost predicate Merged(r: seq<ExitTotals>, settled: seq<SettledTotalsRow>, claimed: seq<ClaimedTotalsRow>) {
    && StrictlyOrdered(r)
    && (forall e :: e in r ==> e == Joined(e.pair, LastSettled(settled, e.pair), LastClaimed(claimed, e.pair)))
    && forall p :: LastSettled(settled, p).Some? || LastClaimed(claimed, p).Some? <==> Lists(r, p)
  }

  method MergeTotals(settled: seq<SettledTotalsRow>, claimed: seq<ClaimedTotalsRow>) returns (r: seq<ExitTotals>)
    ensures Merged(r, settled, claimed)
  {
    var merged: map<Pair, ExitTotals> := map[];
    for i := 0 to |settled|
      invariant IsJoin(merged, settled[..i], [])
    {
      assert settled[..i + 1][..i] == settled[..i];
      var row := settled[i];
      merged := merged[row.pair := ExitTotals(row.pair, Max(row.executions, 0), row.exitFees, row.networkFees, 0)];
    }
    assert settled[..|settled|] == settled;
    for i := 0 to |claimed|
      invariant IsJoin(merged, settled, claimed[..i])
    {
      assert claimed[..i + 1][..i] == claimed[..i];
      var row := claimed[i];
      var entry := if row.pair in merged then merged[row.pair] else ExitTotals(row.pair, 0, 0, 0, 0);
      merged := merged[row.pair := entry.(claimed := row.claimed)];
    }
    assert claimed[..|claimed|] == claimed;
    r := IntoValues(merged);
    forall p
      ensures LastSettled(settled, p).Some? || LastClaimed(claimed, p).Some? <==> Lists(r, p)
    {
      if p in merged {
        assert merged[p] in r;
      }
    }
  }

  /** The values of an ordered map, in key order. */
  method IntoValues(merged: map<Pair, ExitTotals>) returns (r: seq<ExitTotals>)
    requires forall p :: p in merged ==> merged[p].pair == p
    ensures StrictlyOrdered(r)
    ensures forall e :: e in r <==> e.pair in merged && merged[e.pair] == e
  {
    var rest := merged.Keys;
    r := [];
    while rest != {}
      invariant rest <= merged.Keys
      invariant StrictlyOrdered(r)
      invariant forall e :: e in r <==> e.pair in merged.Keys - rest && merged[e.pair] == e
      invariant forall e, p :: e in r && p in rest ==> Less(e.pair, p)
      decreases rest
    {
      var least := Least(rest);
      forall e
        ensures e in r + [merged[least]] <==> e.pair in merged.Keys - (rest - {least}) && merged[e.pair] == e
      {
        assert e in r + [merged[least]] <==> e in r || e == merged[least];
      }
      r := r + [merged[least]];
      rest := rest - {least};
    }
  }

  method Least(pairs: set<Pair>) returns (least: Pair)
    requires pairs != {}
    ensures least in pairs && forall p :: p in pairs && p != least ==> Less(least, p)
  {
    least :| least in pairs;
    var rest := pairs - {least};
    while rest != {}
      invariant least in pairs && rest <= pairs
      invariant forall p :: p in pairs - rest && p != least ==> Less(least, p)
      decreases rest
    {
      var p :| p in rest;
      ghost var seen := pairs - rest;
      assert pairs - (rest - {p}) == seen + {p};
      if Less(p, least) {
        assert forall q :: q in seen ==> Less(p, q);
        least := p;
      }
      rest := rest - {p};
    }
  }

  // ---- Grouping and conservation -----------------------------------------------------

  /** A stored row reduced to its pair and one amount. */
  datatype Item = Item(pair: Pair, amount: nat)

  function SumAll(items: seq<Item>): nat {
    if items == [] then 0 else SumAll(items[..|items| - 1]) + items[|items| - 1].amount
  }

  /** SUM(amount) over the rows of one pair. */
  function SumFor(items: seq<Item>, p: Pair): nat {
    if items == [] then 0
    else SumFor(items[..|items| - 1], p) + if items[|items| - 1].pair == p then items[|items| - 1].amount else 0
  }

  function SumOver(items: seq<Item>, pairs: seq<Pair>): nat {
    if pairs == [] then 0 else SumOver(items, pairs[..|pairs| - 1]) + SumFor(items, pairs[|pairs| - 1])
  }

  predicate DistinctPairs(pairs: seq<Pair>) {
    forall i, j :: 0 <= i < j < |pairs| ==> pairs[i] != pairs[j]
  }

  lemma {:induction false} SumOverGrows(items: seq<Item>, item: Item, pairs: seq<Pair>)
    requires DistinctPairs(pairs)
    ensures SumOver(items + [item], pairs) == SumOver(items, pairs) + if item.pair in pairs then item.amount else 0
    decreases |pairs|
  {
    if pairs != [] {
      var n := |pairs| - 1;
      SumOverGrows(items, item, pairs[..n]);
      assert (items + [item])[..|items|] == items;
      assert pairs == pairs[..n] + [pairs[n]];
    }
  }

  lemma {:induction false} SumOverNothing(pairs: seq<Pair>)
    ensures SumOver([], pairs) == 0
  {
    if pairs != [] {
      SumOverNothing(pairs[..|pairs| - 1]);
    }
  }

  /** Grouping per pair loses and duplicates nothing, as long as every pair is listed once. */
  lemma {:induction false} GroupsKeepTheSum(items: seq<Item>, pairs: seq<Pair>)
    requires DistinctPairs(pairs) && forall k :: 0 <= k < |items| ==> items[k].pair in pairs
    ensures SumOver(items, pairs) == SumAll(items)
    decreases |items|
  {
    if items == [] {
      SumOverNothing(pairs);
    } else {
      var n := |items| - 1;
      GroupsKeepTheSum(items[..n], pairs);
      SumOverGrows(items[..n], items[n], pairs);
      assert items == items[..n] + [items[n]];
    }
  }

  const ONCE: Execution -> nat := (e: Execution) => 1
  const EXIT_FEE: Execution -> nat := (e: Execution) => e.exitFee
  const NETWORK_FEE: Execution -> nat := (e: Execution) => e.networkFee
  const AMOUNT: Credit -> nat := (c: Credit) => c.amount
  const SETTLED_PAIR: Execution -> Pair := (e: Execution) => Pair(e.exit, e.feeAsset)
  const CLAIMED_PAIR: Credit -> Pair := (c: Credit) => Pair(c.exit, c.asset)

  function Amounts<D>(rows: seq<Row<D>>, pair: D -> Pair, amount: D -> nat): seq<Item> {
    seq(|rows|, i requires 0 <= i < |rows| => Item(pair(rows[i].data), amount(rows[i].data)))
  }

  /** The amounts' sum is the rows' total. */
  lemma {:induction false} AmountsTotal<D>(rows: seq<Row<D>>, pair: D -> Pair, amount: D -> nat)
    ensures SumAll(Amounts(rows, pair, amount)) == Total(rows, amount)
  {
    if rows != [] {
      var n := |rows| - 1;
      AmountsTotal(rows[..n], pair, amount);
      assert Amounts(rows, pair, amount)[..n] == Amounts(rows[..n], pair, amount);
    }
  }

  predicate Mentions<D>(rows: seq<Row<D>>, pair: D -> Pair, p: Pair) {
    exists k :: 0 <= k < |rows| && pair(rows[k].data) == p
  }

  /** What the GROUP BY queries return over the rows they list, each row once, in whatever
      order they visit them. */
  ghost predicate SettledGroups(groups: seq<SettledTotalsRow>, rows: seq<Row<Execution>>) {
    && (forall p :: LastSettled(groups, p).Some? <==> Mentions(rows, SETTLED_PAIR, p))
    && (forall p :: LastSettled(groups, p).Some? ==>
          && LastSettled(groups, p).value.executions == SumFor(Amounts(rows, SETTLED_PAIR, ONCE), p)
          && LastSettled(groups, p).value.exitFees == SumFor(Amounts(rows, SETTLED_PAIR, EXIT_FEE), p)
          && LastSettled(groups, p).value.networkFees == SumFor(Amounts(rows, SETTLED_PAIR, NETWORK_FEE), p))
  }

  ghost predicate ClaimedGroups(groups: seq<ClaimedTotalsRow>, claims: seq<Row<Credit>>) {
    && (forall p :: LastClaimed(groups, p).Some? <==> Mentions(claims, CLAIMED_PAIR, p))
    && (forall p :: LastClaimed(groups, p).Some? ==>
          LastClaimed(groups, p).value.claimed == SumFor(Amounts(claims, CLAIMED_PAIR, AMOUNT), p))
  }

  function SumField(entries: seq<ExitTotals>, f: ExitTotals -> nat): nat {
    if entries == [] then 0 else SumField(entries[..|entries| - 1], f) + f(entries[|entries| - 1])
  }

  const EXECUTIONS_OF: ExitTotals -> nat := (e: ExitTotals) => e.executions
  const EXIT_FEES_OF: ExitTotals -> nat := (e: ExitTotals) => e.exitFees
  const NETWORK_FEES_OF: ExitTotals -> nat := (e: ExitTotals) => e.networkFees
  const CLAIMED_OF: ExitTotals -> nat := (e: ExitTotals) => e.claimed

  function Pairs(entries: seq<ExitTotals>): seq<Pair> {
    seq(|entries|, i requires 0 <= i < |entries| => entries[i].pair)
  }

  lemma {:induction false} SumFieldIsSumOver(entries: seq<ExitTotals>, items: seq<Item>, f: ExitTotals -> nat)
    requires forall i :: 0 <= i < |entries| ==> f(entries[i]) == SumFor(items, entries[i].pair)
    ensures SumField(entries, f) == SumOver(items, Pairs(entries))
  {
    if entries != [] {
      var n := |entries| - 1;
      SumFieldIsSumOver(entries[..n], items, f);
      assert Pairs(entries)[..n] == Pairs(entries[..n]);
    }
  }

  lemma {:induction false} NoItemsNoSum(items: seq<Item>, p: Pair)
    requires forall k :: 0 <= k < |items| ==> items[k].pair != p
    ensures SumFor(items, p) == 0
  {
    if items != [] {
      NoItemsNoSum(items[..|items| - 1], p);
    }
  }

  /** One field of the joined entries, each the pair's sum over `items`, adds up to
      everything stored. */
  lemma FieldIsConserved(r: seq<ExitTotals>, items: seq<Item>, f: ExitTotals -> nat)
    requires StrictlyOrdered(r)
    requires forall i :: 0 <= i < |r| ==> f(r[i]) == SumFor(items, r[i].pair)
    requires forall k :: 0 <= k < |items| ==> Lists(r, items[k].pair)
    ensures SumField(r, f) == SumAll(items)
  {
    var pairs := Pairs(r);
    forall i, j | 0 <= i < j < |pairs|
      ensures pairs[i] != pairs[j]
    {
      assert Less(r[i].pair, r[j].pair);
    }
    forall k | 0 <= k < |items|
      ensures items[k].pair in pairs
    {
      var e :| e in r && e.pair == items[k].pair;
      var i :| 0 <= i < |r| && r[i] == e;
      assert pairs[i] == items[k].pair;
    }
    SumFieldIsSumOver(r, items, f);
    GroupsKeepTheSum(items, pairs);
  }

  lemma {:induction false} OnceEach(rows: seq<Row<Execution>>)
    ensures Total(rows, ONCE) == |rows|
  {
    if rows != [] {
      OnceEach(rows[..|rows| - 1]);
    }
  }

  lemma {:induction false} NotMentioned<D>(rows: seq<Row<D>>, pair: D -> Pair, amount: D -> nat, p: Pair)
    requires !Mentions(rows, pair, p)
    ensures SumFor(Amounts(rows, pair, amount), p) == 0
  {
    assert forall k :: 0 <= k < |rows| ==> Amounts(rows, pair, amount)[k].pair == pair(rows[k].data);
    NoItemsNoSum(Amounts(rows, pair, amount), p);
  }

  /** One field of the joined entries that holds each pair's sum, or zero for a pair no row
      mentions, adds up to the rows' total. */
  lemma RowsAreConserved<D(!new)>(
    r: seq<ExitTotals>, rows: seq<Row<D>>, pair: D -> Pair, amount: D -> nat, f: ExitTotals -> nat)
    requires StrictlyOrdered(r)
    requires forall e :: e in r ==>
               f(e) == if Mentions(rows, pair, e.pair) then SumFor(Amounts(rows, pair, amount), e.pair) else 0
    requires forall p :: Mentions(rows, pair, p) ==> Lists(r, p)
    ensures SumField(r, f) == Total(rows, amount)
  {
    var items := Amounts(rows, pair, amount);
    forall i | 0 <= i < |r|
      ensures f(r[i]) == SumFor(items, r[i].pair)
    {
      assert r[i] in r;
      if !Mentions(rows, pair, r[i].pair) {
        NotMentioned(rows, pair, amount, r[i].pair);
      }
    }
    forall k | 0 <= k < |items|
      ensures Lists(r, items[k].pair)
    {
      assert pair(rows[k].data) == items[k].pair;
      assert Mentions(rows, pair, items[k].pair);
    }
    FieldIsConserved(r, items, f);
    AmountsTotal(rows, pair, amount);
  }

  /** Nothing listed is lost or counted twice on the way to the served totals. */
  lemma TotalsAreConserved(
    r: seq<ExitTotals>, settled: seq<SettledTotalsRow>, claimed: seq<ClaimedTotalsRow>,
    rows: seq<Row<Execution>>, claims: seq<Row<Credit>>)
    requires Merged(r, settled, claimed) && SettledGroups(settled, rows) && ClaimedGroups(claimed, claims)
    ensures SumField(r, EXECUTIONS_OF) == |rows|
    ensures SumField(r, EXIT_FEES_OF) == Total(rows, EXIT_FEE)
    ensures SumField(r, NETWORK_FEES_OF) == Total(rows, NETWORK_FEE)
    ensures SumField(r, CLAIMED_OF) == Total(claims, AMOUNT)
  {
    OnceEach(rows);
    RowsAreConserved(r, rows, SETTLED_PAIR, ONCE, EXECUTIONS_OF);
    RowsAreConserved(r, rows, SETTLED_PAIR, EXIT_FEE, EXIT_FEES_OF);
    RowsAreConserved(r, rows, SETTLED_PAIR, NETWORK_FEE, NETWORK_FEES_OF);
    RowsAreConserved(r, claims, CLAIMED_PAIR, AMOUNT, CLAIMED_OF);
  }

  // ---- From the chain to the served totals ----------------------------------------------

  /** The claims query runs only for a configured pool. */
  ghost predicate ClaimsListing(db: Database, c: SettlementConfig, claims: seq<Row<Credit>>) {
    match c.rewardPool
    case Some(pool) => Listing(db.claims, pool, claims)
    case None => claims == []
  }

  /** The contracts' logs in blocks lo, ..., hi - 1 as rows. */
  function SettledLogs(chain: Chain, c: SettlementConfig, lo: nat, hi: nat): seq<Row<Execution>> {
    RowsOf(Logs(chain.blocks, lo, hi), c.entryPoint, ReadSettled(chain.time))
  }

  function ClaimedLogs(chain: Chain, c: SettlementConfig, lo: nat, hi: nat): seq<Row<Credit>> {
    match c.rewardPool
    case Some(pool) => RowsOf(Logs(chain.blocks, lo, hi), pool, ReadClaimed(chain.time))
    case None => []
  }

  /** From the chain to what is served: the totals served for a source that is stored
      exactly once over blocks lo, ..., hi - 1 (see `SettlementRun.RunLives`) add up what
      its logs in these blocks say, each log once, plus the rows stored from other blocks;
      executions are exactly the covered logs if and only if there are none of these. */
  lemma ServedTotalsAreTheChains(
    chain: Chain, db: Database, c: SettlementConfig, lo: nat, hi: nat,
    rows: seq<Row<Execution>>, claims: seq<Row<Credit>>,
    settled: seq<SettledTotalsRow>, claimed: seq<ClaimedTotalsRow>, r: seq<ExitTotals>)
    requires RowsOk(chain, db) && StoredExactlyOnce(chain, db, c, lo, hi)
    requires Listing(db.settled, c.entryPoint, rows) && ClaimsListing(db, c, claims)
    requires SettledGroups(settled, rows) && ClaimedGroups(claimed, claims) && Merged(r, settled, claimed)
    ensures forall row :: row in rows ==> OnChain(chain.blocks, ReadSettled(chain.time), row)
    ensures SumField(r, EXECUTIONS_OF) == |SettledLogs(chain, c, lo, hi)| + |Outside(rows, lo, hi)|
    ensures SumField(r, EXECUTIONS_OF) == |SettledLogs(chain, c, lo, hi)|
       <==> forall row :: row in rows ==> lo <= row.block < hi
    ensures SumField(r, EXIT_FEES_OF)
         == Total(SettledLogs(chain, c, lo, hi), EXIT_FEE) + Total(Outside(rows, lo, hi), EXIT_FEE)
    ensures SumField(r, NETWORK_FEES_OF)
         == Total(SettledLogs(chain, c, lo, hi), NETWORK_FEE) + Total(Outside(rows, lo, hi), NETWORK_FEE)
    ensures SumField(r, CLAIMED_OF)
         == Total(ClaimedLogs(chain, c, lo, hi), AMOUNT) + Total(Outside(claims, lo, hi), AMOUNT)
  {
    TotalsAreConserved(r, settled, claimed, rows, claims);
    var read := ReadSettled(chain.time);
    TotalsAreTheChains(chain.blocks, read, db.settled, c.entryPoint, lo, hi, rows, EXIT_FEE);
    TotalsAreTheChains(chain.blocks, read, db.settled, c.entryPoint, lo, hi, rows, NETWORK_FEE);
    if c.rewardPool.Some? {
      TotalsAreTheChains(
        chain.blocks, ReadClaimed(chain.time), db.claims, c.rewardPool.value, lo, hi, claims, AMOUNT);
    }
  }
}
