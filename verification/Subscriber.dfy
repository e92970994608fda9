/** The nodes' offsets as the scraper keeps them: when rows are persisted, what a
    flush guarantees, and the network totals. */
module Subscriber {
  import opened Wrappers
  import opened Offsets

  type Node = nat

  datatype Entry = Entry(view: View, dirty: bool)

  predicate IsZero(t: Totals) {
    forall c :: c in t ==> t[c] == 0.0
  }

  function RowOf(rows: map<Node, Row>, a: Node): Option<Row> {
    if a in rows then Some(rows[a]) else None
  }

  /** A flush skips an entry that is neither dirty nor has counted anything. */
  predicate Skipped(e: Entry) {
    !e.dirty && IsZero(e.view.lastRaw)
  }

  /** A reading that arrives for a node; whether persisting a restart would fail. */
  datatype Arrival = Arrival(node: Node, report: Report, at: nat, saveFails: bool)

  predicate FitsAll(arrivals: seq<Arrival>, fields: set<Counter>) {
    forall i :: 0 <= i < |arrivals| ==> fields <= arrivals[i].report.counters.Keys
  }

  /** What a reading does to an entry; a restart that is persisted leaves it clean. */
  ghost predicate Observed(e: Entry, e': Entry, m: Report, now: nat, saveFails: bool)
    requires e.view.Valid() && e.view.fields <= m.counters.Keys
  {
    && e'.view == Observe(e.view, m, now)
    && e'.dirty == if Restarted(e.view, m) then saveFails else e.dirty || e'.view.start != e.view.start
  }

  /** The entry after a reading, whether the node restarted, and what to serve. */
  method ObserveEntry(e: Entry, m: Report, now: nat) returns (e': Entry, restarted: bool, served: Totals)
    requires e.view.Valid() && e.view.fields <= m.counters.Keys
    ensures e'.view == Observe(e.view, m, now) && restarted == Restarted(e.view, m)
    ensures e'.dirty == (e.dirty || restarted || e'.view.start != e.view.start)
    ensures served == Plus(e'.view.banked, e'.view.lastRaw)
  {
    var offset := new NodeOffset.Of(e.view, e.dirty);
    assert offset.AsView() == e.view;
    var seen, _ := offset.ObserveReading(m, now);
    assert offset.AsView() == Observe(e.view, m, now);
    restarted := seen;
    e' := Entry(offset.AsView(), offset.dirty);
    served := offset.Apply();
    assert served.Keys == e.view.fields;
  }

  ghost predicate Fine(e: Entry, fields: set<Counter>) {
    match e
    case Entry(v, _) => Sane(v) && v.fields == fields
  }

  class MetricOffsets {
    const fields: set<Counter>
    var offsets: map<Node, Entry>
    var rows: map<Node, Row>

    ghost predicate Valid()
      reads this
    {
      && UptimeSeconds in fields
      && (forall a :: a in offsets ==> Fine(offsets[a], fields))
    }

    predicate CleanAt(a: Node)
      reads this
    {
      CleanSlot(SlotOf(a))
    }

    function SlotOf(a: Node): Slot
      reads this
    {
      Slot(if a in offsets then Some(offsets[a]) else None, RowOf(rows, a))
    }

    constructor (fields: set<Counter>)
      requires UptimeSeconds in fields
      ensures Valid() && this.fields == fields && offsets == map[] && rows == map[]
    {
      this.fields, offsets, rows := fields, map[], map[];
    }

    /** Write one node's row from a view of it. */
    method Save(a: Node, v: View)
      modifies this`rows
      ensures rows == old(rows)[a := Persisted(v)]
      ensures forall b :: SlotOf(b) == if b == a then old(SlotOf(a)).(row := Some(Persisted(v))) else old(SlotOf(b))
    {
      rows := rows[a := Persisted(v)];
    }

    method Put(a: Node, e: Entry)
      requires Valid() && Fine(e, fields)
      modifies this`offsets
      ensures Valid() && a in offsets && offsets[a] == e
      ensures forall b :: SlotOf(b) == if b == a then old(SlotOf(a)).(entry := Some(e)) else old(SlotOf(b))
    {
      offsets := offsets[a := e];
    }

    method MarkClean(a: Node)
      requires Valid() && a in offsets
      modifies this`offsets
      ensures Valid() && a in offsets
      ensures forall b :: SlotOf(b) == if b == a then old(SlotOf(a)).(entry := Some(Clean(old(offsets)[a])))
                                       else old(SlotOf(b))
    {
      Put(a, Clean(offsets[a]));
    }

    function Known(a: Node): Entry
      reads this
    {
      SlotOf(a).entry.GetOr(Entry(Unseen(fields), false))
    }

    /** Fold one scraped reading into its node's entry. A restart is persisted at once,
        unless `saveFails`. Returns the lifetime totals to serve. */
    method ApplyLifetimeOffsets(
      a: Node, m: Report, now: nat, saveFails: bool)
      returns (served: Totals, ghost after: Entry)
      requires Valid() && fields <= m.counters.Keys
      modifies this
      ensures Valid() && Observed(old(Known(a)), after, m, now, saveFails)
      ensures forall b :: b != a ==> SlotOf(b) == old(SlotOf(b))
      ensures SlotOf(a) == Slot(Some(after), if Restarted(old(Known(a)).view, m) && !saveFails
                                             then Some(Persisted(after.view)) else old(SlotOf(a)).row)
      ensures Advanced(old(SlotOf(a)), SlotOf(a)) && (old(CleanAt(a)) ==> CleanAt(a))
      ensures served == Plus(after.view.banked, after.view.lastRaw)
    {
      var before := Known(a);
      KnownIsFine(a);
      ObservedEntryIsFine(before.view, m, now);
      var entry, restarted;
      entry, restarted, served := ObserveEntry(before, m, now);
      StoreReading(a, entry, restarted && !saveFails);
      after := if restarted && !saveFails then Clean(entry) else entry;
      ReadingAdvances(old(SlotOf(a)), SlotOf(a), before, m, now, saveFails);
    }

    /** Keep a reading's entry; a restart is persisted at once. */
    method StoreReading(a: Node, entry: Entry, persists: bool)
      requires Valid() && Fine(entry, fields)
      modifies this
      ensures Valid() && forall b :: b != a ==> SlotOf(b) == old(SlotOf(b))
      ensures SlotOf(a) == if persists then SavedSlot(entry, entry) else Slot(Some(entry), old(SlotOf(a)).row)
    {
      Put(a, entry);
      if persists {
        Save(a, entry.view);
        MarkClean(a);
      }
    }

    lemma KnownIsFine(a: Node)
      requires Valid()
      ensures Fine(Known(a), fields) && Known(a).view.Valid() && Known(a).view.fields == fields
    {
      UnseenIsSane(fields);
    }

    /** Readings that arrive while a flush waits for the database. */
    method Receive(arrivals: seq<Arrival>)
      requires Valid() && FitsAll(arrivals, fields)
      modifies this
      ensures Valid() && forall a :: Advanced(old(SlotOf(a)), SlotOf(a))
      ensures forall a :: !Mentions(arrivals, a) ==> SlotOf(a) == old(SlotOf(a))
    {
      for i := 0 to |arrivals|
        invariant Valid() && forall a :: Advanced(old(SlotOf(a)), SlotOf(a))
        invariant forall a :: !Mentions(arrivals[..i], a) ==> SlotOf(a) == old(SlotOf(a))
      {
        label before:
        ReceiveOne(arrivals[i]);
        forall a
          ensures Advanced(old(SlotOf(a)), SlotOf(a))
          ensures !Mentions(arrivals[..i + 1], a) ==> SlotOf(a) == old(SlotOf(a))
        {
          AdvancedTwice(old(SlotOf(a)), old@before(SlotOf(a)), SlotOf(a));
          MentionsNext(arrivals, i, a);
        }
      }
      assert arrivals[..|arrivals|] == arrivals;
    }

    method ReceiveOne(r: Arrival)
      requires Valid() && fields <= r.report.counters.Keys
      modifies this
      ensures Valid() && forall a :: Advanced(old(SlotOf(a)), SlotOf(a))
      ensures forall a :: a != r.node ==> SlotOf(a) == old(SlotOf(a))
    {
      forall a
        ensures a in offsets ==> Advanced(SlotOf(a), SlotOf(a))
      {
        if a in offsets {
          AdvancedOnce(SlotOf(a), fields);
        }
      }
      var _, _ := ApplyLifetimeOffsets(r.node, r.report, r.at, r.saveFails);
      forall a
        ensures Advanced(old(SlotOf(a)), SlotOf(a))
      {
        if a != r.node && a in old(offsets) {
          assert old(Advanced(SlotOf(a), SlotOf(a)));
        }
      }
    }

    /** Save one pending node's row as it was at the snapshot, with readings arriving before
        the save and before the entry is marked clean. */
    method FlushOne(a: Node, e: Entry, fails: bool, early: seq<Arrival>, late: seq<Arrival>)
      requires Valid() && FitsAll(early, fields) && FitsAll(late, fields)
      requires a in offsets && Grew(e.view, offsets[a].view)
      modifies this
      ensures Valid() && forall b :: Flushed(old(SlotOf(b)), SlotOf(b), b == a && !fails, e)
      ensures forall b :: !Mentions(early, b) && !Mentions(late, b) ==>
                SlotOf(b) == if b == a && !fails then SavedSlot(old(offsets)[a], e) else old(SlotOf(b))
    {
      Receive(early);
      label saving:
      if !fails {
        Save(a, e.view);
      }
      label saved:
      Receive(late);
      label marking:
      assert old@marking(SlotOf(a)).entry.Some? by {
        assert Advanced(old(SlotOf(a)), old@saving(SlotOf(a)));
        assert Advanced(old@saved(SlotOf(a)), old@marking(SlotOf(a)));
      }
      if !fails {
        MarkClean(a);
      }
      forall b
        ensures Flushed(old(SlotOf(b)), SlotOf(b), b == a && !fails, e)
      {
        FlushedSlot(old(SlotOf(b)), old@saving(SlotOf(b)), old@saved(SlotOf(b)), old@marking(SlotOf(b)), SlotOf(b),
                    b == a && !fails, e);
      }
    }

    /** Persist every entry that is dirty or has counted anything, as it was when the flush
        began; an entry whose save fails stays as it was. Before the n-th save the readings
        `early(n)` arrive, and after it, before its entry is marked clean, `late(n)`. */
    method FlushDirtyOffsets(saveFails: Node -> bool, early: nat -> seq<Arrival>, late: nat -> seq<Arrival>)
      requires Valid() && forall n :: FitsAll(early(n), fields) && FitsAll(late(n), fields)
      modifies this
      // Lifetimes never fall, and what was pending is persisted with at least what it had
      // counted when the flush began.
      ensures Valid() && forall a :: Progress(old(SlotOf(a)), SlotOf(a), Pending(old(SlotOf(a))) && !saveFails(a))
      // A node without readings meanwhile is persisted as it stands, unless its save failed.
      ensures forall a :: Quiet(a, early, late) && old(CleanAt(a)) ==>
                LeftClean(old(SlotOf(a)), SlotOf(a), saveFails(a))
    {
      var rest := set a | a in offsets && !Skipped(offsets[a]);
      var snapshot, n := offsets, 0;
      while rest != {}
        invariant Valid() && forall a :: a in rest ==> Pending(old(SlotOf(a)))
        invariant forall a :: Progress(old(SlotOf(a)), SlotOf(a), Saved(old(SlotOf(a)), a in rest, saveFails(a)))
        invariant forall a :: Quiet(a, early, late) ==>
                    SlotOf(a) == QuietSlot(old(SlotOf(a)), Saved(old(SlotOf(a)), a in rest, saveFails(a)))
        decreases rest
      {
        var a :| a in rest;
        label before:
        assert Pending(old(SlotOf(a))) && Progress(old(SlotOf(a)), SlotOf(a), false);
        FlushOne(a, snapshot[a], saveFails(a), early(n), late(n));
        forall b
          ensures Progress(old(SlotOf(b)), SlotOf(b), Saved(old(SlotOf(b)), b in rest - {a}, saveFails(b)))
          ensures Quiet(b, early, late) ==>
                    SlotOf(b) == QuietSlot(old(SlotOf(b)), Saved(old(SlotOf(b)), b in rest - {a}, saveFails(b)))
        {
          ghost var start := old(SlotOf(b));
          ghost var was, now := Saved(start, b in rest, saveFails(b)), Saved(start, b in rest - {a}, saveFails(b));
          SavedNext(start, b, a, rest, saveFails(b));
          ProgressOn(start, old@before(SlotOf(b)), SlotOf(b), was, b == a && !saveFails(a), now, snapshot[a]);
        }
        rest, n := rest - {a}, n + 1;
      }
      forall a | Quiet(a, early, late) && old(CleanAt(a))
        ensures LeftClean(old(SlotOf(a)), SlotOf(a), saveFails(a))
      {
        QuietIsLeftClean(old(SlotOf(a)), saveFails(a));
      }
    }
  }

  /** A pending entry has had its turn and its save worked. */
  predicate Saved(start: Slot, waits: bool, fails: bool) {
    Pending(start) && !waits && !fails
  }

  /** A flush saves entries that are dirty or have counted anything. */
  predicate Pending(s: Slot) {
    match s.entry
    case None => false
    case Some(e) => !Skipped(e)
  }

  /** If a flush would skip this node's entry, it is already persisted as it is. */
  predicate CleanSlot(s: Slot) {
    match s.entry
    case None => true
    case Some(e) => Skipped(e) ==> s.row == Some(Persisted(e.view))
  }

  /** The entry is as it was, can be skipped only if persisted as it stands, and is unless
      its save failed. */
  predicate LeftClean(s: Slot, t: Slot, fails: bool) {
    match s.entry
    case None => t == s
    case Some(e) =>
      && CleanSlot(t) && t.entry.Some? && t.entry.value.view == e.view
      && (!fails ==> t.row == Some(Persisted(e.view)))
  }

  function Clean(e: Entry): Entry {
    e.(dirty := false)
  }

  /** A saved entry's slot when nothing arrived meanwhile. */
  function SavedSlot(now: Entry, e: Entry): Slot {
    Slot(Some(Clean(now)), Some(Persisted(e.view)))
  }

  /** A node's slot after a flush in which nothing arrived for it. */
  function QuietSlot(s: Slot, saved: bool): Slot {
    if saved && s.entry.Some? then SavedSlot(s.entry.value, s.entry.value) else s
  }

  lemma QuietIsLeftClean(s: Slot, fails: bool)
    requires CleanSlot(s)
    ensures LeftClean(s, QuietSlot(s, Saved(s, false, fails)), fails)
  {
  }

  /** What flushing does to one node: as readings do, and a saved one's row is above the
      snapshot. */
  ghost predicate Flushed(s: Slot, t: Slot, saved: bool, e: Entry) {
    match s.entry
    case None => true
    case Some(now) =>
      && t.entry.Some? && Grew(now.view, t.entry.value.view)
      && (if saved then Grew(e.view, now.view) ==> RowAbove(t.row, e.view)
          else t.row == s.row || RowAbove(t.row, now.view))
  }

  lemma FlushedSlot(s0: Slot, s1: Slot, s2: Slot, s3: Slot, s4: Slot, saved: bool, e: Entry)
    requires Advanced(s0, s1) && Advanced(s2, s3)
    requires s2 == if saved then s1.(row := Some(Persisted(e.view))) else s1
    requires s4 == if saved && s3.entry.Some? then s3.(entry := Some(Clean(s3.entry.value))) else s3
    ensures Flushed(s0, s4, saved, e)
  {
  }

  /** From the start of the flush: a node's lifetimes have not fallen, and if it was saved
      its row is above its start. */
  ghost predicate Progress(start: Slot, now: Slot, saved: bool) {
    match start.entry
    case None => true
    case Some(e) =>
      now.entry.Some? && Grew(e.view, now.entry.value.view) && (saved ==> RowAbove(now.row, e.view))
  }

  lemma SavedNext(start: Slot, b: Node, a: Node, rest: set<Node>, fails: bool)
    requires a in rest && (b == a ==> Pending(start))
    ensures Saved(start, b in rest - {a}, fails) == (Saved(start, b in rest, fails) || (b == a && !fails))
  {
  }

  lemma ProgressOn(start: Slot, s: Slot, t: Slot, was: bool, saved: bool, now: bool, e: Entry)
    requires Progress(start, s, was) && Flushed(s, t, saved, e) && now == (was || saved)
    requires saved ==> start.entry == Some(e)
    ensures Progress(start, t, now)
  {
  }

  /** A fresh process that loads a flushed row serves the same lifetimes and is sane. */
  lemma ReloadKeepsLifetimes(v: View, c: Counter)
    requires Sane(v) && c in v.fields
    ensures Sane(Loaded(v.fields, Persisted(v))) && Lifetime(Loaded(v.fields, Persisted(v)), c) == Lifetime(v, c)
  {
  }

  /** What is kept of a node. */
  datatype Slot = Slot(entry: Option<Entry>, row: Option<Row>)

  /** Readings keep a node, let no lifetime fall, and persist nothing below what it had. */
  ghost predicate Advanced(s: Slot, t: Slot) {
    match s.entry
    case None => true
    case Some(e) => t.entry.Some? && Grew(e.view, t.entry.value.view) && (t.row == s.row || RowAbove(t.row, e.view))
  }

  /** The row holds at least the view's lifetimes. */
  ghost predicate RowAbove(row: Option<Row>, v: View) {
    match row
    case None => false
    case Some(r) =>
      && v.Valid() && r.banked.Keys == r.lastRaw.Keys == v.fields
      && forall c :: c in v.fields ==> Lifetime(v, c) <= RowLifetime(r, c)
  }

  lemma AdvancedOnce(s: Slot, fields: set<Counter>)
    requires s.entry.Some? && Fine(s.entry.value, fields)
    ensures Advanced(s, s)
  {
  }

  lemma AdvancedTwice(s: Slot, t: Slot, u: Slot)
    requires Advanced(s, t) && Advanced(t, u)
    ensures Advanced(s, u)
  {
  }

  lemma PersistedIsAbove(v: View, w: View)
    requires Grew(v, w)
    ensures RowAbove(Some(Persisted(w)), v)
  {
  }

  lemma MentionsNext(arrivals: seq<Arrival>, i: nat, a: Node)
    requires i < |arrivals|
    ensures Mentions(arrivals[..i + 1], a) <==> Mentions(arrivals[..i], a) || arrivals[i].node == a
  {
    if Mentions(arrivals[..i], a) {
      var k :| 0 <= k < |arrivals[..i]| && arrivals[..i][k].node == a;
      assert arrivals[..i + 1][k].node == a;
    }
    if arrivals[i].node == a {
      assert arrivals[..i + 1][i].node == a;
    }
  }

  ghost predicate Grew(v: View, w: View) {
    v.Valid() && w.Valid() && v.fields == w.fields && forall c :: c in v.fields ==> Lifetime(v, c) <= Lifetime(w, c)
  }

  predicate Mentions(arrivals: seq<Arrival>, a: Node) {
    exists i :: 0 <= i < |arrivals| && arrivals[i].node == a
  }

  ghost predicate Quiet(a: Node, early: nat -> seq<Arrival>, late: nat -> seq<Arrival>) {
    forall n :: !Mentions(early(n), a) && !Mentions(late(n), a)
  }

  lemma ObserveGrows(v: View, m: Report, now: nat)
    requires Sane(v) && v.fields <= m.counters.Keys
    ensures Sane(Observe(v, m, now)) && Grew(v, Observe(v, m, now))
  {
    forall c | c in v.fields
      ensures Sane(Observe(v, m, now)) && Lifetime(v, c) <= Lifetime(Observe(v, m, now), c)
    {
      ObserveBudget(v, m, now, c);
    }
  }

  function RowLifetime(r: Row, c: Counter): real
    requires c in r.banked && c in r.lastRaw
  {
    r.banked[c] + r.lastRaw[c]
  }

  lemma UnseenIsSane(fields: set<Counter>)
    requires UptimeSeconds in fields
    ensures Sane(Unseen(fields))
  {
    assert forall c :: c in fields ==> 0.0 <= Capacity(c);
  }

  /** A reading advances a slot, and one that was clean before stays clean. */
  lemma ReadingAdvances(s: Slot, t: Slot, e: Entry, m: Report, now: nat, saveFails: bool)
    requires Sane(e.view) && e.view.fields <= m.counters.Keys
    requires s.entry == Some(e) || (s.entry == None && e == Entry(Unseen(e.view.fields), false))
    requires t.entry.Some? && Observed(e, t.entry.value, m, now, saveFails)
    requires t.row == if Restarted(e.view, m) && !saveFails then Some(Persisted(t.entry.value.view)) else s.row
    ensures Advanced(s, t) && (CleanSlot(s) ==> CleanSlot(t))
  {
    ObservedEntryIsFine(e.view, m, now);
    ObserveGrows(e.view, m, now);
    PersistedIsAbove(e.view, t.entry.value.view);
  }

  /** Observing keeps an entry sane; and if nothing that marks it dirty happened and it
      still counts nothing, what would be persisted is unchanged. */
  lemma ObservedEntryIsFine(v: View, m: Report, now: nat)
    requires Sane(v) && v.fields <= m.counters.Keys
    ensures Sane(Observe(v, m, now))
    ensures !Restarted(v, m) && StartAfter(v, m) == v.start && IsZero(Observe(v, m, now).lastRaw)
            ==> IsZero(v.lastRaw) && Persisted(Observe(v, m, now)) == Persisted(v)
  {
    var u := Observe(v, m, now);
    forall c | c in v.fields
      ensures Sane(u) && Lifetime(v, c) <= Lifetime(u, c)
    {
      ObserveBudget(v, m, now, c);
    }
    if !Restarted(v, m) && IsZero(u.lastRaw) {
      forall c | c in v.fields
        ensures v.lastRaw[c] == u.lastRaw[c] == 0.0
      {
        assert v.banked[c] == u.banked[c];
      }
      assert v.lastRaw == u.lastRaw;
    }
  }

  // ---- Network totals -------------------------------------------------------------

  function SumBy<T>(xs: seq<T>, f: T -> real): real {
    if xs == [] then 0.0 else SumBy(xs[..|xs| - 1], f) + f(xs[|xs| - 1])
  }

  /** A node's lifetime total of one counter. */
  function LifetimeOf(c: Counter): View -> real {
    (v: View) => if v.Valid() && c in v.fields then Lifetime(v, c) else 0.0
  }

  method NetworkTotals(views: seq<View>, fields: set<Counter>) returns (total: Totals)
    requires forall i :: 0 <= i < |views| ==> views[i].Valid() && views[i].fields == fields
    ensures total.Keys == fields && forall c :: c in fields ==> total[c] == SumBy(views, LifetimeOf(c))
  {
    total := Zero(fields);
    for i := 0 to |views|
      invariant total.Keys == fields && forall c :: c in fields ==> total[c] == SumBy(views[..i], LifetimeOf(c))
    {
      assert views[..i + 1][..i] == views[..i];
      total := Plus(total, views[i].banked);
      total := Plus(total, views[i].lastRaw);
    }
    assert views[..|views|] == views;
  }

  lemma {:induction false} SumWithout<T>(before: seq<T>, x: T, after: seq<T>, f: T -> real)
    ensures SumBy(before + [x] + after, f) == SumBy(before + after, f) + f(x)
    decreases |after|
  {
    if after == [] {
      assert before + [x] + after == before + [x] && before + after == before;
      assert (before + [x])[..|before|] == before;
    } else {
      var n := |after| - 1;
      SumWithout(before, x, after[..n], f);
      assert (before + [x] + after)[..|before| + 1 + n] == before + [x] + after[..n];
      assert (before + after)[..|before| + n] == before + after[..n];
    }
  }

  /** The totals do not depend on the order the nodes are visited in. */
  lemma {:induction false} TotalsIgnoreOrder<T>(xs: seq<T>, ys: seq<T>, f: T -> real)
    requires multiset(xs) == multiset(ys)
    ensures SumBy(xs, f) == SumBy(ys, f)
    decreases |xs|
  {
    if xs == [] {
      assert |multiset(ys)| == 0;
    } else {
      var n := |xs| - 1;
      var last := xs[n];
      assert xs == xs[..n] + [last];
      assert last in multiset(ys);
      var i: nat :| i < |ys| && ys[i] == last;
      var before, after := ys[..i], ys[i + 1..];
      assert ys == before + [last] + after;
      RemoveOne(xs[..n], last, before, after);
      TotalsIgnoreOrder(xs[..n], before + after, f);
      SumWithout(before, last, after, f);
    }
  }

  lemma RemoveOne<T>(front: seq<T>, x: T, before: seq<T>, after: seq<T>)
    requires multiset(front + [x]) == multiset(before + [x] + after)
    ensures multiset(front) == multiset(before + after)
  {
    assert multiset(front + [x]) == multiset(front) + multiset{x};
    assert multiset(before + [x] + after) == multiset(before) + multiset{x} + multiset(after);
    assert multiset(before + after) == multiset(before) + multiset(after);
    assert multiset(front) == multiset(front + [x]) - multiset{x};
    assert multiset(before + after) == multiset(before + [x] + after) - multiset{x};
  }
}
