/** Whole runs of the durable text queue: order per portal, and what holds in every state of every run. */
module QueueRuns {
  import opened Results
  import opened InboundTable
  import opened SpoolNames
  import opened SpoolDisk
  import opened DeliverPass
  import opened QueueProtocol
  import opened QueueFiles

  // ---- Order per portal

  function RowsOf(rows: seq<Row>, p: Portal): seq<Row> {
    if rows == [] then []
    else
      var n := |rows| - 1;
      RowsOf(rows[..n], p) + if PortalOf(rows[n].text) == p then [rows[n]] else []
  }

  function TextsOf(xs: seq<Sms>, p: Portal): seq<Sms> {
    if xs == [] then []
    else
      var n := |xs| - 1;
      TextsOf(xs[..n], p) + if PortalOf(xs[n]) == p then [xs[n]] else []
  }

  /** The texts of the rows, each where it comes first. */
  function FirstTexts(rows: seq<Row>): seq<Sms> {
    if rows == [] then []
    else
      var n := |rows| - 1;
      var xs := FirstTexts(rows[..n]);
      if rows[n].text in xs then xs else xs + [rows[n].text]
  }

  /** The rows whose texts had not come before. */
  function FirstRows(rows: seq<Row>): seq<Row> {
    if rows == [] then []
    else
      var n := |rows| - 1;
      FirstRows(rows[..n]) + if rows[n].text in FirstTexts(rows[..n]) then [] else [rows[n]]
  }

  predicate FirstOfThem(rows: seq<Row>, k: nat, xs: seq<Sms>) {
    k <= |rows| && xs == FirstTexts(rows[..k])
  }

  /** All that comes before r has reached Matrix. */
  ghost predicate NothingBefore(s: Sys, p: Portal, r: Row) {
    forall q :: q in s.inserted && PortalOf(q.text) == p && Before(q, r) ==> InMatrix(s, q.text.uid)
  }

  /** What a row has to do yet: nothing if its text is in Matrix, and otherwise all that comes before it is there. */
  ghost predicate IsNext(s: Sys, p: Portal, r: Row) {
    PortalOf(r.text) == p && !InMatrix(s, r.text.uid) ==> NothingBefore(s, p, r)
  }

  /** Whatever a delivery or a pass holds of the portal p is next. */
  ghost predicate HeldInOrder(s: Sys, p: Portal) {
    && (forall t :: t in s.flights ==> IsNext(s, p, s.flights[t].row))
    && (forall t, r :: t in s.snapshots && r in s.snapshots[t] ==> IsNext(s, p, r))
  }

  /** The texts of p in Matrix are the first texts inserted for p, in the order they were inserted. */
  ghost predicate ArrivedInOrder(s: Sys, p: Portal) {
    exists k: nat :: FirstOfThem(RowsOf(s.inserted, p), k, TextsOf(s.matrix, p))
  }

  ghost predicate OrderInv(s: Sys, p: Portal) {
    InOrder(FirstRows(RowsOf(s.inserted, p))) ==> HeldInOrder(s, p) && ArrivedInOrder(s, p)
  }

  lemma {:induction false} RowsOfAre(rows: seq<Row>, p: Portal)
    ensures forall r :: r in RowsOf(rows, p) <==> r in rows && PortalOf(r.text) == p
  {
    if rows != [] {
      var n := |rows| - 1;
      RowsOfAre(rows[..n], p);
      assert rows == rows[..n] + [rows[n]];
    }
  }

  lemma {:induction false} TextsOfAre(xs: seq<Sms>, p: Portal)
    ensures forall x :: x in TextsOf(xs, p) <==> x in xs && PortalOf(x) == p
  {
    if xs != [] {
      var n := |xs| - 1;
      TextsOfAre(xs[..n], p);
      assert xs == xs[..n] + [xs[n]];
    }
  }

  lemma {:induction false} FirstTextsAre(rows: seq<Row>)
    ensures forall x :: x in FirstTexts(rows) <==> exists r :: r in rows && r.text == x
  {
    if rows != [] {
      var n := |rows| - 1;
      FirstTextsAre(rows[..n]);
      assert rows == rows[..n] + [rows[n]];
      assert rows[n] in rows;
    }
  }

  lemma RowsOfMore(rows: seq<Row>, r: Row, p: Portal)
    ensures RowsOf(rows + [r], p) == RowsOf(rows, p) + if PortalOf(r.text) == p then [r] else []
  {
    assert (rows + [r])[..|rows|] == rows;
  }

  lemma TextsOfMore(xs: seq<Sms>, x: Sms, p: Portal)
    ensures TextsOf(xs + [x], p) == TextsOf(xs, p) + if PortalOf(x) == p then [x] else []
  {
    assert (xs + [x])[..|xs|] == xs;
  }

  /** Rows whose texts are already there add nothing. */
  lemma {:induction false} FirstTextsSkip(rows: seq<Row>, k: nat, i: nat)
    requires k <= i <= |rows|
    requires forall j :: k <= j < i ==> rows[j].text in FirstTexts(rows[..k])
    ensures FirstTexts(rows[..i]) == FirstTexts(rows[..k])
  {
    if k < i {
      FirstTextsSkip(rows, k, i - 1);
      assert rows[..i][..i - 1] == rows[..i - 1];
    }
  }

  lemma InOrderPrefix(rows: seq<Row>, more: seq<Row>)
    requires rows <= more && InOrder(more)
    ensures InOrder(rows)
  {
    hide Before;
    assert forall i :: 0 <= i < |rows| ==> more[i] == rows[i];
  }

  /** Every text has a first row. */
  lemma {:induction false} FirstAt(rows: seq<Row>, k: nat) returns (i: nat)
    requires k < |rows|
    ensures i <= k && rows[i].text == rows[k].text && rows[i].text !in FirstTexts(rows[..i])
  {
    if rows[k].text in FirstTexts(rows[..k]) {
      FirstTextsAre(rows[..k]);
      var r :| r in rows[..k] && r.text == rows[k].text;
      var j :| 0 <= j < k && rows[..k][j] == r;
      i := FirstAt(rows, j);
    } else {
      i := k;
    }
  }

  lemma FirstRowsUpTo(rows: seq<Row>, i: nat)
    requires i < |rows| && rows[i].text !in FirstTexts(rows[..i])
    ensures FirstRows(rows[..i + 1]) == FirstRows(rows[..i]) + [rows[i]]
  {
    assert rows[..i + 1][..i] == rows[..i];
  }

  lemma {:induction false} FirstRowsPrefix(rows: seq<Row>, k: nat)
    requires k <= |rows|
    ensures FirstRows(rows[..k]) <= FirstRows(rows)
  {
    if k < |rows| {
      FirstRowsPrefix(rows[..|rows| - 1], k);
      assert rows[..|rows| - 1][..k] == rows[..k];
    } else {
      assert rows[..k] == rows;
    }
  }

  lemma TwoInOrder(a: seq<Row>, x: Row, b: seq<Row>, y: Row, c: seq<Row>)
    requires a + [x] <= b && b + [y] <= c && InOrder(c)
    ensures Before(x, y)
  {
    hide Before;
    assert (b + [y])[|a|] == b[|a|] == (a + [x])[|a|];
    assert c[|a|] == x && c[|b|] == y;
  }

  /** First rows are among one another as they are in the whole. */
  lemma FirstRowsOrder(rows: seq<Row>, i: nat, j: nat)
    requires InOrder(FirstRows(rows)) && i < j < |rows|
    requires rows[i].text !in FirstTexts(rows[..i]) && rows[j].text !in FirstTexts(rows[..j])
    ensures Before(rows[i], rows[j])
  {
    hide FirstRows, FirstTexts, Before, InOrder;
    FirstRowsUpTo(rows, i);
    FirstRowsUpTo(rows, j);
    FirstRowsPrefix(rows, j + 1);
    FirstRowsPrefix(rows[..j], i + 1);
    assert rows[..j][..i + 1] == rows[..i + 1];
    TwoInOrder(FirstRows(rows[..i]), rows[i], FirstRows(rows[..j]), rows[j], FirstRows(rows));
  }

  /** A row whose text is not in Matrix is the only one of its text, and waits in the table. */
  lemma OnlyRow(s: Sys, q: Row, r: Row)
    requires TableInv(s) && ReachInv(s) && q in s.inserted && r in s.inserted
    requires q.text == r.text && !InMatrix(s, r.text.uid)
    ensures q == r
  {
  }

  /** An insert adds its row behind all others of the portal, or its text is in Matrix. */
  lemma InsertOrder(s: Sys, u: Sys, r: Row, p: Portal)
    requires OrderInv(s, p) && TableInv(s) && ReachInv(s) && !HasUID(s.table, r.text.uid)
    requires u.inserted == s.inserted + [r]
    requires u.matrix == s.matrix && u.flights == s.flights && u.snapshots == s.snapshots
    ensures OrderInv(u, p)
  {
    hide RowsOf, FirstRows, FirstTexts, HeldInOrder, InOrder, TableInv, ReachInv, HasUID, TextsOf, FirstOfThem;
    if InOrder(FirstRows(RowsOf(u.inserted, p))) {
      RowsOfMore(s.inserted, r, p);
      var h, g := RowsOf(s.inserted, p), RowsOf(u.inserted, p);
      assert g[..|h|] == h;
      FirstRowsPrefix(g, |h|);
      InOrderPrefix(FirstRows(h), FirstRows(g));
      InsertHeld(s, u, r, p);
      var k: nat :| FirstOfThem(h, k, TextsOf(s.matrix, p));
      SameFirst(h, g, k, TextsOf(s.matrix, p));
    }
  }

  lemma SameFirst(h: seq<Row>, g: seq<Row>, k: nat, m: seq<Sms>)
    requires |h| <= |g| && g[..|h|] == h && FirstOfThem(h, k, m)
    ensures FirstOfThem(g, k, m)
  {
    assert k <= |h| ==> g[..k] == h[..k];
  }

  lemma InsertHeld(s: Sys, u: Sys, r: Row, p: Portal)
    requires HeldInOrder(s, p) && TableInv(s) && ReachInv(s) && !HasUID(s.table, r.text.uid)
    requires u.inserted == s.inserted + [r] && InOrder(FirstRows(RowsOf(u.inserted, p)))
    requires u.matrix == s.matrix && u.flights == s.flights && u.snapshots == s.snapshots
    ensures HeldInOrder(u, p)
  {
    forall t | t in s.flights ensures IsNext(u, p, s.flights[t].row) {
      assert GoodFlight(s, s.flights[t]) && IsNext(s, p, s.flights[t].row);
      InsertedBehind(s, u, r, p, s.flights[t].row);
    }
    forall t, q | t in s.snapshots && q in s.snapshots[t] ensures IsNext(u, p, q) {
      assert q in s.inserted && IsNext(s, p, q);
      InsertedBehind(s, u, r, p, q);
    }
  }

  lemma InsertedBehind(s: Sys, u: Sys, r: Row, p: Portal, q: Row)
    requires TableInv(s) && ReachInv(s) && !HasUID(s.table, r.text.uid) && q in s.inserted && IsNext(s, p, q)
    requires u.inserted == s.inserted + [r] && InOrder(FirstRows(RowsOf(u.inserted, p))) && u.matrix == s.matrix
    ensures IsNext(u, p, q)
  {
    assert forall uid :: InMatrix(u, uid) == InMatrix(s, uid);
    if PortalOf(q.text) == p && !InMatrix(s, q.text.uid) && PortalOf(r.text) == p && !InMatrix(s, r.text.uid) {
      ComesAfter(s, u, r, p, q);
    }
    hide InMatrix, RowsOf, FirstRows, InOrder, TableInv, ReachInv, HasUID;
  }

  /** The first row of a text comes after all that wait. */
  lemma ComesAfter(s: Sys, u: Sys, r: Row, p: Portal, q: Row)
    requires TableInv(s) && ReachInv(s) && !HasUID(s.table, r.text.uid) && q in s.inserted
    requires u.inserted == s.inserted + [r] && InOrder(FirstRows(RowsOf(u.inserted, p)))
    requires PortalOf(q.text) == p && !InMatrix(s, q.text.uid) && PortalOf(r.text) == p && !InMatrix(s, r.text.uid)
    ensures Before(q, r)
  {
    RowsOfMore(s.inserted, r, p);
    RowsOfAre(s.inserted, p);
    var h, g := RowsOf(s.inserted, p), RowsOf(u.inserted, p);
    var k :| 0 <= k < |h| && h[k] == q;
    hide RowsOf, FirstRows, InOrder, Before;
    var i := FirstAt(g, k);
    assert g[i] == h[i] && h[i] in h;
    OnlyRow(s, h[i], q);
    assert g[..|h|] == h;
    NewText(s, r, h);
    FirstRowsOrder(g, i, |h|);
  }

  lemma NewText(s: Sys, r: Row, h: seq<Row>)
    requires ReachInv(s) && !HasUID(s.table, r.text.uid) && !InMatrix(s, r.text.uid)
    requires forall x :: x in h ==> x in s.inserted
    ensures r.text !in FirstTexts(h)
  {
    FirstTextsAre(h);
  }

  lemma FirstTextsInclude(h: seq<Row>, k: nat)
    requires k <= |h|
    ensures forall i :: 0 <= i < k ==> h[i].text in FirstTexts(h[..k])
  {
    FirstTextsAre(h[..k]);
    assert forall i :: 0 <= i < k ==> h[..k][i] == h[i] && h[i] in h[..k];
  }

  /** The next text of p to reach Matrix is the first that is not there. */
  lemma NextArrives(h: seq<Row>, k: nat, i: nat, xs: seq<Sms>)
    requires FirstOfThem(h, k, xs) && i < |h| && h[i].text !in xs
    requires forall j :: 0 <= j < i ==> h[j].text in xs
    ensures FirstOfThem(h, i + 1, xs + [h[i].text])
  {
    FirstTextsInclude(h, k);
    FirstTextsSkip(h, k, if k <= i then i else k);
    assert h[..i + 1][..i] == h[..i];
  }

  lemma ArriveOrder(s: Sys, t: Tid, p: Portal)
    requires OrderInv(s, p) && TableInv(s) && ReachInv(s) && t in s.flights
    ensures OrderInv(Arrive(s, s.flights[t].row.text), p)
  {
    var r := s.flights[t].row;
    var u := Arrive(s, r.text);
    FlightArrives(s, t);
    if InOrder(FirstRows(RowsOf(s.inserted, p))) && u != s {
      TextsOfMore(s.matrix, r.text, p);
      var h := RowsOf(s.inserted, p);
      var k: nat :| FirstOfThem(h, k, TextsOf(s.matrix, p));
      if PortalOf(r.text) == p {
        ArrivalIsNext(s, t, p, k);
      } else {
        assert FirstOfThem(h, k, TextsOf(u.matrix, p));
      }
      ArriveHeld(s, u, p);
    }
  }

  lemma ArriveHeld(s: Sys, u: Sys, p: Portal)
    requires HeldInOrder(s, p) && u == s.(matrix := u.matrix)
    requires forall uid :: InMatrix(s, uid) ==> InMatrix(u, uid)
    ensures HeldInOrder(u, p)
  {
    hide InMatrix;
    assert forall q :: NothingBefore(s, p, q) ==> NothingBefore(u, p, q);
    assert forall q :: IsNext(s, p, q) ==> IsNext(u, p, q);
  }

  lemma ArrivalIsNext(s: Sys, t: Tid, p: Portal, k: nat)
    requires HeldInOrder(s, p) && TableInv(s) && ReachInv(s) && InOrder(FirstRows(RowsOf(s.inserted, p)))
    requires t in s.flights && PortalOf(s.flights[t].row.text) == p && !InMatrix(s, s.flights[t].row.text.uid)
    requires FirstOfThem(RowsOf(s.inserted, p), k, TextsOf(s.matrix, p))
    ensures exists n: nat :: FirstOfThem(RowsOf(s.inserted, p), n, TextsOf(s.matrix, p) + [s.flights[t].row.text])
  {
    var r := s.flights[t].row;
    var h := RowsOf(s.inserted, p);
    assert GoodFlight(s, s.flights[t]) && IsNext(s, p, r);
    RowsOfAre(s.inserted, p);
    TextsOfAre(s.matrix, p);
    var l :| 0 <= l < |h| && h[l] == r;
    var i := FirstAt(h, l);
    assert h[i] in h;
    OnlyRow(s, h[i], r);
    forall j | 0 <= j < i ensures h[j].text in TextsOf(s.matrix, p) {
      var f := FirstAt(h, j);
      FirstRowsOrder(h, f, i);
      assert h[f] in h && h[j] in h;
      RowInMatrix(s, h[f]);
    }
    NextArrives(h, k, i, TextsOf(s.matrix, p));
  }

  lemma RowInMatrix(s: Sys, q: Row)
    requires TableInv(s) && ReachInv(s) && q in s.inserted && InMatrix(s, q.text.uid)
    ensures q.text in s.matrix
  {
    assert KnownRow(s, q);
    var x :| x in s.matrix && x.uid == q.text.uid;
  }

  ghost predicate RowHeld(s: Sys, r: Row) {
    || (exists v :: v in s.flights && s.flights[v].row == r)
    || (exists v :: v in s.snapshots && r in s.snapshots[v])
  }

  /** Flights and snapshots that are held anew are of rows that were held. */
  ghost predicate HoldsNothingNew(s: Sys, u: Sys) {
    && (forall t :: t in u.flights ==> RowHeld(s, u.flights[t].row))
    && (forall t :: t in u.snapshots ==> t in s.snapshots && u.snapshots[t] == s.snapshots[t])
  }

  lemma OrderFrame(s: Sys, u: Sys, p: Portal)
    requires OrderInv(s, p) && u.inserted == s.inserted && u.matrix == s.matrix && HoldsNothingNew(s, u)
    ensures OrderInv(u, p)
  {
    assert forall uid :: InMatrix(u, uid) == InMatrix(s, uid);
    hide InMatrix, RowsOf, TextsOf, FirstTexts, Before;
    assert forall r :: IsNext(s, p, r) ==> IsNext(u, p, r);
  }

  lemma ReadHeadsOrder(s: Sys, t: Tid, limit: nat, p: Portal)
    requires OrderInv(s, p) && Ordered(s.table) && ReachInv(s)
    ensures OrderInv(ReadHeads(s, t, limit), p)
  {
    hide RowsOf, TextsOf, FirstTexts, Before, Heads, IsHead, ReachInv, InOrder, Ordered;
    var u := ReadHeads(s, t, limit);
    HeadsAreHeads(s.table, limit);
    assert forall uid :: InMatrix(u, uid) == InMatrix(s, uid);
    forall r | r in Heads(s.table, limit) && PortalOf(r.text) == p ensures NothingBefore(s, p, r) {
      HeadHasNothingBefore(s, r);
    }
    hide InMatrix;
    assert forall r :: IsNext(s, p, r) ==> IsNext(u, p, r);
  }

  /** What comes before a head has left the table, and so is in Matrix. */
  lemma HeadHasNothingBefore(s: Sys, r: Row)
    requires ReachInv(s) && IsHead(s.table, r)
    ensures NothingBefore(s, PortalOf(r.text), r)
  {
  }

  lemma InsertTextOrder(s: Sys, t: Tid, m: Message, id: int, fault: Fault, p: Portal)
    requires OrderInv(s, p) && TableInv(s) && ReachInv(s)
    ensures OrderInv(InsertText(s, t, m, id, fault), p)
  {
    var u := InsertText(s, t, m, id, fault);
    if u.inserted != s.inserted {
      InsertOrder(s, u, Row(id, m.text, UnixMilli(m.receivedNs)), p);
    } else {
      OrderFrame(s, u, p);
    }
  }

  lemma RunPassOrder(s: Sys, t: Tid, now: int, stop: nat, tids: seq<Tid>, p: Portal)
    requires OrderInv(s, p) && Enabled(s, ARunPass(t, now, stop, tids))
    ensures OrderInv(RunPass(s, t, now, stop, tids), p)
  {
    var u := RunPass(s, t, now, stop, tids);
    var q := Pass(s, t, now, stop);
    hide PassEnd, AddFlights, Starts, Fresh, OrderInv;
    PassStarts(s.portals, s.sem, s.snapshots[t], stop, now);
    SpawnedFromSnapshot(s, t, q.spawned, tids);
    hide RowHeld;
    OrderFrame(s, u, p);
  }

  lemma SpawnedFromSnapshot(s: Sys, t: Tid, rows: seq<Row>, tids: seq<Tid>)
    requires t in s.snapshots && |tids| == |rows| && Fresh(s.flights, tids)
    requires forall r :: r in rows ==> r in s.snapshots[t]
    ensures forall k :: k in AddFlights(s.flights, tids, rows) ==> RowHeld(s, AddFlights(s.flights, tids, rows)[k].row)
  {
    AddedFlights(s.flights, tids, rows);
    var fs := AddFlights(s.flights, tids, rows);
    hide AddFlights, Fresh;
    forall k | k in fs ensures RowHeld(s, fs[k].row) {
      if k !in s.flights {
        var i :| 0 <= i < |tids| && tids[i] == k;
        assert rows[i] in rows;
      }
    }
  }

  lemma DeliverOrder(s: Sys, t: Tid, reached: bool, ok: bool, p: Portal)
    requires OrderInv(s, p) && TableInv(s) && ReachInv(s) && t in s.flights
    ensures OrderInv(Deliver(s, t, reached, ok), p)
  {
    var u := if reached then Arrive(s, s.flights[t].row.text) else s;
    ArriveOrder(s, t, p);
    hide OrderInv, InMatrix, Arrive, TableInv, ReachInv;
    OrderFrame(u, Deliver(s, t, reached, ok), p);
  }

  /** The steps that neither insert rows, read heads, start deliveries nor reach Matrix. */
  lemma OtherOrder(s: Sys, a: Step, p: Portal)
    requires OrderInv(s, p) && Enabled(s, a)
    requires !(a.APersistInsert? || a.ADrainInsert? || a.AReadHeads? || a.ARunPass? || a.ADeliver?)
    ensures OrderInv(Effect(s, a), p)
  {
    if OnSpool(a) {
      SpoolHolds(s, a);
    } else {
      QuietHolds(s, a);
    }
    hide OrderInv, Enabled, Effect, HoldsNothingNew;
    OrderFrame(s, Effect(s, a), p);
  }

  lemma SpoolHolds(s: Sys, a: Step)
    requires Enabled(s, a) && OnSpool(a)
    ensures var u := Effect(s, a); u.inserted == s.inserted && u.matrix == s.matrix && HoldsNothingNew(s, u)
  {
    hide Do, CanDo, Crash, Harmless, IsSpoolStep, Pass, HoldsNothingNew;
    RowsHeld(s, Effect(s, a));
  }

  lemma RowsHeld(s: Sys, u: Sys)
    requires forall t :: t in u.flights ==> t in s.flights && u.flights[t].row == s.flights[t].row
    requires forall t :: t in u.snapshots ==> t in s.snapshots && u.snapshots[t] == s.snapshots[t]
    ensures HoldsNothingNew(s, u)
  {
  }

  lemma QuietHolds(s: Sys, a: Step)
    requires Enabled(s, a) && !OnSpool(a)
    requires !(a.APersistInsert? || a.ADrainInsert? || a.AReadHeads? || a.ARunPass? || a.ADeliver?)
    ensures var u := Effect(s, a); u.inserted == s.inserted && u.matrix == s.matrix && HoldsNothingNew(s, u)
  {
    hide Do, CanDo, Crash, Deleted, StateOf, Settled, Harmless, Pass, HoldsNothingNew;
    RowsHeld(s, Effect(s, a));
  }

  lemma EffectOrder(s: Sys, a: Step, p: Portal)
    requires OrderInv(s, p) && DataInv(s) && Enabled(s, a)
    ensures OrderInv(Effect(s, a), p)
  {
    hide OrderInv, Mint, InsertText, SpoolRename, SpoolFsync, ReadHeads, RunPass, Deliver, DeleteRow, Settle, Leave,
         Restart, CanDo, Crash, Ordered, TableInv, SpoolInv, ReachInv, SafeInv, Harmless;
    match a
    case APersistInsert(t, uid, id, fault) =>
      InsertTextOrder(s, t, s.texts[uid], id, fault, p);
      OrderFrame(InsertText(s, t, s.texts[uid], id, fault), Effect(s, a), p);
    case ADrainInsert(name, id, fault) =>
      InsertTextOrder(s, DRAINER, FileText(s.disk, name), id, fault, p);
      OrderFrame(InsertText(s, DRAINER, FileText(s.disk, name), id, fault), Effect(s, a), p);
    case AReadHeads(t, limit) => ReadHeadsOrder(s, t, limit, p);
    case ARunPass(t, now, stop, tids) => RunPassOrder(s, t, now, stop, tids, p);
    case ADeliver(t, reached, ok) => DeliverOrder(s, t, reached, ok, p);
    case _ => OtherOrder(s, a, p);
  }

  lemma StepOrder(s: Sys, a: Step, p: Portal)
    requires OrderInv(s, p) && DataInv(s) && Enabled(s, a)
    ensures OrderInv(Next(s, a), p)
  {
    hide OrderInv, DataInv, Effect, Enabled, Next;
    EffectOrder(s, a, p);
    OnlyNoted(s, a);
    SameHeld(Effect(s, a), Next(s, a));
    OrderFrame(Effect(s, a), Next(s, a), p);
  }

  lemma SameHeld(s: Sys, u: Sys)
    requires u == s.(did := u.did)
    ensures HoldsNothingNew(s, u)
  {
  }

  // ---- Runs

  ghost predicate Inv(s: Sys) {
    DataInv(s) && FlightInv(s) && FiledInv(s) && forall p :: OrderInv(s, p)
  }

  lemma InitKeeps()
    ensures Inv(INIT)
  {
    InitFlights();
    InitDisk();
    forall p ensures OrderInv(INIT, p) {
      assert FirstOfThem(RowsOf([], p), 0, TextsOf([], p));
    }
    assert forall uid :: !InMatrix(INIT, uid);
  }

  lemma StepKeeps(s: Sys, a: Step)
    requires Inv(s) && Enabled(s, a)
    ensures Inv(Next(s, a))
  {
    hide DataInv, FlightInv, FiledInv, OrderInv, Enabled, Next;
    StepData(s, a);
    StepFiled(s, a);
    StepFlights(s, a);
    forall p ensures OrderInv(Next(s, a), p) {
      StepOrder(s, a, p);
    }
  }

  /** The states of a run, from the first start of the bridge on, and the step between each two. */
  ghost predicate Run(states: seq<Sys>, steps: seq<Step>) {
    && |states| == |steps| + 1 && states[0] == INIT
    && forall i :: 0 <= i < |steps| ==> Enabled(states[i], steps[i]) && states[i + 1] == Next(states[i], steps[i])
  }

  lemma {:induction false} RunKeeps(states: seq<Sys>, steps: seq<Step>, i: nat)
    requires Run(states, steps) && i < |states|
    ensures Inv(states[i])
  {
    hide Inv, Enabled, Next;
    if i == 0 {
      InitKeeps();
    } else {
      RunKeeps(states, steps, i - 1);
      StepKeeps(states[i - 1], steps[i - 1]);
    }
  }

  /** What Persist has promised stays promised, and no accepted text changes. */
  lemma EffectPromises(s: Sys, a: Step)
    requires Enabled(s, a)
    ensures var u := Effect(s, a);
            && s.acked <= u.acked
            && forall uid :: uid in s.texts ==> uid in u.texts && u.texts[uid] == s.texts[uid]
  {
    hide Do, CanDo, Crash, Ordered, Heads, IsSpoolStep, Readable, Known, FileText, Pass, AddFlights, InMatrix,
         StateOf, Settled, Deleted, InsertText, Fresh, Harmless;
  }

  lemma StepPromises(s: Sys, a: Step)
    requires Enabled(s, a)
    ensures var u := Next(s, a);
            && s.acked <= u.acked
            && forall uid :: uid in s.texts ==> uid in u.texts && u.texts[uid] == s.texts[uid]
  {
    hide Effect, Enabled, Next;
    EffectPromises(s, a);
    OnlyNoted(s, a);
  }

  lemma {:induction false} RunPromises(states: seq<Sys>, steps: seq<Step>, i: nat, j: nat)
    requires Run(states, steps) && i <= j < |states|
    ensures states[i].acked <= states[j].acked
    ensures forall uid :: uid in states[i].texts ==>
              uid in states[j].texts && states[j].texts[uid] == states[i].texts[uid]
  {
    hide Enabled, Next;
    if i < j {
      RunPromises(states, steps, i, j - 1);
      StepPromises(states[j - 1], steps[j - 1]);
    }
  }

  /** The directory x has a whole, synced file of the message. */
  ghost predicate InSpool(files: map<nat, File>, x: Dir, m: Message) {
    exists n :: n in x && NamedAfter(n, m.receivedNs, m.text.uid) && x[n] in files
      && files[x[n]] == File(Whole(m), true)
  }

  /** The accepted text uid, as it was accepted, is where the bridge will find it: in the table, in Matrix, or
      in a whole file of the spool directory, listed or set aside, in every state that a crash may leave. */
  ghost predicate Kept(s: Sys, uid: string) {
    uid in s.texts &&
    (|| (exists r :: r in s.table && r.text == s.texts[uid].text)
     || s.texts[uid].text in s.matrix
     || forall x :: Outcome(s.disk, x) ==> InSpool(s.disk.files, x, s.texts[uid]))
  }

  lemma SafeIsKept(s: Sys, uid: string)
    requires DataInv(s) && Safe(s, uid)
    ensures Kept(s, uid)
  {
    if InMatrix(s, uid) {
      var x :| x in s.matrix && x.uid == uid;
    } else if HasUID(s.table, uid) {
      var r :| r in s.table && r.text.uid == uid;
      assert KnownRow(s, r);
    } else {
      assert uid in s.texts by {
        HeldIsKnown(s, s.disk.dir, uid);
      }
      forall x | Outcome(s.disk, x)
        ensures InSpool(s.disk.files, x, s.texts[uid])
      {
        HeldIsKnown(s, x, uid);
      }
    }
  }

  lemma HeldIsKnown(s: Sys, x: Dir, uid: string)
    requires SpoolInv(s) && Held(s.disk, uid) && Outcome(s.disk, x)
    ensures uid in s.texts
    ensures InSpool(s.disk.files, x, s.texts[uid])
  {
    var n :| n in x && !IsTemp(n) && IsTextFile(s.disk.files, n, x[n]) && s.disk.files[x[n]].content.m.text.uid == uid;
    assert Known(s, s.disk.files[x[n]].content.m);
  }

  /** No text is lost: once Persist returned nil for it, it is kept in every later state, however many crashes,
      failed statements and failed deliveries lie between. */
  lemma NoTextIsLost(states: seq<Sys>, steps: seq<Step>, i: nat, j: nat, uid: string)
    requires Run(states, steps) && i <= j < |states| && uid in states[i].acked
    ensures Kept(states[j], uid)
    ensures uid in states[i].texts ==> states[j].texts[uid] == states[i].texts[uid]
  {
    hide Run, Kept, FlightInv, OrderInv;
    RunPromises(states, steps, i, j);
    RunKeeps(states, steps, j);
    assert Safe(states[j], uid);
    SafeIsKept(states[j], uid);
  }

  /** In no state, and whatever a crash may leave of it, does a name that List returns hold anything but a whole,
      synced text that was accepted. */
  lemma ListedFilesAreWhole(states: seq<Sys>, steps: seq<Step>, i: nat, x: Dir, n: string)
    requires Run(states, steps) && i < |states| && Outcome(states[i].disk, x) && n in x && IsListed(n)
    ensures var d := states[i].disk;
            && x[n] in d.files && d.files[x[n]].synced && d.files[x[n]].content.Whole?
            && Known(states[i], d.files[x[n]].content.m)
  {
    hide Run, FlightInv, OrderInv;
    RunKeeps(states, steps, i);
    ListedAreWhole(states[i].disk, x, n);
  }

  /** Matrix gets every text once and as it was accepted, although its row may be inserted and handed over
      many times. */
  lemma OneCopyInMatrix(states: seq<Sys>, steps: seq<Step>, i: nat, a: nat, b: nat)
    requires Run(states, steps) && i < |states|
    requires a < |states[i].matrix| && b < |states[i].matrix| && states[i].matrix[a].uid == states[i].matrix[b].uid
    ensures a == b
    ensures var x := states[i].matrix[a]; x.uid in states[i].texts && states[i].texts[x.uid].text == x
  {
    hide Run, FlightInv, OrderInv;
    RunKeeps(states, steps, i);
  }

  /** When the texts of a portal were inserted in delivery order, each the first time, they reach Matrix in exactly that
      order: what is in Matrix is what was inserted first. A text may be inserted again after it was delivered. */
  lemma OrderPerPortal(states: seq<Sys>, steps: seq<Step>, i: nat, p: Portal)
    requires Run(states, steps) && i < |states| && InOrder(FirstRows(RowsOf(states[i].inserted, p)))
    ensures exists k: nat :: k <= |RowsOf(states[i].inserted, p)|
                             && TextsOf(states[i].matrix, p) == FirstTexts(RowsOf(states[i].inserted, p)[..k])
  {
    hide Run, FlightInv, DataInv, FirstTexts;
    RunKeeps(states, steps, i);
    assert OrderInv(states[i], p);
  }

  /** In every state a portal is busy exactly while one delivery for it is in flight; at most 8 are; and a
      delivery about to record its failure finds the state of its portal. */
  lemma DeliveriesInFlight(states: seq<Sys>, steps: seq<Step>, i: nat)
    requires Run(states, steps) && i < |states|
    ensures var s := states[i];
            && |s.flights| == s.sem <= 8
            && (forall k :: StateOf(s.portals, k).busy <==> exists t :: Holds(s, t, k))
            && (forall t, u, k :: Holds(s, t, k) && Holds(s, u, k) ==> t == u)
            && (forall t :: t in s.flights && s.flights[t].phase == Failed ==> s.flights[t].key in s.portals)
  {
    hide Run, DataInv, OrderInv;
    RunKeeps(states, steps, i);
    var s := states[i];
    forall t | t in s.flights && s.flights[t].phase == Failed ensures s.flights[t].key in s.portals {
      FailedPortalKnown(s, t);
    }
  }
}
