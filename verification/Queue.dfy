/** The methods of pkg/inbound as code: what each of them does to the tables, files and fields while the other
    threads of the bridge take steps of their own between any two of its statements. */
module Queue {
  import opened Results
  import opened Text
  import opened InboundTable
  import opened SpoolNames
  import opened SpoolDisk
  import opened DeliverPass
  import opened QueueProtocol
  import opened QueueFiles
  import opened QueueRuns
  import opened QueueThreads

  // ---- Things that always exist

  /** More than every element. */
  lemma {:induction false} Bounded(ids: set<int>) returns (b: nat)
    ensures forall i :: i in ids ==> i < b
    decreases |ids|
  {
    b := 0;
    if i: int :| i in ids {
      var c := Bounded(ids - {i});
      b := if c <= i then i + 1 else c;
      assert forall j :: j in ids ==> j == i || j in ids - {i};
    }
  }

  lemma FreshId(ids: set<int>)
    ensures exists i: nat :: i !in ids
  {
    var b := Bounded(ids);
    assert b !in ids;
  }

  lemma FreshName(names: set<string>)
    ensures exists n :: n !in names && IsTemp(n)
  {
    var lengths := set n | n in names :: |n|;
    var k := Bounded(lengths);
    var n := TMP_PREFIX + seq(k, _ => 'x');
    assert n[..|TMP_PREFIX|] == TMP_PREFIX;
    assert n in names ==> |n| in lengths;
  }

  lemma {:induction false} FreshTids(fs: map<Tid, Flight>, n: nat) returns (tids: seq<Tid>)
    ensures |tids| == n && Fresh(fs, tids)
  {
    if n == 0 {
      tids := [];
    } else {
      tids := FreshTids(fs, n - 1);
      var keys: set<Tid> := fs.Keys + (set t | t in tids);
      var taken: set<int> := set t | t in keys;
      FreshId(taken);
      var t: nat :| t !in taken;
      assert forall i :: 0 <= i < |tids| ==> tids[i] in taken;
      tids := tids + [t];
    }
  }

  // ---- Listing

  lemma InsertedName(names: seq<string>, n: string)
    requires SortedNames(names) && n !in names
    ensures SortedNames(InsertSorted(names, n))
    ensures forall x :: x in InsertSorted(names, n) <==> x == n || x in names
  {
    hide Less;
    forall i, j | 0 <= i < j < |names| ensures !Less(names[j], names[i]) {
      NotBoth(names[i], names[j]);
    }
    InsertedSorted(names, n);
    var more := InsertSorted(names, n);
    forall x ensures x in more <==> x == n || x in names {
      assert x in more <==> multiset(more)[x] > 0;
      assert x in names <==> multiset(names)[x] > 0;
    }
    OneOfEach(names, n, more);
    forall i, j | 0 <= i < j < |more| ensures Less(more[i], more[j]) {
      LessTotal(more[i], more[j]);
    }
  }

  lemma NotBoth(a: string, b: string)
    requires Less(a, b)
    ensures !Less(b, a)
  {
    if Less(b, a) {
      LessTransitive(a, b, a);
      LessIrreflexive(a);
    }
  }

  lemma OneOfEach(names: seq<string>, n: string, more: seq<string>)
    requires SortedNames(names) && n !in names && multiset(more) == multiset(names) + multiset{n}
    ensures forall i, j :: 0 <= i < j < |more| ==> more[i] != more[j]
  {
    hide Less;
    forall i, j | 0 <= i < j < |names| ensures names[i] != names[j] {
      LessIrreflexive(names[i]);
    }
    NoDuplicates(names);
    forall i, j | 0 <= i < j < |more| ensures more[i] != more[j] {
      if more[i] == more[j] {
        TwoOfOne(more, i, j);
      }
    }
  }

  lemma {:induction false} NoDuplicates(s: seq<string>)
    requires forall i, j :: 0 <= i < j < |s| ==> s[i] != s[j]
    ensures forall x :: multiset(s)[x] <= 1
  {
    if s != [] {
      NoDuplicates(s[1..]);
      assert s == [s[0]] + s[1..];
      assert s[0] !in s[1..];
      assert multiset(s) == multiset{s[0]} + multiset(s[1..]);
    }
  }

  lemma TwoOfOne(s: seq<string>, i: nat, j: nat)
    requires i < j < |s| && s[i] == s[j]
    ensures multiset(s)[s[i]] >= 2
  {
    assert s == s[..j] + ([s[j]] + s[j + 1..]);
    assert multiset(s) == multiset(s[..j]) + (multiset{s[j]} + multiset(s[j + 1..]));
    assert s[..j][i] == s[i] && s[i] in s[..j];
  }

  /** A later file of a sorted listing was received no earlier. */
  lemma ListedInReceiveOrder(names: seq<string>, i: nat, j: nat, ns1: Nanos, sq1: nat, uid1: string,
                             ns2: Nanos, sq2: nat, uid2: string)
    requires SortedNames(names) && i < j < |names|
    requires names[i] == FileName(ns1, sq1, uid1) && names[j] == FileName(ns2, sq2, uid2)
    ensures TripleLess(ns1, sq1 % SEQ_MODULUS, Tail(uid1), ns2, sq2 % SEQ_MODULUS, Tail(uid2))
  {
    NameOrder(ns1, sq1, uid1, ns2, sq2, uid2);
  }

  // ---- What a thread has done

  const WRITE_OPS := [Creates, Fills, Syncs, Closes, Renames, SyncsDir]

  /** The operations were tried in order, up to the first error if there was one. */
  predicate Tries(ops: seq<FileOp>, evs: seq<Event>, ok: bool) {
    && |evs| <= |ops| && (if ok then |evs| == |ops| else evs != [])
    && forall i :: 0 <= i < |evs| ==> evs[i] == DidFile(ops[i], ok || i < |evs| - 1)
  }

  /** What Write does: a temporary file that was created and not renamed is given up. */
  predicate Writes(evs: seq<Event>, ok: bool) {
    if !ok && |evs| > 1 && evs[|evs| - 1].DidFile? && evs[|evs| - 1].op == GivesUp then
      3 <= |evs| <= 6 && Tries(WRITE_OPS, evs[..|evs| - 1], false)
    else Tries(WRITE_OPS, evs, ok) && (ok || |evs| == 1 || |evs| == 6)
  }

  /** What Drain does with one file: it is set aside if it cannot be read; otherwise its text is inserted and, unless
      the table refuses, the file removed. */
  predicate Drains(evs: seq<Event>, name: string) {
    && |evs| >= 2 && evs[0].DidRead? && evs[0].name == name && (evs[0].failed ==> evs[0].m == None)
    && match evs[0].m
       case None => |evs| == 2 && evs[1].DidSetAside? && evs[1].name == name
       case Some(m) =>
         && evs[1].DidInsert? && evs[1].uid == m.text.uid
         && if evs[1].ok then |evs| == 3 && evs[2].DidRemove? && evs[2].name == name else |evs| == 2
  }

  /** The table refused the text of the file. */
  predicate Refused(evs: seq<Event>) {
    |evs| == 2 && evs[1].DidInsert?
  }

  /** The text of the file is in the table, or has been. */
  predicate Moved(evs: seq<Event>) {
    |evs| == 3
  }

  /** The row that the file came to, if it made one. */
  function RowAt(evs: seq<Event>): Option<nat> {
    if |evs| >= 2 && evs[1].DidInsert? then evs[1].at else None
  }

  /** The row is the text of the file that was read. */
  ghost predicate RowIsRead(inserted: seq<Row>, evs: seq<Event>) {
    RowAt(evs).Some? ==>
      && evs[0].DidRead? && evs[0].m.Some? && RowAt(evs).value < |inserted|
      && inserted[RowAt(evs).value].text == evs[0].m.value.text
      && inserted[RowAt(evs).value].receivedMs == UnixMilli(evs[0].m.value.receivedNs)
  }

  ghost predicate RowsAreRead(inserted: seq<Row>, files: seq<seq<Event>>) {
    forall i :: 0 <= i < |files| ==> RowIsRead(inserted, files[i])
  }

  /** The rows came one after the other, in the order of the files. */
  predicate RowsFollow(files: seq<seq<Event>>) {
    forall i, j :: 0 <= i < j < |files| && RowAt(files[i]).Some? && RowAt(files[j]).Some? ==>
      RowAt(files[i]).value < RowAt(files[j]).value
  }

  predicate RowsWithin(inserted: seq<Row>, files: seq<seq<Event>>) {
    forall i :: 0 <= i < |files| && RowAt(files[i]).Some? ==> RowAt(files[i]).value < |inserted|
  }

  /** Each row that the files came to is the text that was read, and they came in the order of the files. */
  ghost predicate RowsInOrder(inserted: seq<Row>, files: seq<seq<Event>>) {
    RowsAreRead(inserted, files) && RowsFollow(files) && RowsWithin(inserted, files)
  }

  /** The next file makes its row behind all that are there. */
  lemma RowsMore(before: seq<Row>, after: seq<Row>, files: seq<seq<Event>>, evs: seq<Event>)
    requires RowsInOrder(before, files) && before <= after
    requires RowIsRead(after, evs) && (RowAt(evs).Some? ==> |before| <= RowAt(evs).value)
    ensures RowsInOrder(after, files + [evs])
  {
    forall i | 0 <= i < |files| ensures RowIsRead(after, files[i]) {
      assert RowIsRead(before, files[i]);
    }
  }

  /** What was read of a file belongs under its name. */
  ghost predicate ReadAsNamed(evs: seq<Event>) {
    evs != [] && evs[0].DidRead? && (evs[0].m.Some? ==>
      IsListed(evs[0].name) && NamedAfter(evs[0].name, evs[0].m.value.receivedNs, evs[0].m.value.text.uid))
  }

  /** The files were gone through in the order of their names, up to the first that the table refused. */
  ghost predicate AllDrained(files: seq<seq<Event>>, names: seq<string>, ok: bool) {
    && |files| <= |names|
    && (forall i :: 0 <= i < |files| ==> Drains(files[i], names[i]) && ReadAsNamed(files[i]))
    && (forall i :: 0 <= i < |files| ==> (Refused(files[i]) <==> !ok && i == |files| - 1))
    && (!ok ==> files != [])
  }

  /** What was moved is known to be in the table, so that its file may go. */
  predicate AllMoved(files: seq<seq<Event>>, names: seq<string>, drained: set<string>)
    requires |files| <= |names|
  {
    forall i :: 0 <= i < |files| && Moved(files[i]) ==> names[i] in drained
  }

  /** The next file of the listing. */
  lemma DrainedMore(files: seq<seq<Event>>, names: seq<string>, evs: seq<Event>, before: set<string>,
                    after: set<string>)
    requires AllDrained(files, names, true) && |files| < |names| && Drains(evs, names[|files|]) && ReadAsNamed(evs)
    requires AllMoved(files, names, before) && before <= after && (Moved(evs) ==> names[|files|] in after)
    ensures AllDrained(files + [evs], names, !Refused(evs)) && AllMoved(files + [evs], names, after)
  {
    hide Drains, ReadAsNamed;
  }

  /** What a drain reads was received in the order in which it is read, and so the rows that it makes are in delivery
      order. */
  lemma DrainedByTime(inserted: seq<Row>, files: seq<seq<Event>>, names: seq<string>, ok: bool, i: nat, j: nat)
    requires SortedNames(names) && AllDrained(files, names, ok) && RowsInOrder(inserted, files)
    requires i < j < |files| && files[i][0].m.Some? && files[j][0].m.Some?
    ensures files[i][0].m.value.receivedNs <= files[j][0].m.value.receivedNs
    ensures RowAt(files[i]).Some? && RowAt(files[j]).Some? ==>
      var a, b := RowAt(files[i]).value, RowAt(files[j]).value;
      a < b < |inserted| && inserted[a].receivedMs <= inserted[b].receivedMs
  {
    hide Less, NamedAfter, IsListed;
    assert RowIsRead(inserted, files[i]) && RowIsRead(inserted, files[j]);
    var m, n := files[i][0].m.value, files[j][0].m.value;
    ListedByTime(names[i], m.receivedNs, m.text.uid, names[j], n.receivedNs, n.text.uid);
  }

  /** Every row that the drain has made from base on is one that the files came to. */
  ghost predicate Covered(makers: seq<Tid>, base: nat, files: seq<seq<Event>>) {
    forall i :: base <= i < |makers| && makers[i] == DRAINER ==> IsRowOf(files, i)
  }

  predicate IsRowOf(files: seq<seq<Event>>, i: nat) {
    exists k :: 0 <= k < |files| && RowAt(files[k]) == Some(i)
  }

  lemma CoveredMore(before: seq<Tid>, after: seq<Tid>, base: nat, files: seq<seq<Event>>, evs: seq<Event>)
    requires Covered(before, base, files) && before <= after
    requires forall i :: |before| <= i < |after| && after[i] == DRAINER ==> RowAt(evs) == Some(i)
    ensures Covered(after, base, files + [evs])
  {
    forall i | base <= i < |after| && after[i] == DRAINER ensures IsRowOf(files + [evs], i) {
      if i < |before| {
        var k :| 0 <= k < |files| && RowAt(files[k]) == Some(i);
        assert (files + [evs])[k] == files[k];
      } else {
        assert (files + [evs])[|files|] == evs;
      }
    }
  }

  /** The rows that the thread has made from base on have their receive times in order. */
  ghost predicate MadeByTime(inserted: seq<Row>, makers: seq<Tid>, base: nat, t: Tid) {
    forall i, j :: base <= i < j < |makers| && j < |inserted| && makers[i] == t && makers[j] == t ==>
      inserted[i].receivedMs <= inserted[j].receivedMs
  }

  /** All rows that a drain makes come in delivery order, whatever is inserted in between. */
  lemma DrainedInOrder(inserted: seq<Row>, makers: seq<Tid>, base: nat, files: seq<seq<Event>>, names: seq<string>,
                       ok: bool)
    requires SortedNames(names) && AllDrained(files, names, ok) && RowsInOrder(inserted, files)
    requires Covered(makers, base, files)
    ensures MadeByTime(inserted, makers, base, DRAINER)
  {
    hide SortedNames, Drains, ReadAsNamed, RowAt;
    forall i, j | base <= i < j < |makers| && j < |inserted| && makers[i] == DRAINER && makers[j] == DRAINER
      ensures inserted[i].receivedMs <= inserted[j].receivedMs
    {
      assert IsRowOf(files, i) && IsRowOf(files, j);
      var k :| 0 <= k < |files| && RowAt(files[k]) == Some(i);
      var l :| 0 <= l < |files| && RowAt(files[l]) == Some(j);
      assert RowIsRead(inserted, files[k]) && RowIsRead(inserted, files[l]);
      DrainedByTime(inserted, files, names, ok, k, l);
    }
  }

  /** What Heads gives for a pass. */
  ghost predicate IsBatch(t: set<Row>, heads: seq<Row>) {
    Ordered(t) && heads == Heads(t, BATCH_SIZE)
  }

  /** The thread's pass over the heads leads from s to u: its fields are those of the pass, and a goroutine delivers
      each of the rows that it started. */
  ghost predicate PassedOver(s: Sys, u: Sys, t: Tid, heads: seq<Row>, now: int, stop: nat, tids: seq<Tid>) {
    && t in s.snapshots && s.snapshots[t] == heads
    && var p := PassEnd(Start(s.portals, s.sem), heads, stop, now);
    && |tids| == |p.spawned| && Fresh(s.flights, tids)
    && u == s.(portals := p.portals, sem := p.sem, snapshots := s.snapshots - {t},
               flights := AddFlights(s.flights, tids, p.spawned))
  }

  // ---- Backoff

  function Pow2(n: nat): (p: nat)
    ensures p > 0
  {
    if n == 0 then 1 else 2 * Pow2(n - 1)
  }

  function Least2(a: int, b: int): int {
    if a <= b then a else b
  }

  lemma {:induction false} Pow2Grows(a: nat, b: nat)
    requires a <= b
    ensures Pow2(a) <= Pow2(b)
  {
    if a < b {
      Pow2Grows(a, b - 1);
    }
  }

  /** How long a portal waits after so many failures: the minimum, doubled for every failure after the first,
      but never more than the maximum. */
  function BackoffTime(min: nat, max: nat, failures: nat): int {
    Least2(min * Pow2(if failures == 0 then 0 else failures - 1), max)
  }

  /** Waits grow with the failures and stay between the bounds. */
  lemma BackoffBounds(min: nat, max: nat, a: nat, b: nat)
    requires a <= b && min <= max
    ensures min <= BackoffTime(min, max, a) <= BackoffTime(min, max, b) <= max
  {
    Pow2Grows(0, if a == 0 then 0 else a - 1);
    Pow2Grows(if a == 0 then 0 else a - 1, if b == 0 then 0 else b - 1);
    var p, q := Pow2(if a == 0 then 0 else a - 1), Pow2(if b == 0 then 0 else b - 1);
    assert min * 1 <= min * p <= min * q;
  }

  /** The first wait is the minimum, and each further failure doubles it up to the maximum. */
  lemma BackoffDoubles(min: nat, max: nat, failures: nat)
    requires failures > 0 && min <= max
    ensures BackoffTime(min, max, 1) == min
    ensures BackoffTime(min, max, failures + 1) == Least2(2 * BackoffTime(min, max, failures), max)
  {
    var p := Pow2(failures - 1);
    assert Pow2(failures) == 2 * p && Pow2(0) == 1;
    assert min * (2 * p) == 2 * (min * p) && min * p >= 0;
  }

  lemma BackoffReached(min: nat, max: nat, i: nat, failures: nat)
    requires i <= failures && max <= min * Pow2(i)
    ensures max <= min * Pow2(failures)
  {
    Pow2Grows(i, failures);
    assert min * Pow2(i) <= min * Pow2(failures);
  }

  lemma CreateFails()
    ensures Writes([DidFile(Creates, false)], false)
  {
  }

  lemma WriteGivenUp(more: seq<Event>, removed: bool)
    requires Tries([Fills, Syncs, Closes, Renames], more, false)
    ensures Writes([DidFile(Creates, true)] + more + [DidFile(GivesUp, removed)], false)
  {
    var evs := [DidFile(Creates, true)] + more + [DidFile(GivesUp, removed)];
    assert evs[..|evs| - 1] == [DidFile(Creates, true)] + more;
  }

  lemma WriteSynced(more: seq<Event>, ok: bool)
    requires Tries([Fills, Syncs, Closes, Renames], more, true)
    ensures Writes([DidFile(Creates, true)] + more + [DidFile(SyncsDir, ok)], ok)
  {
  }

  datatype TempFile = TempFile(m: Message, file: Option<File>)

  class Bridge {
    /** False when no spool directory is configured. */
    const spooling: bool
    const backoffMin: nat
    const backoffMax: nat

    // The database and its id sequence, and the spool directory with the counter of Spool.
    var table: set<Row>
    var usedIds: set<int>
    var disk: Disk
    var nextSeq: nat

    // The fields of Queue.
    var portals: map<Key, PortalState>
    var sem: nat

    // What has happened: see Sys.
    ghost var texts: map<string, Message>
    ghost var inserted: seq<Row>
    ghost var makers: seq<Tid>
    ghost var acked: set<string>
    ghost var drained: set<string>
    ghost var renamed: map<Tid, Named>
    ghost var matrix: seq<Sms>
    ghost var snapshots: map<Tid, seq<Row>>
    ghost var flights: map<Tid, Flight>
    ghost var did: map<Tid, seq<Event>>

    ghost function View(): Sys
      reads this
    {
      Sys(texts, table, usedIds, inserted, makers, disk, acked, drained, renamed, matrix, snapshots, portals, sem,
          flights, did)
    }

    /** What the thread has done so far. */
    ghost function Log(t: Tid): seq<Event>
      reads this`did
    {
      if t in did then did[t] else []
    }

    /** The temporary file of the thread's Write, with the message it is for. */
    ghost function TempOf(t: Tid): Option<TempFile>
      reads this`disk
    {
      if t !in disk.temps then None
      else
        var p := disk.temps[t];
        Some(TempFile(p.m, if p.inode in disk.files then Some(disk.files[p.inode]) else None))
    }

    /** The file the thread has renamed, until it has tried to sync the directory. */
    ghost function RenamedOf(t: Tid): Option<Named>
      reads this`renamed
    {
      if t in renamed then Some(renamed[t]) else None
    }

    /** The bridge is in a state that the threads' steps lead to from the state from: every invariant of runs
        holds, and nothing promised or delivered has been undone. */
    ghost predicate On(from: Sys)
      reads this
    {
      Since(from, View())
    }

    static ghost predicate Since(from: Sys, s: Sys) {
      Inv(s) && Reaches(from, s) && Grown(from, s)
    }

    lemma OnSince(from: Sys)
      requires On(from)
      ensures Since(from, View()) && Inv(View())
    {
    }

    /** What the thread t knows after a step of its own, one that all others leave to it. */
    lemma Took(from: Sys, s: Sys, a: Step, t: Tid)
      requires Since(from, s)
      requires Enabled(s, a) && OwnStep(a, t) && View() == Next(s, a) && !a.ARestart?
      ensures On(from) && Grown(s, View())
    {
      hide Inv, Reaches, Enabled, Next, Grown;
      Steps(s, a);
      ReachesMore(from, s, View());
      GrownMore(from, s, View());
    }

    /** The same for a step that the thread takes note of. */
    ghost method TookNote(from: Sys, s: Sys, a: Step, t: Tid)
      requires Since(from, s)
      requires Enabled(s, a) && OwnStep(a, t) && Logs(a) && By(a) == t && View() == Effect(s, a)
      modifies this`did
      ensures On(from) && Log(t) == old(Log(t)) + [Logged(s, a)]
    {
      hide Inv, Reaches, Grown, Enabled, OwnStep, Effect, Logged, By;
      EffectQuiet(s, a);
      did := did[t := Log(t) + [Logged(s, a)]];
      Took(from, s, a, t);
    }

    /** Rows that are there and not of the thread's own making since it was at before. */
    ghost predicate NoneMade(t: Tid, before: nat)
      reads this`makers
    {
      forall i :: before <= i < |makers| ==> makers[i] != t
    }

    lemma RowMakers(from: Sys)
      requires On(from)
      ensures |makers| == |inserted|
    {
    }

    /** Any steps of the other threads. Nothing more than this contract is known of them. */
    method Others(ghost from: Sys, ghost t: Tid)
      requires On(from)
      modifies this
      ensures On(from) && Mine(old(View()), View(), t) && Grown(old(View()), View())
      ensures Interleaved(old(View()), View(), t) && Log(t) == old(Log(t))
      ensures TempOf(t) == old(TempOf(t)) && RenamedOf(t) == old(RenamedOf(t)) && old(inserted) <= inserted
      ensures old(acked) <= acked && old(drained) <= drained && old(makers) <= makers && NoneMade(t, |old(makers)|)
    {
      hide Inv, Mine, Grown;
      assert Path(View(), [], View());
      assert forall a :: a in [] ==> !StepBy(a, t);
      Rely(View(), View(), t);
    }

    /** Notes what leaves everything as it is. */
    ghost method Note(from: Sys, t: Tid, e: Event)
      requires On(from) && Harmless(View(), t, e)
      modifies this`did
      ensures On(from) && Log(t) == old(Log(t)) + [e]
    {
      hide Inv, Reaches, Grown, Harmless;
      TookNote(from, View(), ANote(t, e), t);
    }

    // ---- database/inbound.go

    /** The statement of the thread t; at is where its row is among all that were inserted, if it made one. */
    method Insert(ghost t: Tid, m: Message)
      returns (isNew: bool, ok: bool, ghost id: int, ghost fault: Fault, ghost at: Option<nat>)
      modifies this`table, this`usedIds, this`inserted, this`makers
      ensures id !in old(usedIds) && View() == InsertText(old(View()), t, m, id, fault)
      ensures at == RowOf(old(View()), m, fault)
      ensures if at.Some? then inserted == old(inserted) + [Row(id, m.text, UnixMilli(m.receivedNs))]
                               && makers == old(makers) + [t]
              else inserted == old(inserted) && makers == old(makers)
      ensures ok <==> fault == NoFault
      ensures isNew <==> ok && !HasUID(old(table), m.text.uid)
    {
      FreshId(usedIds);
      var rowId: int :| rowId !in usedIds;
      var f: Fault := *;
      id, fault, at := rowId, f, RowOf(View(), m, f);
      usedIds := usedIds + {rowId};
      isNew, ok := false, f == NoFault;
      if f != FailsUndone && !HasUID(table, m.text.uid) {
        table := Inserted(table, m, rowId);
        inserted, makers := inserted + [Row(rowId, m.text, UnixMilli(m.receivedNs))], makers + [t];
        isNew := ok;
      }
    }

    // ---- Spool.Write

    /** The thread t is writing m to a temporary file. */
    ghost predicate Writing(t: Tid, m: Message)
      reads this`disk
    {
      TempOf(t).Some? && TempOf(t).value.m == m
    }

    /** The temporary file holds these bytes, and they are fsynced or may not be. */
    ghost predicate TempHolds(t: Tid, c: Content, synced: bool)
      reads this`disk
    {
      && TempOf(t).Some? && TempOf(t).value.file.Some?
      && var f := TempOf(t).value.file.value; f.content == c && (synced ==> f.synced)
    }

    /** os.CreateTemp. */
    method CreateTempFile(ghost from: Sys, t: Tid, m: Message) returns (ok: bool)
      requires On(from) && Known(View(), m) && NoWrite(t)
      modifies this`disk, this`did
      ensures On(from) && Log(t) == old(Log(t)) + [DidFile(Creates, ok)]
      ensures if ok then Writing(t, m) else NoWrite(t)
    {
      hide Inv, Reaches, Known, Grown;
      ok := *;
      if ok {
        ghost var s := View();
        FreshName(disk.dir.Keys);
        var name :| name !in disk.dir.Keys && IsTemp(name);
        FreshId(disk.files.Keys);
        var inode: nat :| inode !in disk.files.Keys;
        disk := Create(disk, t, name, inode, m);
        TookNote(from, s, ASpool(CreateTemp(t, name, inode, m)), t);
      } else {
        Note(from, t, DidFile(Creates, false));
      }
    }

    method WriteTempFile(ghost from: Sys, t: Tid, m: Message) returns (ok: bool)
      requires On(from) && Writing(t, m)
      modifies this`disk, this`did
      ensures On(from) && Log(t) == old(Log(t)) + [DidFile(Fills, ok)]
      ensures Writing(t, m) && TempHolds(t, if ok then Whole(m) else Torn, false)
    {
      hide Inv, Reaches, Grown;
      ghost var s := View();
      ok := *;
      var c := if ok then Whole(m) else Torn;
      disk := Fill(disk, t, c);
      TookNote(from, s, ASpool(FillTemp(t, c)), t);
    }

    method SyncTempFile(ghost from: Sys, t: Tid, ghost m: Message) returns (ok: bool)
      requires On(from) && Writing(t, m) && TempHolds(t, Whole(m), false)
      modifies this`disk, this`did
      ensures On(from) && Log(t) == old(Log(t)) + [DidFile(Syncs, ok)]
      ensures Writing(t, m) && TempHolds(t, Whole(m), ok)
    {
      hide Inv, Reaches, Grown;
      ok := *;
      if ok {
        ghost var s := View();
        disk := SyncTemp(disk, t);
        TookNote(from, s, ASpool(FsyncTemp(t)), t);
      } else {
        Note(from, t, DidFile(Syncs, false));
      }
    }

    /** What was fsynced stays fsynced, although the close may fail. */
    method CloseTempFile(ghost from: Sys, ghost t: Tid, ghost m: Message) returns (ok: bool)
      requires On(from) && Writing(t, m)
      modifies this`did
      ensures On(from) && Log(t) == old(Log(t)) + [DidFile(Closes, ok)]
    {
      hide On;
      ok := *;
      Note(from, t, DidFile(Closes, ok));
    }

    /** os.Rename to the final name. */
    method RenameTempFile(ghost from: Sys, t: Tid, ghost m: Message, name: string, ghost sq: nat) returns (ok: bool)
      requires On(from) && Writing(t, m) && TempHolds(t, Whole(m), true) && RenamedOf(t) == None
      requires name == FileName(m.receivedNs, sq, m.text.uid)
      modifies this`disk, this`renamed, this`did
      ensures On(from) && Log(t) == old(Log(t)) + [DidFile(Renames, ok)]
      ensures if ok then TempOf(t) == None && RenamedOf(t) == Some(Named(name, m.text.uid))
              else Writing(t, m) && RenamedOf(t) == None
    {
      hide Inv, Reaches, FileName, Grown;
      ok := *;
      if ok {
        ghost var s := View();
        disk := Publish(disk, t, name);
        renamed := renamed[t := Named(name, m.text.uid)];
        TookNote(from, s, ASpoolRename(t, name), t);
      } else {
        Note(from, t, DidFile(Renames, false));
      }
    }

    /** os.Remove of a temporary file that came to nothing; it may fail. */
    method GiveUpTempFile(ghost from: Sys, t: Tid, ghost m: Message) returns (ghost ok: bool)
      requires On(from) && Writing(t, m)
      modifies this`disk, this`did
      ensures On(from) && TempOf(t) == None && Log(t) == old(Log(t)) + [DidFile(GivesUp, ok)]
    {
      hide Inv, Reaches, Grown;
      ghost var s := View();
      var removed: bool := *;
      disk := Drop(disk, t, removed);
      ok := removed;
      TookNote(from, s, ASpool(DropTemp(t, removed)), t);
    }

    method RunFsync(t: Tid, ok: bool)
      requires t in renamed
      modifies this`disk, this`renamed, this`acked
      ensures View() == SpoolFsync(old(View()), t, ok)
      ensures renamed == old(renamed) - {t} && TempOf(t) == old(TempOf(t))
      ensures ok ==> old(renamed)[t].uid in acked
    {
      if ok {
        disk := SyncDir(disk);
        acked := acked + {renamed[t].uid};
      }
      renamed := renamed - {t};
    }

    lemma FiledNow(from: Sys, t: Tid, name: string, m: Message)
      requires On(from) && RenamedOf(t) == Some(Named(name, m.text.uid)) && Known(View(), m)
      ensures t in renamed && Stored(SpoolFsync(View(), t, true), name, m)
    {
      FsyncStores(View(), t);
    }

    method NotedFsync(ghost from: Sys, t: Tid) returns (ok: bool)
      requires On(from) && t in renamed
      modifies this`disk, this`renamed, this`acked, this`did
      ensures On(from) && Log(t) == old(Log(t)) + [DidFile(SyncsDir, ok)]
      ensures View() == SpoolFsync(old(View()), t, ok).(did := did)
      ensures renamed == old(renamed) - {t} && TempOf(t) == old(TempOf(t)) && (ok ==> old(renamed)[t].uid in acked)
    {
      hide Inv, Reaches, Grown, SpoolFsync;
      ghost var s := View();
      ok := *;
      RunFsync(t, ok);
      TookNote(from, s, ASpoolFsync(t, ok), t);
    }

    /** fsync of the directory. */
    method SyncSpoolDir(ghost from: Sys, t: Tid, ghost name: string, ghost m: Message) returns (ok: bool)
      requires On(from) && RenamedOf(t) == Some(Named(name, m.text.uid)) && Known(View(), m)
      modifies this`disk, this`renamed, this`acked, this`did
      ensures On(from) && Log(t) == old(Log(t)) + [DidFile(SyncsDir, ok)]
      ensures RenamedOf(t) == None && TempOf(t) == old(TempOf(t))
      ensures ok ==> m.text.uid in acked && Stored(View(), name, m)
    {
      ghost var s := View();
      FiledNow(from, t, name, m);
      assert t in s.renamed;
      hide On, View, Stored, SpoolFsync, TempOf, Log, Known;
      ok := NotedFsync(from, t);
      StillStored(SpoolFsync(s, t, ok), View(), name, m);
    }

    static lemma StillStored(s: Sys, u: Sys, name: string, m: Message)
      requires u == s.(did := u.did)
      ensures Stored(s, name, m) ==> Stored(u, name, m)
    {
      SameLanded(s, u);
      hide Landed;
    }

    /** The thread t has no Write under way. */
    ghost predicate NoWrite(t: Tid)
      reads this`disk, this`renamed
    {
      TempOf(t) == None && RenamedOf(t) == None
    }

    method NextSeq(ghost from: Sys) returns (sq: nat)
      requires On(from)
      modifies this`nextSeq
      ensures On(from) && nextSeq == old(nextSeq) + 1 && sq == nextSeq && View() == old(View())
    {
      hide Inv, Reaches, Grown;
      nextSeq := nextSeq + 1;
      sq := nextSeq;
    }

    /** Temp file, fsync, rename, fsync of the directory, up to the first error. When it succeeds, m survives any crash:
        its file is durable under the final name, unless the drain got there first. */
    method Write(ghost from: Sys, t: Tid, m: Message) returns (ok: bool, ghost evs: seq<Event>, ghost name: string)
      requires On(from) && Known(from, m) && NoWrite(t)
      modifies this
      ensures On(from) && NoWrite(t) && Log(t) == old(Log(t)) + evs && Writes(evs, ok)
      ensures name == FileName(m.receivedNs, old(nextSeq) + 1, m.text.uid)
      ensures ok ==> m.text.uid in acked && Kept(View(), m.text.uid) && Stored(View(), name, m)
    {
      hide On, Known, FileName, Writes, Log, View, TempOf, RenamedOf, Grown, Mine, Stored;
      KnownNow(from, m);
      var sq := NextSeq(from);
      name := FileName(m.receivedNs, sq, m.text.uid);
      ok := CreateTempFile(from, t, m);
      evs := [DidFile(Creates, ok)];
      if !ok {
        CreateFails();
        return;
      }
      Others(from, t);
      ghost var more;
      ok, more := FillAndRename(from, t, m, FileName(m.receivedNs, sq, m.text.uid), sq);
      evs := [DidFile(Creates, true)] + more;
      assert Log(t) == old(Log(t)) + evs;
      Others(from, t);
      if !ok {
        ghost var removed := GiveUpTempFile(from, t, m);
        WriteGivenUp(more, removed);
        evs := evs + [DidFile(GivesUp, removed)];
        return;
      }
      KnownNow(from, m);
      ok := SyncSpoolDir(from, t, name, m);
      WriteSynced(more, ok);
      evs := evs + [DidFile(SyncsDir, ok)];
      if ok {
        AckedKept(from, m.text.uid);
      }
    }

    /** The message goes to the temporary file, which gets its final name once the bytes are safe. */
    method FillAndRename(ghost from: Sys, t: Tid, m: Message, name: string, ghost sq: nat)
      returns (ok: bool, ghost evs: seq<Event>)
      requires On(from) && Writing(t, m) && RenamedOf(t) == None && name == FileName(m.receivedNs, sq, m.text.uid)
      modifies this
      ensures On(from) && Log(t) == old(Log(t)) + evs && Tries([Fills, Syncs, Closes, Renames], evs, ok)
      ensures if ok then TempOf(t) == None && RenamedOf(t) == Some(Named(name, m.text.uid))
              else Writing(t, m) && RenamedOf(t) == None
    {
      hide On, FileName, Log, View, TempOf, RenamedOf, Grown, Mine;
      ok := WriteTempFile(from, t, m);
      evs := [DidFile(Fills, ok)];
      if !ok {
        return;
      }
      assert Log(t) == old(Log(t)) + evs;
      Others(from, t);
      ok := SyncTempFile(from, t, m);
      evs := [DidFile(Fills, true), DidFile(Syncs, ok)];
      if !ok {
        return;
      }
      assert Log(t) == old(Log(t)) + evs;
      Others(from, t);
      ok := CloseTempFile(from, t, m);
      evs := [DidFile(Fills, true), DidFile(Syncs, true), DidFile(Closes, ok)];
      if !ok {
        return;
      }
      assert Log(t) == old(Log(t)) + evs;
      Others(from, t);
      ok := RenameTempFile(from, t, m, name, sq);
      evs := [DidFile(Fills, true), DidFile(Syncs, true), DidFile(Closes, true), DidFile(Renames, ok)];
    }

    /** What Persist promised is kept, now and in every state after. */
    lemma AckedKept(from: Sys, uid: string)
      requires On(from) && uid in acked
      ensures Kept(View(), uid)
    {
      hide Kept, TableInv, SpoolInv, ReachInv, FlightInv, OrderInv;
      assert Safe(View(), uid);
      SafeIsKept(View(), uid);
    }

    // ---- Queue.Persist

    lemma KnownNow(from: Sys, m: Message)
      requires On(from) && Known(from, m)
      ensures Known(View(), m)
    {
    }

    /** The insert of Persist, which answers for the text if it succeeds. */
    method PersistRow(ghost from: Sys, ghost t: Tid, m: Message) returns (ok: bool, ghost at: Option<nat>)
      requires On(from) && Known(View(), m)
      modifies this`table, this`usedIds, this`inserted, this`makers, this`acked, this`did
      ensures On(from) && (ok ==> m.text.uid in acked) && Log(t) == old(Log(t)) + [DidInsert(m.text.uid, at, ok)]
      ensures at.Some? ==>
        at.value == |old(inserted)| && |inserted| == at.value + 1 && inserted[at.value].text == m.text
    {
      hide Inv, Reaches, Grown, InsertText;
      ghost var s := View();
      var isNew; ghost var id, fault;
      isNew, ok, id, fault, at := Insert(t, m);
      if ok {
        acked := acked + {m.text.uid};
      }
      TookNote(from, s, APersistInsert(t, m.text.uid, id, fault), t);
    }

    /** Makes m survive a crash, in the table or, if that fails, in the spool, and succeeds once it does. The spool is
        tried exactly if the table failed and there is one. */
    method Persist(ghost from: Sys, t: Tid, m: Message)
      returns (spooled: bool, ok: bool, ghost row: Event, ghost evs: seq<Event>, ghost name: string)
      requires On(from) && Known(from, m) && NoWrite(t)
      modifies this
      ensures On(from) && NoWrite(t) && Log(t) == old(Log(t)) + [row] + evs
      ensures ok ==> m.text.uid in acked && Kept(View(), m.text.uid)
      ensures row.DidInsert? && row.uid == m.text.uid
      ensures if row.ok || !spooling then evs == [] && ok == row.ok && !spooled else Writes(evs, ok) && spooled == ok
      ensures spooled ==> NamedAfter(name, m.receivedNs, m.text.uid) && Stored(View(), name, m)
    {
      hide On, Known, Log, View, TempOf, RenamedOf, Grown, Mine, Writes, Kept, Stored, FileName;
      KnownNow(from, m);
      spooled, evs, name := false, [], "";
      ghost var at;
      ok, at := PersistRow(from, t, m);
      row := DidInsert(m.text.uid, at, ok);
      if ok {
        AckedKept(from, m.text.uid);
        return;
      }
      if !spooling {
        return;
      }
      Others(from, t);
      ok, evs, name := Write(from, t, m);
      spooled := ok;
    }

    // ---- Spool.List, Read, Remove and Quarantine

    method List(ghost from: Sys, ghost t: Tid) returns (names: seq<string>, ok: bool)
      requires On(from)
      modifies this`did
      ensures On(from) && Log(t) == old(Log(t)) + [DidList(names, ok)]
      ensures if ok then IsListing(disk, names) else names == []
    {
      hide On, Log, Less, IsListed;
      ok, names := *, [];
      if ok {
        names := ListSorted(disk);
      }
      Note(from, t, DidList(names, ok));
    }

    /** ReadDir, the filter and the sort. */
    static method ListSorted(disk: Disk) returns (names: seq<string>)
      ensures IsListing(disk, names)
    {
      names := [];
      var rest := disk.dir.Keys;
      while rest != {}
        invariant rest <= disk.dir.Keys && SortedNames(names)
        invariant forall n :: n in names <==> n in disk.dir && n !in rest && IsListed(n)
      {
        var e :| e in rest;
        rest := rest - {e};
        if IsListed(e) {
          InsertedName(names, e);
          names := InsertSorted(names, e);
        }
      }
    }

    method Read(ghost from: Sys, ghost t: Tid, name: string) returns (m: Option<Message>, ghost failed: bool)
      requires On(from)
      modifies this`did
      ensures On(from) && Log(t) == old(Log(t)) + [DidRead(name, failed, m)]
      ensures m == if failed then None else Parsed(disk, name)
    {
      hide On, Log;
      var broken: bool := *;
      failed, m := broken, None;
      if !broken && Readable(disk, name) {
        var r := FileText(disk, name);
        if r.text.uid != "" {
          m := Some(r);
        }
      }
      Note(from, t, DidRead(name, failed, m));
    }

    method SetFileAside(ghost from: Sys, name: string) returns (ghost ok: bool)
      requires On(from) && IsListed(name)
      modifies this`disk, this`did
      ensures On(from) && Log(DRAINER) == old(Log(DRAINER)) + [DidSetAside(name, ok)] && (ok ==> name !in disk.dir)
    {
      hide Inv, Reaches, Grown;
      var failed: bool := *;
      ok := !failed && name in disk.dir;
      if !failed && name in disk.dir {
        ghost var s := View();
        disk := Quarantine(disk, name);
        assert name != name + BAD_SUFFIX;
        TookNote(from, s, ASpool(SetAside(name)), DRAINER);
      } else {
        Note(from, DRAINER, DidSetAside(name, false));
      }
    }

    method RemoveDrainedFile(ghost from: Sys, name: string) returns (ghost ok: bool)
      requires On(from) && IsListed(name) && name in drained
      modifies this`disk, this`did
      ensures On(from) && Log(DRAINER) == old(Log(DRAINER)) + [DidRemove(name, ok)] && (ok ==> name !in disk.dir)
    {
      hide Inv, Reaches, Grown;
      var failed: bool := *;
      ok := !failed && name in disk.dir;
      if !failed && name in disk.dir {
        ghost var s := View();
        disk := Remove(disk, name);
        TookNote(from, s, ADrainRemove(name), DRAINER);
      } else {
        Note(from, DRAINER, DidRemove(name, false));
      }
    }

    // ---- Queue.Drain

    method RunDrainInsert(name: string, m: Message)
      returns (ok: bool, ghost id: int, ghost fault: Fault, ghost at: Option<nat>)
      requires Readable(disk, name) && FileText(disk, name) == m
      modifies this`table, this`usedIds, this`inserted, this`makers, this`drained
      ensures id !in old(usedIds) && View() == DrainInsert(old(View()), name, id, fault)
      ensures at == RowOf(old(View()), m, fault) && (ok <==> fault == NoFault)
      ensures old(drained) <= drained && (ok ==> name in drained)
      ensures if at.Some? then inserted == old(inserted) + [Row(id, m.text, UnixMilli(m.receivedNs))]
                               && makers == old(makers) + [DRAINER]
              else inserted == old(inserted) && makers == old(makers)
    {
      hide InsertText, Readable, RowOf;
      var isNew;
      isNew, ok, id, fault, at := Insert(DRAINER, m);
      if ok {
        drained := drained + {name};
      }
    }

    /** The insert of a text read from the spool. */
    method MoveRow(ghost from: Sys, name: string, m: Message) returns (ok: bool, ghost at: Option<nat>)
      requires On(from) && Readable(disk, name) && FileText(disk, name) == m
      modifies this`table, this`usedIds, this`inserted, this`makers, this`drained, this`did
      ensures On(from) && Log(DRAINER) == old(Log(DRAINER)) + [DidInsert(m.text.uid, at, ok)]
      ensures old(drained) <= drained && (ok ==> name in drained)
      ensures if at.Some? then at.value == |old(inserted)| else inserted == old(inserted)
      ensures makers == old(makers) + if at.Some? then [DRAINER] else []
      ensures at.Some? ==> |inserted| == at.value + 1 && inserted[..at.value] == old(inserted)
                           && inserted[at.value].text == m.text
                           && inserted[at.value].receivedMs == UnixMilli(m.receivedNs)
    {
      hide Inv, Reaches, Grown, InsertText, FileText, Readable;
      ghost var s := View();
      ghost var id, fault;
      ok, id, fault, at := RunDrainInsert(name, m);
      TookNote(from, s, ADrainInsert(name, id, fault), DRAINER);
    }

    /** What was read is still what the file holds: nobody else moves spool files. */
    static lemma StillReadable(s: Sys, u: Sys, name: string)
      requires Inv(s) && Inv(u) && Mine(s, u, DRAINER) && Grown(s, u) && Readable(s.disk, name)
      ensures Readable(u.disk, name) && FileText(u.disk, name) == FileText(s.disk, name)
    {
      hide FlightInv, OrderInv, TableInv, ReachInv, SafeInv, DiskInv;
      SameText(s, u, name);
    }

    static lemma SameText(s: Sys, u: Sys, name: string)
      requires SpoolInv(s) && SpoolInv(u) && Readable(s.disk, name) && name in u.disk.dir
      requires forall uid :: uid in s.texts ==> uid in u.texts && u.texts[uid] == s.texts[uid]
      ensures Readable(u.disk, name) && FileText(u.disk, name) == FileText(s.disk, name)
    {
      hide DiskInv, NamedFor;
      FileKnown(s, name);
      FileKnown(u, name);
      NamedForOne(name, FileText(s.disk, name).text.uid, FileText(u.disk, name).text.uid);
    }

    lemma ReadIsNamed(from: Sys, name: string)
      requires On(from) && IsListed(name) && Readable(disk, name)
      ensures var m := FileText(disk, name); NamedAfter(name, m.receivedNs, m.text.uid)
    {
      hide FlightInv, OrderInv, TableInv, ReachInv, SafeInv, DiskInv;
      ListedName(disk, name);
    }

    /** Any steps of the others while the drain holds what it has read. */
    method HoldFile(ghost from: Sys, name: string)
      requires On(from) && Readable(disk, name)
      modifies this
      ensures On(from) && Readable(disk, name) && FileText(disk, name) == old(FileText(disk, name))
      ensures Log(DRAINER) == old(Log(DRAINER)) && old(inserted) <= inserted && old(drained) <= drained
      ensures old(makers) <= makers && NoneMade(DRAINER, |old(makers)|)
    {
      OnSince(from);
      hide On, Inv, Log, Grown, Mine, Readable, FileText;
      ghost var s := View();
      Others(from, DRAINER);
      OnSince(from);
      StillReadable(s, View(), name);
    }

    /** The drain has made no row from before on, but perhaps the one at at. */
    ghost predicate OneMade(before: nat, at: Option<nat>)
      reads this`makers
    {
      forall i :: before <= i < |makers| && makers[i] == DRAINER ==> at == Some(i)
    }

    /** What was read of one spool file: it is moved to the table and the file removed, or the table refuses. */
    method DrainText(ghost from: Sys, name: string, m: Message)
      returns (ok: bool, ghost at: Option<nat>, ghost removed: Option<bool>)
      requires On(from) && IsListed(name) && Readable(disk, name) && FileText(disk, name) == m
      modifies this
      ensures On(from) && (ok <==> removed.Some?) && old(drained) <= drained && old(inserted) <= inserted
      ensures old(makers) <= makers && OneMade(|old(makers)|, at)
      ensures Log(DRAINER) == old(Log(DRAINER)) + [DidInsert(m.text.uid, at, ok)]
                              + if ok then [DidRemove(name, removed.value)] else []
      ensures ok ==> name in drained
      ensures at.Some? ==>
        && |old(inserted)| <= at.value < |inserted|
        && inserted[at.value].text == m.text && inserted[at.value].receivedMs == UnixMilli(m.receivedNs)
    {
      hide On, View, Log, TempOf, RenamedOf, IsListed, Grown, Mine, Readable, FileText;
      HoldFile(from, name);
      RowMakers(from);
      ok, at := MoveRow(from, name, m);
      removed := None;
      if ok {
        Others(from, DRAINER);
        ghost var gone := RemoveDrainedFile(from, name);
        removed := Some(gone);
      }
    }

    /** One spool file: its text is moved to the table, or the file is set aside, or the table refuses. No row is made
        but that of the file. */
    method DrainFile(ghost from: Sys, name: string) returns (ok: bool, ghost evs: seq<Event>)
      requires On(from) && IsListed(name)
      modifies this
      ensures On(from) && Log(DRAINER) == old(Log(DRAINER)) + evs && Drains(evs, name) && ReadAsNamed(evs)
      ensures ok == !Refused(evs) && (Moved(evs) ==> name in drained)
      ensures old(drained) <= drained && old(inserted) <= inserted && RowIsRead(inserted, evs)
      ensures RowAt(evs).Some? ==> |old(inserted)| <= RowAt(evs).value
      ensures old(makers) <= makers && OneMade(|old(makers)|, RowAt(evs))
    {
      hide On, View, Log, TempOf, RenamedOf, IsListed, Grown, Mine, Readable, FileText, NamedAfter;
      Others(from, DRAINER);
      var r; ghost var failed;
      r, failed := Read(from, DRAINER, name);
      if r.None? {
        Others(from, DRAINER);
        ghost var aside := SetFileAside(from, name);
        evs := [DidRead(name, failed, None), DidSetAside(name, aside)];
        return true, evs;
      }
      ReadIsNamed(from, name);
      ghost var at, removed;
      ok, at, removed := DrainText(from, name, r.value);
      evs := [DidRead(name, false, r), DidInsert(r.value.text.uid, at, ok)]
             + if ok then [DidRemove(name, removed.value)] else [];
    }

    /** Moves the listed texts to the table, oldest first, and stops at the first that the table refuses. It succeeds if
        there was a listing and none was refused. All rows that it makes are those of the files, in receive order. */
    method Drain(ghost from: Sys) returns (ok: bool, names: seq<string>, listed: bool, ghost files: seq<seq<Event>>)
      requires On(from)
      modifies this
      ensures On(from)
      ensures Log(DRAINER) == old(Log(DRAINER)) + (if spooling then [DidList(names, listed)] else []) + Concat(files)
      ensures if spooling && listed then IsListing(old(disk), names) else names == [] && ok == !spooling
      ensures listed ==> AllDrained(files, names, ok) && (ok ==> |files| == |names|)
      ensures !listed ==> files == []
      ensures |files| <= |names| && AllMoved(files, names, drained) && RowsInOrder(inserted, files)
      ensures old(makers) <= makers && Covered(makers, |old(makers)|, files)
      ensures MadeByTime(inserted, makers, |old(makers)|, DRAINER)
    {
      assert Concat<Event>([]) == [];
      hide On, Log, View, Drains, ReadAsNamed, RowIsRead, Concat, IsListed, Less, RowAt, RowsFollow;
      ok, names, listed, files := true, [], true, [];
      if !spooling {
        return;
      }
      names, listed := List(from, DRAINER);
      ok := listed;
      if ok {
        ok, files := DrainListed(from, names);
        DrainedInOrder(inserted, makers, |old(makers)|, files, names, ok);
      }
    }

    /** The loop over the listing. */
    method DrainListed(ghost from: Sys, names: seq<string>) returns (ok: bool, ghost files: seq<seq<Event>>)
      requires On(from) && forall n :: n in names ==> IsListed(n)
      modifies this
      ensures On(from) && Log(DRAINER) == old(Log(DRAINER)) + Concat(files)
      ensures AllDrained(files, names, ok) && (ok ==> |files| == |names|)
      ensures AllMoved(files, names, drained) && RowsInOrder(inserted, files)
      ensures old(makers) <= makers && Covered(makers, |old(makers)|, files)
    {
      assert Concat<Event>([]) == [] && AllDrained([], names, true) && RowsInOrder(inserted, []);
      assert Covered(makers, |makers|, []) && AllMoved([], names, drained);
      hide On, Log, View, Drains, ReadAsNamed, RowIsRead, Concat, IsListed, AllDrained, RowsInOrder, RowAt, Refused,
           Moved, Covered, AllMoved, OneMade;
      ok, files := true, [];
      var i := 0;
      while i < |names|
        invariant i == |files| <= |names| && On(from) && Log(DRAINER) == old(Log(DRAINER)) + Concat(files)
        invariant ok && AllDrained(files, names, true) && AllMoved(files, names, drained)
        invariant RowsInOrder(inserted, files) && old(makers) <= makers && Covered(makers, |old(makers)|, files)
      {
        ghost var evs, rows, made, moved := [], inserted, makers, drained;
        ok, evs := DrainFile(from, names[i]);
        ConcatMore(old(Log(DRAINER)), files, evs);
        RowsMore(rows, inserted, files, evs);
        DrainedMore(files, names, evs, moved, drained);
        CoveredMore(made, makers, |old(makers)|, files, evs);
        files := files + [evs];
        if !ok {
          return;
        }
        i := i + 1;
      }
    }

    // ---- Queue.DeliverPass

    lemma TableOrdered()
      requires Inv(View())
      ensures Ordered(table)
    {
    }

    /** Store.Heads, of which the pass keeps what it gave. */
    method ReadBatch(ghost from: Sys, ghost t: Tid) returns (heads: seq<Row>, ok: bool)
      requires On(from) && t !in snapshots
      modifies this`snapshots, this`did
      ensures On(from) && Log(t) == old(Log(t)) + [DidReadHeads(heads, ok)]
      ensures if ok then t in snapshots && snapshots[t] == heads else snapshots == old(snapshots) && heads == []
      ensures ok ==> IsBatch(table, heads)
    {
      hide Inv, Reaches, Grown, Heads;
      TableOrdered();
      ok, heads := *, [];
      if ok {
        heads := Heads(table, BATCH_SIZE);
        ghost var s := View();
        snapshots := snapshots[t := heads];
        TookNote(from, s, AReadHeads(t, BATCH_SIZE), t);
      } else {
        Note(from, t, DidReadHeads([], false));
      }
    }

    /** Starts a delivery for the first waiting text of every portal that is idle and not backing off, as long
        as there is room. stop is the head at which the context is first found cancelled; at is the state in
        which the pass gets the mutex, and what it leaves is that of a pass over the heads that it has read. */
    method DeliverPass(ghost from: Sys, t: Tid, now: int, stop: nat)
      returns (wait: int, heads: seq<Row>, ok: bool, ghost at: Sys, ghost tids: seq<Tid>)
      requires On(from) && t !in snapshots
      modifies this
      ensures On(from) && t !in snapshots && Log(t) == old(Log(t)) + [DidReadHeads(heads, ok)]
      ensures !ok ==> wait == backoffMin && View() == old(View()).(did := did)
      ensures ok ==> IsBatch(old(table), heads)
      ensures ok ==> Reaches(from, at) && PassedOver(at, View(), t, heads, now, stop, tids)
      ensures ok ==> wait == PassWait(Start(at.portals, at.sem), heads, stop, now)
    {
      hide Inv, Reaches, Grown, PassWait, PassedOver, IsBatch;
      heads, ok := ReadBatch(from, t);
      at, tids := View(), [];
      if !ok {
        wait := backoffMin;
        return;
      }
      Others(from, t);
      at := View();
      wait, tids := PassOver(from, t, heads, now, stop);
    }

    /** The goroutines that a pass starts are there when it gives the mutex back. */
    method PassOver(ghost from: Sys, ghost t: Tid, heads: seq<Row>, now: int, stop: nat)
      returns (wait: int, ghost tids: seq<Tid>)
      requires On(from) && t in snapshots && snapshots[t] == heads
      modifies this`portals, this`sem, this`snapshots, this`flights
      ensures On(from) && t !in snapshots
      ensures PassedOver(old(View()), View(), t, heads, now, stop, tids)
      ensures wait == PassWait(Start(old(portals), old(sem)), heads, stop, now)
    {
      hide Inv, Reaches, Grown, PassEnd, PassWait, Fresh, AddFlights;
      ghost var s := View();
      ghost var spawned;
      wait, spawned := StartDeliveries(heads, now, stop);
      tids := FreshTids(flights, |spawned|);
      flights := AddFlights(flights, tids, spawned);
      snapshots := snapshots - {t};
      Took(from, s, ARunPass(t, now, stop, tids), t);
    }

    /** The part of the pass that holds the mutex. */
    method StartDeliveries(heads: seq<Row>, now: int, stop: nat) returns (wait: int, ghost spawned: seq<Row>)
      modifies this`portals, this`sem
      ensures var p := PassEnd(Start(old(portals), old(sem)), heads, stop, now);
              portals == p.portals && sem == p.sem && spawned == p.spawned
      ensures wait == PassWait(Start(old(portals), old(sem)), heads, stop, now)
    {
      ghost var p := Start(portals, sem);
      var seen: set<Key>, soonest: Option<int>, running := {}, None, true;
      spawned := [];
      var i := 0;
      while i < |heads| && running
        invariant i <= |heads| && i <= stop
        invariant Progress(portals, sem, seen, spawned, soonest, running) == VisitAll(p, heads, i, now)
      {
        if i == stop {
          return -1, spawned;
        }
        var row := heads[i];
        var key := KeyOf(row.text);
        seen := seen + {key};
        if key !in portals {
          portals := portals[key := IDLE];
        }
        var st := portals[key];
        if st.busy {
        } else if BacksOff(st, now) {
          soonest := Sooner(soonest, st.retryAt.value);
        } else if MAX_PARALLEL <= sem {
          running := false;
        } else {
          sem := sem + 1;
          portals := portals[key := st.(busy := true)];
          spawned := spawned + [row];
        }
        i := i + 1;
      }
      if !running {
        StoppedStays(p, heads, i, |heads|, now);
        if stop < |heads| {
          StoppedStays(p, heads, i, stop, now);
        }
      }
      assert !Cancelled(p, heads, stop, now);
      portals := Prune(portals, seen);
      if soonest.None? {
        return -1, spawned;
      }
      return if soonest.value - now < 0 then 0 else soonest.value - now, spawned;
    }

    /** A pass that has found the semaphore full starts nothing more. */
    static lemma {:induction false} StoppedStays(p: Progress, heads: seq<Row>, i: nat, j: nat, now: int)
      requires i <= j <= |heads| && !VisitAll(p, heads, i, now).running
      ensures VisitAll(p, heads, j, now) == VisitAll(p, heads, i, now)
    {
      if i < j {
        StoppedStays(p, heads, i, j - 1, now);
      }
    }

    // ---- deliverOne

    method Backoff(failures: nat) returns (d: nat)
      ensures d == BackoffTime(backoffMin, backoffMax, failures)
    {
      d := backoffMin;
      var i := 1;
      while i < failures && d < backoffMax
        invariant 1 <= i && (i == 1 || i <= failures) && d == backoffMin * Pow2(i - 1)
      {
        d := d * 2;
        i := i + 1;
      }
      if i < failures {
        BackoffReached(backoffMin, backoffMax, i - 1, failures - 1);
      }
      d := Least2(d, backoffMax);
    }

    method RunDeliver(ghost t: Tid, ghost row: Row) returns (ok: bool, ghost reached: bool)
      requires InPhase(View(), t, Delivering) && flights[t].row == row
      modifies this`matrix, this`flights
      ensures View() == Deliver(old(View()), t, reached, ok) && (ok ==> reached)
      ensures flights == old(flights)[t := old(flights)[t].(phase := if ok then Delivered else Failed)]
      ensures ok ==> InMatrix(View(), row.text.uid)
    {
      hide InMatrix, Arrive;
      ghost var s := View();
      var arrives: bool := *;
      ok := *;
      ok, reached := ok && arrives, arrives;
      Arrived(s, row.text);
      matrix := if reached then Arrive(s, row.text).matrix else matrix;
      flights := flights[t := flights[t].(phase := if ok then Delivered else Failed)];
      if reached {
        SameMatrix(Arrive(s, row.text), View(), row.text.uid);
      }
    }

    /** The call of deliver, which may fail although the text reached Matrix. */
    method HandOver(ghost from: Sys, ghost t: Tid, ghost row: Row) returns (ok: bool)
      requires On(from) && InPhase(View(), t, Delivering) && flights[t].row == row
      modifies this`matrix, this`flights, this`did
      ensures On(from) && Log(t) == old(Log(t)) + [DidHandOver(row.text.uid, ok)]
      ensures t in flights && flights[t] == old(flights)[t].(phase := if ok then Delivered else Failed)
      ensures ok ==> InMatrix(View(), row.text.uid)
    {
      hide Inv, Reaches, Grown, InMatrix, Deliver;
      ghost var s := View();
      ghost var reached;
      ok, reached := RunDeliver(t, row);
      ghost var u := View();
      TookNote(from, s, ADeliver(t, reached, ok), t);
      SameMatrix(u, View(), row.text.uid);
    }

    static lemma SameMatrix(s: Sys, u: Sys, uid: string)
      requires u.matrix == s.matrix
      ensures InMatrix(u, uid) == InMatrix(s, uid)
    {
    }

    static lemma Arrived(s: Sys, x: Sms)
      ensures InMatrix(Arrive(s, x), x.uid) && Arrive(s, x) == s.(matrix := Arrive(s, x).matrix)
    {
      assert !InMatrix(s, x.uid) ==> Arrive(s, x).matrix[|s.matrix|] == x;
    }

    method RunDelete(ghost t: Tid, id: int) returns (ok: bool, ghost fault: Fault)
      requires InPhase(View(), t, Delivered) && flights[t].row.id == id
      modifies this`table, this`flights
      ensures View() == DeleteRow(old(View()), t, fault) && (ok <==> fault == NoFault)
      ensures flights == old(flights)[t := old(flights)[t].(phase := if ok then RowGone else Failed)]
      ensures ok ==> forall r :: r in table ==> r.id != id
    {
      var f: Fault := *;
      fault, ok := f, f == NoFault;
      if f != FailsUndone {
        table := Deleted(table, id);
      }
      flights := flights[t := flights[t].(phase := if ok then RowGone else Failed)];
    }

    method Delete(ghost from: Sys, ghost t: Tid, id: int) returns (ok: bool)
      requires On(from) && InPhase(View(), t, Delivered) && flights[t].row.id == id
      modifies this`table, this`flights, this`did
      ensures On(from) && Log(t) == old(Log(t)) + [DidDelete(id, ok)]
      ensures t in flights && flights[t] == old(flights)[t].(phase := if ok then RowGone else Failed)
      ensures ok ==> forall r :: r in table ==> r.id != id
    {
      hide Inv, Reaches, Grown, DeleteRow, Deleted;
      ghost var s := View();
      ghost var fault;
      ok, fault := RunDelete(t, id);
      TookNote(from, s, ADeleteRow(t, fault), t);
    }

    /** The portal whose delivery succeeded starts afresh. */
    method Succeed(ghost from: Sys, ghost t: Tid, key: Key) returns (ghost before: PortalState)
      requires On(from) && InPhase(View(), t, RowGone) && flights[t].key == key
      modifies this`portals, this`flights, this`did
      ensures On(from) && InPhase(View(), t, Leaving) && portals == old(portals) - {key}
      ensures Log(t) == old(Log(t)) + [DidSettle(key, before, None)]
    {
      hide Inv, Reaches, Grown;
      ghost var s := View();
      before := StateOf(portals, key);
      portals := portals - {key};
      flights := flights[t := flights[t].(phase := Leaving)];
      TookNote(from, s, ASettle(t, false, 0), t);
    }

    /** What a failed delivery leaves of the state of its portal: free again and, unless the bridge is stopping, backing
        off for one more failure. */
    function AfterFailure(st: PortalState, cancelled: bool, now: int): PortalState {
      if cancelled then st.(busy := false)
      else PortalState(false, st.failures + 1, Some(now + BackoffTime(backoffMin, backoffMax, st.failures + 1)))
    }

    /** What is left of it after failures at these times. */
    function AfterFailures(st: PortalState, times: seq<int>): PortalState {
      if times == [] then st
      else AfterFailure(AfterFailures(st, times[..|times| - 1]), false, times[|times| - 1])
    }

    /** The failures of a portal add up, and its retry is the wait for as many after the last of them. */
    lemma {:induction false} FailuresAddUp(st: PortalState, times: seq<int>)
      requires times != []
      ensures var u := AfterFailures(st, times);
              var n := st.failures + |times|;
              u == PortalState(false, n, Some(times[|times| - 1] + BackoffTime(backoffMin, backoffMax, n)))
    {
      if |times| > 1 {
        FailuresAddUp(st, times[..|times| - 1]);
      }
    }

    /** The portal whose delivery failed is free again and, unless the bridge is stopping, backs off. */
    method Fail(ghost from: Sys, ghost t: Tid, key: Key, cancelled: bool, now: int)
      requires On(from) && InPhase(View(), t, Failed) && flights[t].key == key
      modifies this`portals, this`flights, this`did
      ensures On(from) && InPhase(View(), t, Leaving)
      ensures key in old(portals)
      ensures var after := AfterFailure(old(portals)[key], cancelled, now);
              portals == old(portals)[key := after]
              && Log(t) == old(Log(t)) + [DidSettle(key, old(portals)[key], Some(after))]
    {
      hide Inv, Reaches, Grown, BackoffTime;
      FlightPortal(t);
      ghost var s := View();
      var st := portals[key];
      var retryAt := 0;
      if cancelled {
        st := st.(busy := false);
      } else {
        var d := Backoff(st.failures + 1);
        retryAt := now + d;
        st := PortalState(false, st.failures + 1, Some(retryAt));
      }
      portals := portals[key := st];
      flights := flights[t := flights[t].(phase := Leaving)];
      TookNote(from, s, ASettle(t, cancelled, retryAt), t);
    }

    lemma FlightPortal(t: Tid)
      requires Inv(View()) && InPhase(View(), t, Failed)
      ensures flights[t].key in portals
    {
      hide DataInv, OrderInv, FlightInv;
      FailedPortalKnown(View(), t);
    }

    lemma FlightCounted(t: Tid)
      requires Inv(View()) && t in flights
      ensures sem > 0
    {
      assert sem == |flights|;
    }

    method Release(ghost from: Sys, ghost t: Tid)
      requires On(from) && InPhase(View(), t, Leaving)
      modifies this`sem, this`flights
      ensures On(from) && t !in flights
    {
      hide Inv, Reaches, Grown;
      FlightCounted(t);
      ghost var s := View();
      sem := sem - 1;
      flights := flights - {t};
      Took(from, s, ALeave(t), t);
    }

    /** deliverOne after its delivery and, if that succeeded, the deletion of the row. */
    method Finish(ghost from: Sys, ghost t: Tid, key: Key, done: bool, cancelled: bool, now: int)
      returns (ghost before: PortalState)
      requires On(from) && InPhase(View(), t, if done then RowGone else Failed) && flights[t].key == key
      modifies this
      ensures On(from) && t !in flights && Log(t) == old(Log(t)) + [Settles(key, before, done, cancelled, now)]
    {
      hide Inv, Reaches, Grown, Log, AfterFailure;
      Others(from, t);
      if done {
        before := Succeed(from, t, key);
      } else {
        before := StateOf(portals, key);
        Fail(from, t, key, cancelled, now);
      }
      Others(from, t);
      Release(from, t);
    }

    function Settles(key: Key, before: PortalState, done: bool, cancelled: bool, now: int): Event {
      DidSettle(key, before, if done then None else Some(AfterFailure(before, cancelled, now)))
    }

    /** Hands one row over and deletes it on success. Then its text is in Matrix and the row is gone for good. Otherwise
        its portal backs off. Whether the bridge is stopping, and the clock, are those of the time when the delivery has
        failed. */
    method DeliverOne(ghost from: Sys, t: Tid, key: Key, row: Row, cancelled: bool, now: int)
      returns (done: bool, ghost evs: seq<Event>, ghost before: PortalState)
      requires On(from) && InPhase(View(), t, Delivering) && flights[t] == Flight(key, row, Delivering)
      modifies this
      ensures On(from) && t !in flights
      ensures done ==> InMatrix(View(), row.text.uid) && Gone(View(), row.id)
      ensures Log(t) == old(Log(t)) + evs + [Settles(key, before, done, cancelled, now)]
      ensures if done then evs == [DidHandOver(row.text.uid, true), DidDelete(row.id, true)]
              else evs == [DidHandOver(row.text.uid, false)]
                   || evs == [DidHandOver(row.text.uid, true), DidDelete(row.id, false)]
    {
      hide Inv, Reaches, KeyOf, Gone, InMatrix, Grown, Log, Settles;
      done := HandOver(from, t, row);
      evs := [DidHandOver(row.text.uid, done)];
      Others(from, t);
      if done {
        done := Delete(from, t, row.id);
        evs := [DidHandOver(row.text.uid, true), DidDelete(row.id, done)];
      }
      ghost var s := View();
      ReachesSelf(s);
      GrownSelf(s);
      if done {
        RowGoneForGood(t);
      }
      before := Finish(s, t, key, done, cancelled, now);
      ReachesMore(from, s, View());
      GrownMore(from, s, View());
      if done {
        StillDelivered(s, View(), row);
      }
    }

    static lemma StillDelivered(s: Sys, u: Sys, row: Row)
      requires Grown(s, u) && InMatrix(s, row.text.uid) && Gone(s, row.id)
      ensures InMatrix(u, row.text.uid) && Gone(u, row.id)
    {
      var x :| x in s.matrix && x.uid == row.text.uid;
      assert x in u.matrix;
    }

    lemma RowGoneForGood(t: Tid)
      requires Inv(View()) && InPhase(View(), t, RowGone) && forall r :: r in table ==> r.id != flights[t].row.id
      ensures Gone(View(), flights[t].row.id) && InMatrix(View(), flights[t].row.text.uid)
    {
      assert GoodFlight(View(), flights[t]);
    }
  }
}
