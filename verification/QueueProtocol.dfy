/** The durable path of a text from SIP to Matrix as a state machine: every statement, file operation and
    mutex-guarded block of pkg/inbound is one step, the threads interleave between steps, and the process may
    crash after any of them. */
module QueueProtocol {
  import opened Results
  import opened InboundTable
  import opened SpoolNames
  import opened SpoolDisk
  import opened DeliverPass

  /** Where a goroutine running deliverOne is. */
  datatype Phase = Delivering | Delivered | RowGone | Failed | Leaving

  /** The final name a Write has given its file, and the text in it. */
  datatype Named = Named(name: string, uid: string)

  datatype Flight = Flight(key: Key, row: Row, phase: Phase)

  /** The operations of Write, in their order; a temporary file that comes to nothing is given up. */
  datatype FileOp = Creates | Fills | Syncs | Closes | Renames | SyncsDir | GivesUp

  const BATCH_SIZE := 500

  /** What a thread has done: its statements and file operations with their answers. An insert says where its row is
      among all that were inserted, if it made one. */
  datatype Event =
    | DidInsert(uid: string, at: Option<nat>, ok: bool)
    | DidFile(op: FileOp, ok: bool)
    | DidList(names: seq<string>, ok: bool)
    | DidRead(name: string, failed: bool, m: Option<Message>)
    | DidSetAside(name: string, ok: bool)
    | DidRemove(name: string, ok: bool)
    | DidReadHeads(rows: seq<Row>, ok: bool)
    | DidHandOver(uid: string, ok: bool)
    | DidDelete(id: int, ok: bool)
    | DidSettle(key: Key, before: PortalState, after: Option<PortalState>)

  datatype Sys = Sys(
    /** Every text accepted so far, by the UID minted for it. */
    texts: map<string, Message>,
    /** The outbox table, the ids its sequence has given out, and every row it ever held, in insert order, with the
        thread that inserted it. */
    table: set<Row>, usedIds: set<int>, inserted: seq<Row>, makers: seq<Tid>,
    /** The spool directory. */
    disk: Disk,
    /** The UIDs for which Persist returned nil. */
    acked: set<string>,
    /** The spool files whose insert returned nil, and the Writes between rename and directory fsync. */
    drained: set<string>, renamed: map<Tid, Named>,
    /** The texts in Matrix, in the order they arrived there. */
    matrix: seq<Sms>,
    /** The passes that have read the heads and not yet taken the mutex. */
    snapshots: map<Tid, seq<Row>>,
    /** The fields of the Queue. */
    portals: map<Key, PortalState>, sem: nat, flights: map<Tid, Flight>,
    /** What every thread has done, in order. */
    did: map<Tid, seq<Event>>)

  const INIT := Sys(map[], {}, {}, [], [], EMPTY, {}, {}, map[], [], map[], map[], 0, map[], map[])

  function Did(s: Sys, t: Tid): seq<Event> {
    if t in s.did then s.did[t] else []
  }

  function Note(s: Sys, t: Tid, e: Event): Sys {
    s.(did := s.did[t := Did(s, t) + [e]])
  }

  ghost predicate InMatrix(s: Sys, uid: string) {
    exists x :: x in s.matrix && x.uid == uid
  }

  ghost predicate Known(s: Sys, m: Message) {
    m.text.uid in s.texts && s.texts[m.text.uid] == m
  }

  // ---- The steps

  function Mint(s: Sys, m: Message): Sys {
    s.(texts := s.texts[m.text.uid := m])
  }

  /** The statement makes a row. */
  predicate Inserts(s: Sys, m: Message, fault: Fault) {
    !fault.FailsUndone? && !HasUID(s.table, m.text.uid)
  }

  /** Insert with the effect the fault leaves it. */
  ghost function InsertText(s: Sys, t: Tid, m: Message, id: int, fault: Fault): (u: Sys)
    ensures u == s.(usedIds := u.usedIds, table := u.table, inserted := u.inserted, makers := u.makers)
  {
    var u := s.(usedIds := s.usedIds + {id});
    if !Inserts(s, m, fault) then u
    else
      u.(table := Inserted(s.table, m, id), inserted := s.inserted + [Row(id, m.text, UnixMilli(m.receivedNs))],
         makers := s.makers + [t])
  }

  /** Persist's insert; when it returns nil, so does Persist. */
  ghost function PersistInsert(s: Sys, t: Tid, uid: string, id: int, fault: Fault): Sys
    requires uid in s.texts
  {
    var u := InsertText(s, t, s.texts[uid], id, fault);
    if fault == NoFault then u.(acked := s.acked + {uid}) else u
  }

  /** The thread of drainLoop, the only one that drains the spool. */
  const DRAINER: Tid := 0

  /** The steps of Write that only touch its temporary file, and Quarantine. */
  ghost predicate IsSpoolStep(s: Sys, d: DiskStep) {
    match d
    case CreateTemp(_, _, _, m) => Known(s, m)
    case FillTemp(t, c) => t in s.disk.temps && (c.Whole? ==> c.m == s.disk.temps[t].m)
    case FsyncTemp(_) => true
    case DropTemp(_, _) => true
    case SetAside(_) => true
    case _ => false
  }

  ghost function SpoolStep(s: Sys, d: DiskStep): Sys
    requires CanDo(s.disk, d)
  {
    s.(disk := Do(s.disk, d))
  }

  ghost function SpoolRename(s: Sys, t: Tid, name: string): Sys
    requires CanDo(s.disk, RenameTemp(t, name))
  {
    s.(disk := Do(s.disk, RenameTemp(t, name)), renamed := s.renamed[t := Named(name, s.disk.temps[t].m.text.uid)])
  }

  /** Write's fsync of the directory; when it succeeds, Write and Persist return nil. */
  ghost function SpoolFsync(s: Sys, t: Tid, ok: bool): Sys
    requires t in s.renamed
  {
    var u := s.(renamed := s.renamed - {t});
    if ok then u.(disk := Do(s.disk, FsyncDir), acked := s.acked + {s.renamed[t].uid}) else u
  }

  /** The file holds a whole message. */
  predicate Readable(d: Disk, name: string) {
    && IsListed(name) && name in d.dir && d.dir[name] in d.files
    && d.files[d.dir[name]].content.Whole?
  }

  function FileText(d: Disk, name: string): Message
    requires Readable(d, name)
  {
    d.files[d.dir[name]].content.m
  }

  /** What Read makes of a file that the system gives it. */
  function Parsed(d: Disk, name: string): Option<Message> {
    if Readable(d, name) && FileText(d, name).text.uid != "" then Some(FileText(d, name)) else None
  }

  ghost function DrainInsert(s: Sys, name: string, id: int, fault: Fault): Sys
    requires Readable(s.disk, name)
  {
    var t := InsertText(s, DRAINER, FileText(s.disk, name), id, fault);
    if fault == NoFault then t.(drained := s.drained + {name}) else t
  }

  ghost function DrainRemove(s: Sys, name: string): Sys
    requires CanDo(s.disk, RemoveFile(name))
  {
    s.(disk := Do(s.disk, RemoveFile(name)))
  }

  ghost function ReadHeads(s: Sys, t: Tid, limit: nat): Sys
    requires Ordered(s.table)
  {
    s.(snapshots := s.snapshots[t := Heads(s.table, limit)])
  }

  function AddFlights(fs: map<Tid, Flight>, tids: seq<Tid>, rows: seq<Row>): map<Tid, Flight>
    requires |tids| == |rows|
  {
    if tids == [] then fs
    else
      var n := |tids| - 1;
      AddFlights(fs, tids[..n], rows[..n])[tids[n] := Flight(KeyOf(rows[n].text), rows[n], Delivering)]
  }

  ghost predicate Fresh(fs: map<Tid, Flight>, tids: seq<Tid>) {
    && (forall i :: 0 <= i < |tids| ==> tids[i] !in fs)
    && forall i, j :: 0 <= i < j < |tids| ==> tids[i] != tids[j]
  }

  function Pass(s: Sys, t: Tid, now: int, stop: nat): Progress
    requires t in s.snapshots
  {
    PassEnd(Start(s.portals, s.sem), s.snapshots[t], stop, now)
  }

  function RunPass(s: Sys, t: Tid, now: int, stop: nat, tids: seq<Tid>): Sys
    requires t in s.snapshots && |tids| == |Pass(s, t, now, stop).spawned|
  {
    var p := Pass(s, t, now, stop);
    s.(portals := p.portals, sem := p.sem, snapshots := s.snapshots - {t},
       flights := AddFlights(s.flights, tids, p.spawned))
  }

  function WithPhase(s: Sys, t: Tid, p: Phase): Sys
    requires t in s.flights
  {
    s.(flights := s.flights[t := s.flights[t].(phase := p)])
  }

  /** bridgev2 takes a message ID, and so a UID, once. */
  ghost function Arrive(s: Sys, x: Sms): Sys {
    if InMatrix(s, x.uid) then s else s.(matrix := s.matrix + [x])
  }

  /** deliver() of a row: it may fail although the text reached Matrix, and succeeds only if it is there. */
  ghost function Deliver(s: Sys, t: Tid, reached: bool, ok: bool): Sys
    requires t in s.flights
  {
    var u := if reached then Arrive(s, s.flights[t].row.text) else s;
    WithPhase(u, t, if ok then Delivered else Failed)
  }

  ghost function DeleteRow(s: Sys, t: Tid, fault: Fault): Sys
    requires t in s.flights
  {
    var u := if fault.FailsUndone? then s else s.(table := Deleted(s.table, s.flights[t].row.id));
    WithPhase(u, t, if fault == NoFault then RowGone else Failed)
  }

  function Settled(st: PortalState, cancelled: bool, retryAt: int): PortalState {
    if cancelled then st.(busy := false) else PortalState(false, st.failures + 1, Some(retryAt))
  }

  /** The mutex-guarded end of deliverOne. */
  function Settle(s: Sys, t: Tid, cancelled: bool, retryAt: int): Sys
    requires t in s.flights
  {
    var f := s.flights[t];
    var ps := if f.phase == RowGone then s.portals - {f.key}
              else s.portals[f.key := Settled(StateOf(s.portals, f.key), cancelled, retryAt)];
    WithPhase(s.(portals := ps), t, Leaving)
  }

  function Leave(s: Sys, t: Tid): Sys
    requires s.sem > 0
  {
    s.(flights := s.flights - {t}, sem := s.sem - 1)
  }

  function Restart(s: Sys, e: Disk): Sys {
    s.(disk := e, drained := {}, renamed := map[], snapshots := map[], portals := map[], sem := 0, flights := map[],
       did := map[])
  }

  datatype Step =
    | AMint(m: Message)
    | APersistInsert(t: Tid, uid: string, id: int, fault: Fault)
    | ASpool(d: DiskStep)
    | ASpoolRename(t: Tid, name: string)
    | ASpoolFsync(t: Tid, ok: bool)
    | ADrainInsert(name: string, id: int, fault: Fault)
    | ADrainRemove(name: string)
    | AReadHeads(t: Tid, limit: nat)
    | ARunPass(t: Tid, now: int, stop: nat, tids: seq<Tid>)
    | ADeliver(t: Tid, reached: bool, ok: bool)
    | ADeleteRow(t: Tid, fault: Fault)
    | ASettle(t: Tid, cancelled: bool, retryAt: int)
    | ALeave(t: Tid)
    | ANote(t: Tid, e: Event)
    | ARestart(left: Disk)

  /** What leaves everything as it is, and may be noted when it happens: a listing and a read, with what they gave; a
      close; and the operations that fail without effect. */
  ghost predicate Harmless(s: Sys, t: Tid, e: Event) {
    match e
    case DidFile(op, ok) =>
      (op == Closes && t in s.disk.temps) || (!ok && (op == Creates || op == Syncs || op == Renames))
    case DidList(names, ok) => if ok then IsListing(s.disk, names) else names == []
    case DidRead(name, failed, m) => m == if failed then None else Parsed(s.disk, name)
    case DidSetAside(_, ok) => !ok
    case DidRemove(_, ok) => !ok
    case DidReadHeads(rows, ok) => !ok && rows == []
    case _ => false
  }

  ghost predicate InPhase(s: Sys, t: Tid, p: Phase) {
    t in s.flights && s.flights[t].phase == p
  }

  ghost predicate Enabled(s: Sys, a: Step) {
    match a
    case AMint(m) => m.text.uid !in s.texts
    case APersistInsert(_, uid, id, _) => uid in s.texts && id !in s.usedIds
    case ASpool(d) => IsSpoolStep(s, d) && CanDo(s.disk, d)
    case ASpoolRename(t, name) => CanDo(s.disk, RenameTemp(t, name))
    case ASpoolFsync(t, _) => t in s.renamed
    case ADrainInsert(name, id, _) => Readable(s.disk, name) && id !in s.usedIds
    case ADrainRemove(name) => name in s.drained && CanDo(s.disk, RemoveFile(name))
    case AReadHeads(_, _) => Ordered(s.table)
    case ARunPass(t, now, stop, tids) =>
      t in s.snapshots && |tids| == |Pass(s, t, now, stop).spawned| && Fresh(s.flights, tids)
    case ADeliver(t, reached, ok) =>
      InPhase(s, t, Delivering) && (ok ==> reached || InMatrix(s, s.flights[t].row.text.uid))
    case ADeleteRow(t, _) => InPhase(s, t, Delivered)
    case ASettle(t, _, _) => InPhase(s, t, RowGone) || InPhase(s, t, Failed)
    case ALeave(t) => InPhase(s, t, Leaving) && s.sem > 0
    case ANote(t, e) => Harmless(s, t, e)
    case ARestart(e) => Crash(s.disk, e)
  }

  /** The steps that their thread takes note of, which are all but those that only touch what is in memory. */
  predicate Logs(a: Step) {
    !a.AMint? && !a.ARunPass? && !a.ALeave? && !a.ARestart?
  }

  /** The thread that takes the step. */
  function By(a: Step): Tid
    requires Logs(a)
  {
    if a.ASpool? then DiskStepOf(a.d)
    else if a.ADrainInsert? || a.ADrainRemove? then DRAINER
    else a.t
  }

  function DiskStepOf(d: DiskStep): Tid {
    match d
    case SetAside(_) => DRAINER
    case RemoveFile(_) => DRAINER
    case FsyncDir => DRAINER
    case _ => d.t
  }

  /** Where the row of the statement is among all that were inserted, if it makes one. */
  function RowOf(s: Sys, m: Message, fault: Fault): Option<nat> {
    if Inserts(s, m, fault) then Some(|s.inserted|) else None
  }

  function DiskLogged(d: DiskStep): Event {
    match d
    case CreateTemp(_, _, _, _) => DidFile(Creates, true)
    case FillTemp(_, c) => DidFile(Fills, c.Whole?)
    case FsyncTemp(_) => DidFile(Syncs, true)
    case RenameTemp(_, _) => DidFile(Renames, true)
    case DropTemp(_, removed) => DidFile(GivesUp, removed)
    case FsyncDir => DidFile(SyncsDir, true)
    case RemoveFile(name) => DidRemove(name, true)
    case SetAside(name) => DidSetAside(name, true)
  }

  /** What it notes. */
  ghost function Logged(s: Sys, a: Step): Event
    requires Logs(a) && Enabled(s, a)
  {
    match a
    case APersistInsert(_, uid, _, fault) => DidInsert(uid, RowOf(s, s.texts[uid], fault), fault == NoFault)
    case ASpool(d) => DiskLogged(d)
    case ASpoolRename(_, _) => DidFile(Renames, true)
    case ASpoolFsync(_, ok) => DidFile(SyncsDir, ok)
    case ADrainInsert(name, _, fault) =>
      var m := FileText(s.disk, name);
      DidInsert(m.text.uid, RowOf(s, m, fault), fault == NoFault)
    case ADrainRemove(name) => DidRemove(name, true)
    case AReadHeads(_, limit) => DidReadHeads(Heads(s.table, limit), true)
    case ADeliver(t, _, ok) => DidHandOver(s.flights[t].row.text.uid, ok)
    case ADeleteRow(t, fault) => DidDelete(s.flights[t].row.id, fault == NoFault)
    case ASettle(t, cancelled, retryAt) =>
      var f := s.flights[t];
      var st := StateOf(s.portals, f.key);
      DidSettle(f.key, st, if f.phase == RowGone then None else Some(Settled(st, cancelled, retryAt)))
    case ANote(_, e) => e
  }

  /** What a step does. */
  ghost function Effect(s: Sys, a: Step): Sys
    requires Enabled(s, a)
  {
    match a
    case AMint(m) => Mint(s, m)
    case APersistInsert(t, uid, id, fault) => PersistInsert(s, t, uid, id, fault)
    case ASpool(d) => SpoolStep(s, d)
    case ASpoolRename(t, name) => SpoolRename(s, t, name)
    case ASpoolFsync(t, ok) => SpoolFsync(s, t, ok)
    case ADrainInsert(name, id, fault) => DrainInsert(s, name, id, fault)
    case ADrainRemove(name) => DrainRemove(s, name)
    case AReadHeads(t, limit) => ReadHeads(s, t, limit)
    case ARunPass(t, now, stop, tids) => RunPass(s, t, now, stop, tids)
    case ADeliver(t, reached, ok) => Deliver(s, t, reached, ok)
    case ADeleteRow(t, fault) => DeleteRow(s, t, fault)
    case ASettle(t, cancelled, retryAt) => Settle(s, t, cancelled, retryAt)
    case ALeave(t) => Leave(s, t)
    case ANote(_, _) => s
    case ARestart(e) => Restart(s, e)
  }

  ghost function Next(s: Sys, a: Step): Sys
    requires Enabled(s, a)
  {
    if Logs(a) then Note(Effect(s, a), By(a), Logged(s, a)) else Effect(s, a)
  }

  // ---- What every step keeps

  ghost predicate KnownRow(s: Sys, r: Row) {
    && r.text.uid in s.texts && s.texts[r.text.uid].text == r.text
    && r.receivedMs == UnixMilli(s.texts[r.text.uid].receivedNs)
  }

  ghost predicate DistinctIds(rows: seq<Row>) {
    forall i, j :: 0 <= i < j < |rows| ==> rows[i].id != rows[j].id
  }

  /** Rows keep their identity: ids and, in the table, UIDs are never shared, and every copy of a text is the
      text that was accepted. */
  ghost predicate TableInv(s: Sys) {
    && (forall uid :: uid in s.texts ==> s.texts[uid].text.uid == uid)
    && Keyed(s.table)
    && (forall r :: r in s.table ==> r in s.inserted)
    && |s.makers| == |s.inserted|
    && DistinctIds(s.inserted)
    && (forall r :: r in s.inserted ==> r.id in s.usedIds && KnownRow(s, r))
  }

  /** Synced files hold known texts, and so will those of the running Writes. */
  ghost predicate FilesKnown(s: Sys, d: Disk) {
    && (forall i :: i in d.files && d.files[i].synced && d.files[i].content.Whole? ==> Known(s, d.files[i].content.m))
    && (forall t :: t in d.temps ==>
          && Known(s, d.temps[t].m) && d.temps[t].inode in d.files
          && var c := d.files[d.temps[t].inode].content; c.Whole? ==> c.m == d.temps[t].m)
  }

  ghost predicate SpoolInv(s: Sys) {
    DiskInv(s.disk) && FilesKnown(s, s.disk)
  }

  ghost predicate GoodFlight(s: Sys, f: Flight) {
    && f.row in s.inserted && f.key == KeyOf(f.row.text)
    && (f.phase == Delivered || f.phase == RowGone ==> InMatrix(s, f.row.text.uid))
  }

  /** A row leaves the table only once its text is in Matrix, which takes every text once. */
  ghost predicate ReachInv(s: Sys) {
    && (forall r :: r in s.inserted ==> r in s.table || InMatrix(s, r.text.uid))
    && (forall t :: t in s.flights ==> GoodFlight(s, s.flights[t]))
    && (forall t, r :: t in s.snapshots && r in s.snapshots[t] ==> r in s.inserted)
    && (forall x :: x in s.matrix ==> x.uid in s.texts && s.texts[x.uid].text == x)
    && (forall i, j :: 0 <= i < j < |s.matrix| ==> s.matrix[i].uid != s.matrix[j].uid)
  }

  /** The text has left the spool's responsibility. */
  ghost predicate Landed(s: Sys, uid: string) {
    HasUID(s.table, uid) || InMatrix(s, uid)
  }

  /** The text is in the table, in Matrix or, out of any crash's reach, in the spool directory. */
  ghost predicate Safe(s: Sys, uid: string) {
    Landed(s, uid) || Held(s.disk, uid)
  }

  ghost predicate SafeInv(s: Sys) {
    && (forall uid :: uid in s.acked ==> Safe(s, uid))
    && (forall name, uid :: name in s.drained && NamedFor(name, uid) ==> Landed(s, uid))
    && (forall t :: t in s.renamed ==>
          Landed(s, s.renamed[t].uid) || Keeps(s.disk.files, s.disk.dir, s.renamed[t].uid))
  }

  /** A delivery for key that has not given its portal free. */
  ghost predicate Holds(s: Sys, t: Tid, key: Key) {
    t in s.flights && s.flights[t].key == key && s.flights[t].phase != Leaving
  }

  /** A portal is busy exactly while one delivery for it is in flight, and every delivery holds a slot of the
      semaphore. */
  ghost predicate FlightInv(s: Sys) {
    && s.sem == |s.flights| && s.sem <= MAX_PARALLEL
    && (forall k :: StateOf(s.portals, k).busy <==> exists t :: Holds(s, t, k))
    && (forall t, u, k :: Holds(s, t, k) && Holds(s, u, k) ==> t == u)
  }

  // ---- Tables

  function WithRow(s: Sys, r: Row, t: Tid): Sys {
    s.(table := s.table + {r}, inserted := s.inserted + [r], makers := s.makers + [t], usedIds := s.usedIds + {r.id})
  }

  lemma AddRow(s: Sys, r: Row, t: Tid)
    requires TableInv(s) && KnownRow(s, r) && r.id !in s.usedIds && !HasUID(s.table, r.text.uid)
    ensures TableInv(WithRow(s, r, t))
  {
    forall q | q in s.inserted ensures q.id != r.id {
      assert q.id in s.usedIds;
    }
    forall i | 0 <= i < |s.inserted| ensures s.inserted[i].id != r.id {
      assert s.inserted[i] in s.inserted;
    }
    var u := WithRow(s, r, t);
    forall q | q in u.inserted ensures q.id in u.usedIds && KnownRow(u, q) {
      assert q != r ==> KnownRow(s, q);
    }
    assert Keyed(u.table);
  }

  lemma InsertTable(s: Sys, t: Tid, m: Message, id: int, fault: Fault)
    requires TableInv(s) && Known(s, m) && id !in s.usedIds
    ensures TableInv(InsertText(s, t, m, id, fault))
  {
    var u := InsertText(s, t, m, id, fault);
    var r := Row(id, m.text, UnixMilli(m.receivedNs));
    assert KnownRow(s, r);
    if fault.FailsUndone? || HasUID(s.table, m.text.uid) {
      assert forall q :: q in s.inserted ==> KnownRow(s, q);
    } else {
      hide TableInv, KnownRow, HasUID;
      AddRow(s, r, t);
      assert u == WithRow(s, r, t);
    }
  }

  ghost predicate MoreTexts(s: Sys, u: Sys) {
    && (forall uid :: uid in s.texts ==> uid in u.texts && u.texts[uid] == s.texts[uid])
    && (forall uid :: uid in u.texts ==> uid in s.texts || u.texts[uid].text.uid == uid)
  }

  lemma TableFrame(s: Sys, u: Sys)
    requires TableInv(s) && MoreTexts(s, u)
    requires u.table <= s.table && u.inserted == s.inserted && u.makers == s.makers && u.usedIds == s.usedIds
    ensures TableInv(u)
  {
    assert forall r :: r in s.inserted ==> KnownRow(s, r);
  }

  // ---- Files

  lemma FileKnown(s: Sys, name: string)
    requires SpoolInv(s) && IsListed(name) && name in s.disk.dir
    ensures Readable(s.disk, name) && Known(s, FileText(s.disk, name))
    ensures NamedFor(name, FileText(s.disk, name).text.uid)
  {
    ListedName(s.disk, name);
    TextFileName(s.disk.files, name, s.disk.dir[name]);
  }

  lemma SpoolFrame(s: Sys, u: Sys)
    requires SpoolInv(s) && u.disk == s.disk && MoreTexts(s, u)
    ensures SpoolInv(u)
  {
    hide DiskInv;
    assert forall m :: Known(s, m) ==> Known(u, m);
  }

  lemma FilesStayKnown(s: Sys, d: DiskStep)
    requires FilesKnown(s, s.disk) && CanDo(s.disk, d)
    requires d.CreateTemp? || d.FillTemp? ==> IsSpoolStep(s, d)
    requires var ts := s.disk.temps; forall t, u :: t in ts && u in ts && t != u ==> ts[t].inode != ts[u].inode
    ensures FilesKnown(s, Do(s.disk, d))
  {
    hide Known;
  }

  /** No step of the spool puts anything but a known text into a synced file. */
  lemma SpoolStepKnown(s: Sys, d: DiskStep)
    requires SpoolInv(s) && CanDo(s.disk, d)
    requires d.CreateTemp? || d.FillTemp? ==> IsSpoolStep(s, d)
    ensures SpoolInv(s.(disk := Do(s.disk, d)))
  {
    TempsApart(s.disk);
    DiskStepInv(s.disk, d);
    hide DiskInv, Do, CanDo;
    FilesStayKnown(s, d);
    var u := s.(disk := Do(s.disk, d));
    assert forall m :: Known(s, m) ==> Known(u, m);
  }

  lemma TempsApart(d: Disk)
    requires DiskInv(d)
    ensures forall t, u :: t in d.temps && u in d.temps && t != u ==> d.temps[t].inode != d.temps[u].inode
  {
  }

  lemma RestartSpool(s: Sys, e: Disk)
    requires SpoolInv(s) && Crash(s.disk, e)
    ensures SpoolInv(Restart(s, e))
  {
    CrashKeeps(s.disk, e);
    hide DiskInv;
    forall i | i in e.files && e.files[i].synced && e.files[i].content.Whole? ensures Known(s, e.files[i].content.m) {
      assert i in s.disk.files;
    }
    assert forall m :: Known(s, m) ==> Known(Restart(s, e), m);
  }

  // ---- Where texts are

  /** u differs from s at most in that the flights and snapshots are some of those of s, at phases that need
      no more than before. */
  lemma ReachFrame(s: Sys, u: Sys)
    requires ReachInv(s) && MoreTexts(s, u)
    requires u.table == s.table && u.inserted == s.inserted && u.matrix == s.matrix
    requires forall t :: t in u.flights ==> t in s.flights && GoodFlight(s, u.flights[t])
    requires forall t :: t in u.snapshots ==> t in s.snapshots && u.snapshots[t] == s.snapshots[t]
    ensures ReachInv(u)
  {
    assert forall uid :: InMatrix(u, uid) == InMatrix(s, uid);
  }

  lemma AddRowReach(s: Sys, r: Row)
    requires ReachInv(s)
    ensures ReachInv(s.(table := s.table + {r}, inserted := s.inserted + [r]))
  {
    var u := s.(table := s.table + {r}, inserted := s.inserted + [r]);
    assert forall uid :: InMatrix(u, uid) == InMatrix(s, uid);
    forall t | t in u.flights ensures GoodFlight(u, u.flights[t]) {
      assert GoodFlight(s, s.flights[t]);
    }
  }

  lemma InsertReach(s: Sys, t: Tid, m: Message, id: int, fault: Fault)
    requires ReachInv(s)
    ensures ReachInv(InsertText(s, t, m, id, fault))
  {
    var u := InsertText(s, t, m, id, fault);
    var r := Row(id, m.text, UnixMilli(m.receivedNs));
    AddRowReach(s, r);
    var v := if u.inserted == s.inserted then s else s.(table := s.table + {r}, inserted := s.inserted + [r]);
    assert u == v.(usedIds := u.usedIds, makers := u.makers);
    assert forall t :: t in v.flights ==> GoodFlight(v, v.flights[t]);
    ReachFrame(v, u);
  }

  lemma ArriveReach(s: Sys, x: Sms)
    requires ReachInv(s) && x.uid in s.texts && s.texts[x.uid].text == x
    ensures ReachInv(Arrive(s, x)) && InMatrix(Arrive(s, x), x.uid)
    ensures forall uid :: InMatrix(s, uid) ==> InMatrix(Arrive(s, x), uid)
  {
    var u := Arrive(s, x);
    if u != s {
      assert u.matrix[|s.matrix|] == x;
      forall uid | InMatrix(s, uid) ensures InMatrix(u, uid) {
        var y :| y in s.matrix && y.uid == uid;
        assert y in u.matrix;
      }
      forall i | 0 <= i < |s.matrix| ensures s.matrix[i].uid != x.uid {
        assert s.matrix[i] in s.matrix;
      }
      forall t | t in s.flights ensures GoodFlight(u, u.flights[t]) {
        assert GoodFlight(s, s.flights[t]);
      }
    }
  }

  /** Only the row of a delivered text is deleted: ids are never reused. */
  lemma DeleteReach(s: Sys, t: Tid)
    requires TableInv(s) && ReachInv(s) && InPhase(s, t, Delivered)
    ensures var u := s.(table := Deleted(s.table, s.flights[t].row.id));
            ReachInv(u) && forall uid :: Landed(s, uid) ==> Landed(u, uid)
  {
    var row := s.flights[t].row;
    var u := s.(table := Deleted(s.table, row.id));
    assert GoodFlight(s, s.flights[t]);
    assert forall uid :: InMatrix(u, uid) == InMatrix(s, uid);
    forall r | r in s.inserted && r.id == row.id ensures r == row {
      SameId(s.inserted, r, row);
    }
    forall k | k in u.flights ensures GoodFlight(u, u.flights[k]) {
      assert GoodFlight(s, s.flights[k]);
    }
    forall uid | Landed(s, uid) ensures Landed(u, uid) {
      if !InMatrix(s, uid) {
        var r :| r in s.table && r.text.uid == uid;
        assert r in u.table;
      }
    }
  }

  lemma SameId(rows: seq<Row>, a: Row, b: Row)
    requires DistinctIds(rows) && a in rows && b in rows && a.id == b.id
    ensures a == b
  {
    var i :| 0 <= i < |rows| && rows[i] == a;
    var j :| 0 <= j < |rows| && rows[j] == b;
  }

  // ---- No loss

  lemma InsertLands(s: Sys, t: Tid, m: Message, id: int, fault: Fault)
    ensures forall uid :: Landed(s, uid) ==> Landed(InsertText(s, t, m, id, fault), uid)
    ensures !fault.FailsUndone? ==> Landed(InsertText(s, t, m, id, fault), m.text.uid)
  {
    var u := InsertText(s, t, m, id, fault);
    assert forall uid :: InMatrix(u, uid) == InMatrix(s, uid);
    assert u.table != s.table ==> Row(id, m.text, UnixMilli(m.receivedNs)) in u.table;
  }

  /** What the spool directory shows or keeps for uid is still shown or kept, or no longer needed. */
  ghost predicate Spared(s: Sys, u: Sys, uid: string) {
    && (Held(s.disk, uid) ==> Landed(u, uid) || Held(u.disk, uid))
    && (Keeps(s.disk.files, s.disk.dir, uid) ==> Landed(u, uid) || Keeps(u.disk.files, u.disk.dir, uid))
    && (Landed(s, uid) ==> Landed(u, uid))
  }

  /** Texts stay safe under any step that spares them. */
  lemma SafeFrame(s: Sys, u: Sys)
    requires SafeInv(s) && forall uid :: Spared(s, u, uid)
    requires forall uid :: uid in u.acked ==> uid in s.acked || Safe(u, uid)
    requires forall name, uid :: name in u.drained && NamedFor(name, uid) ==> name in s.drained || Landed(u, uid)
    requires forall t :: t in u.renamed ==>
      || (t in s.renamed && u.renamed[t] == s.renamed[t])
      || Landed(u, u.renamed[t].uid) || Keeps(u.disk.files, u.disk.dir, u.renamed[t].uid)
    ensures SafeInv(u)
  {
    hide Landed, Held, Keeps, NamedFor;
    forall uid | uid in s.acked ensures Safe(u, uid) {
      assert Safe(s, uid) && Spared(s, u, uid);
    }
    forall name, uid | name in s.drained && NamedFor(name, uid) ensures Landed(u, uid) {
      assert Spared(s, u, uid);
    }
    forall t | t in s.renamed
      ensures Landed(u, s.renamed[t].uid) || Keeps(u.disk.files, u.disk.dir, s.renamed[t].uid)
    {
      assert Spared(s, u, s.renamed[t].uid);
    }
  }

  ghost predicate DataInv(s: Sys) {
    TableInv(s) && SpoolInv(s) && ReachInv(s) && SafeInv(s)
  }

  /** A step of the spool spares every text but one that has landed and whose file it removes. */
  lemma DiskSpares(s: Sys, u: Sys, d: DiskStep)
    requires SpoolInv(s) && CanDo(s.disk, d) && u.disk == Do(s.disk, d)
    requires u.table == s.table && u.matrix == s.matrix
    requires forall uid :: d.RemoveFile? && NamedFor(d.name, uid) ==> Landed(s, uid)
    ensures forall uid :: Spared(s, u, uid)
  {
    hide DiskInv, CanDo, Do, Held, Keeps, NamedFor, FilesKnown;
    assert forall uid :: InMatrix(u, uid) == InMatrix(s, uid);
    forall uid ensures Spared(s, u, uid) {
      if !(d.RemoveFile? && NamedFor(d.name, uid)) {
        if Held(s.disk, uid) {
          DiskStepHeld(s.disk, d, uid);
        }
        if Keeps(s.disk.files, s.disk.dir, uid) {
          DiskStepShown(s.disk, d, uid);
        }
      }
    }
  }

  lemma MintKeeps(s: Sys, m: Message)
    requires DataInv(s) && Enabled(s, AMint(m))
    ensures DataInv(Mint(s, m))
  {
    var u := Mint(s, m);
    TableFrame(s, u);
    SpoolFrame(s, u);
    assert forall t :: t in s.flights ==> GoodFlight(s, s.flights[t]);
    ReachFrame(s, u);
    hide TableInv, SpoolInv, ReachInv;
    assert forall uid :: InMatrix(u, uid) == InMatrix(s, uid);
    assert forall uid :: Spared(s, u, uid);
    SafeFrame(s, u);
  }

  lemma InsertKeeps(s: Sys, t: Tid, m: Message, id: int, fault: Fault)
    requires DataInv(s) && Known(s, m) && id !in s.usedIds
    ensures DataInv(InsertText(s, t, m, id, fault))
    ensures !fault.FailsUndone? ==> Landed(InsertText(s, t, m, id, fault), m.text.uid)
  {
    var u := InsertText(s, t, m, id, fault);
    InsertTable(s, t, m, id, fault);
    InsertReach(s, t, m, id, fault);
    SpoolFrame(s, u);
    InsertLands(s, t, m, id, fault);
    hide TableInv, SpoolInv, ReachInv, Landed, Held, Keeps;
    assert forall uid :: Spared(s, u, uid);
    SafeFrame(s, u);
  }

  /** What a step promises besides the data: acknowledged, drained and renamed texts. */
  lemma PromiseKeeps(s: Sys, u: Sys)
    requires DataInv(s) && u == s.(acked := u.acked, drained := u.drained, renamed := u.renamed)
    requires forall uid :: uid in u.acked ==> uid in s.acked || Safe(s, uid)
    requires forall name, uid :: name in u.drained && NamedFor(name, uid) ==> name in s.drained || Landed(s, uid)
    requires forall t :: t in u.renamed ==>
      || (t in s.renamed && u.renamed[t] == s.renamed[t])
      || Landed(s, u.renamed[t].uid) || Keeps(s.disk.files, s.disk.dir, u.renamed[t].uid)
    ensures DataInv(u)
  {
    assert forall uid :: InMatrix(u, uid) == InMatrix(s, uid);
    assert forall uid :: Landed(u, uid) == Landed(s, uid);
    TableFrame(s, u);
    SpoolFrame(s, u);
    assert forall t :: t in s.flights ==> GoodFlight(s, s.flights[t]);
    ReachFrame(s, u);
    hide TableInv, SpoolInv, ReachInv, Landed, Held, Keeps, NamedFor;
    assert forall uid :: Safe(u, uid) == Safe(s, uid);
    assert forall uid :: Spared(s, u, uid);
    SafeFrame(s, u);
  }

  lemma PersistInsertKeeps(s: Sys, t: Tid, uid: string, id: int, fault: Fault)
    requires DataInv(s) && Enabled(s, APersistInsert(t, uid, id, fault))
    ensures DataInv(PersistInsert(s, t, uid, id, fault))
  {
    assert Known(s, s.texts[uid]) && s.texts[uid].text.uid == uid;
    InsertKeeps(s, t, s.texts[uid], id, fault);
    hide DataInv, Landed, Held;
    PromiseKeeps(InsertText(s, t, s.texts[uid], id, fault), PersistInsert(s, t, uid, id, fault));
  }

  lemma DrainInsertKeeps(s: Sys, name: string, id: int, fault: Fault)
    requires DataInv(s) && Enabled(s, ADrainInsert(name, id, fault))
    ensures DataInv(DrainInsert(s, name, id, fault))
  {
    FileKnown(s, name);
    var m := FileText(s.disk, name);
    InsertKeeps(s, DRAINER, m, id, fault);
    forall uid | NamedFor(name, uid) ensures uid == m.text.uid {
      NamedForOne(name, uid, m.text.uid);
    }
    hide DataInv, Landed, Held, NamedFor;
    PromiseKeeps(InsertText(s, DRAINER, m, id, fault), DrainInsert(s, name, id, fault));
  }

  /** A step of the spool, without what it promises. */
  lemma DiskKeeps(s: Sys, d: DiskStep)
    requires DataInv(s) && CanDo(s.disk, d)
    requires d.CreateTemp? || d.FillTemp? ==> IsSpoolStep(s, d)
    requires d.RemoveFile? ==> d.name in s.drained
    ensures DataInv(s.(disk := Do(s.disk, d)))
  {
    var u := s.(disk := Do(s.disk, d));
    SpoolStepKnown(s, d);
    DiskSpares(s, u, d);
    TableFrame(s, u);
    assert forall t :: t in s.flights ==> GoodFlight(s, s.flights[t]);
    ReachFrame(s, u);
    hide TableInv, SpoolInv, ReachInv, Landed, Held, Keeps, CanDo, Do;
    SafeFrame(s, u);
  }

  lemma RenameKeeps(s: Sys, t: Tid, name: string)
    requires DataInv(s) && Enabled(s, ASpoolRename(t, name))
    ensures DataInv(SpoolRename(s, t, name))
  {
    DiskKeeps(s, RenameTemp(t, name));
    RenameShows(s.disk, t, name);
    hide DataInv, Landed, Held, Keeps, CanDo;
    PromiseKeeps(s.(disk := Do(s.disk, RenameTemp(t, name))), SpoolRename(s, t, name));
  }

  lemma FsyncKeeps(s: Sys, t: Tid, ok: bool)
    requires DataInv(s) && Enabled(s, ASpoolFsync(t, ok))
    ensures DataInv(SpoolFsync(s, t, ok))
  {
    if ok {
      var uid := s.renamed[t].uid;
      var v := s.(disk := Do(s.disk, FsyncDir));
      DiskKeeps(s, FsyncDir);
      DiskSpares(s, v, FsyncDir);
      assert Safe(v, uid) by {
        assert Spared(s, v, uid);
        if !Landed(s, uid) {
          SyncDirHeld(s.disk, uid);
        }
      }
      hide DataInv, Landed, Held, Keeps;
      PromiseKeeps(v, SpoolFsync(s, t, ok));
    } else {
      PromiseKeeps(s, SpoolFsync(s, t, ok));
    }
  }

  /** Steps on flights, snapshots and portals, without table and Matrix. */
  lemma VolatileKeeps(s: Sys, u: Sys)
    requires DataInv(s)
    requires u == s.(snapshots := u.snapshots, portals := u.portals, sem := u.sem, flights := u.flights, did := u.did)
    requires forall t :: t in u.flights ==> GoodFlight(s, u.flights[t])
    requires forall t, r :: t in u.snapshots && r in u.snapshots[t] ==> r in s.inserted
    ensures DataInv(u)
  {
    assert forall uid :: InMatrix(u, uid) == InMatrix(s, uid);
    TableFrame(s, u);
    SpoolFrame(s, u);
    assert ReachInv(u);
    hide TableInv, SpoolInv, ReachInv, GoodFlight;
    assert forall uid :: Spared(s, u, uid);
    SafeFrame(s, u);
  }

  /** What a step on flights, snapshots and portals can rely on. */
  lemma VolatileFacts(s: Sys)
    requires DataInv(s)
    ensures forall t :: t in s.flights ==> GoodFlight(s, s.flights[t])
    ensures forall t, r :: t in s.snapshots && r in s.snapshots[t] ==> r in s.inserted
    ensures forall r :: r in s.table ==> r in s.inserted
  {
  }

  lemma NoteKeeps(s: Sys, t: Tid, e: Event)
    requires DataInv(s)
    ensures DataInv(Note(s, t, e))
  {
    hide DataInv, GoodFlight;
    VolatileFacts(s);
    VolatileKeeps(s, Note(s, t, e));
  }

  lemma ReadHeadsKeeps(s: Sys, t: Tid, limit: nat)
    requires DataInv(s) && Enabled(s, AReadHeads(t, limit))
    ensures DataInv(ReadHeads(s, t, limit))
  {
    hide DataInv, Heads, GoodFlight, IsHead;
    VolatileFacts(s);
    HeadsAreHeads(s.table, limit);
    VolatileKeeps(s, ReadHeads(s, t, limit));
  }

  lemma {:induction false} AddedFlights(fs: map<Tid, Flight>, tids: seq<Tid>, rows: seq<Row>)
    requires |tids| == |rows| && Fresh(fs, tids)
    ensures var gs := AddFlights(fs, tids, rows);
            && (forall t :: t in gs <==> t in fs || t in tids)
            && (forall t :: t in fs ==> gs[t] == fs[t])
            && (forall i :: 0 <= i < |tids| ==> gs[tids[i]] == Flight(KeyOf(rows[i].text), rows[i], Delivering))
            && |gs| == |fs| + |tids|
  {
    if tids != [] {
      var n := |tids| - 1;
      FreshFront(fs, tids);
      AddedFlights(fs, tids[..n], rows[..n]);
      var hs := AddFlights(fs, tids[..n], rows[..n]);
      var f := Flight(KeyOf(rows[n].text), rows[n], Delivering);
      assert AddFlights(fs, tids, rows) == hs[tids[n] := f];
      hide AddFlights, Fresh, KeyOf;
      forall i | 0 <= i < n
        ensures hs[tids[i]] == Flight(KeyOf(rows[i].text), rows[i], Delivering) && tids[i] != tids[n]
      {
        assert tids[..n][i] == tids[i] && rows[..n][i] == rows[i];
      }
    }
  }

  lemma FreshFront(fs: map<Tid, Flight>, tids: seq<Tid>)
    requires tids != [] && Fresh(fs, tids)
    ensures var n := |tids| - 1;
            && Fresh(fs, tids[..n]) && tids[n] !in fs && tids[n] !in tids[..n]
            && forall t :: t in tids <==> t in tids[..n] || t == tids[n]
  {
    var n := |tids| - 1;
    assert tids == tids[..n] + [tids[n]];
  }

  lemma SpawnedGood(s: Sys, rows: seq<Row>, tids: seq<Tid>)
    requires |tids| == |rows| && Fresh(s.flights, tids)
    requires forall t :: t in s.flights ==> GoodFlight(s, s.flights[t])
    requires forall r :: r in rows ==> r in s.inserted
    ensures forall t :: t in AddFlights(s.flights, tids, rows) ==> GoodFlight(s, AddFlights(s.flights, tids, rows)[t])
  {
    AddedFlights(s.flights, tids, rows);
    var fs := AddFlights(s.flights, tids, rows);
    hide AddFlights, Fresh;
    forall k | k in fs ensures GoodFlight(s, fs[k]) {
      if k !in s.flights {
        var i :| 0 <= i < |tids| && tids[i] == k;
        assert rows[i] in rows;
      }
    }
  }

  lemma RunPassKeeps(s: Sys, t: Tid, now: int, stop: nat, tids: seq<Tid>)
    requires DataInv(s) && Enabled(s, ARunPass(t, now, stop, tids))
    ensures DataInv(RunPass(s, t, now, stop, tids))
  {
    hide DataInv, PassEnd, AddFlights, GoodFlight, Starts, Fresh;
    VolatileFacts(s);
    PassStarts(s.portals, s.sem, s.snapshots[t], stop, now);
    SpawnedGood(s, Pass(s, t, now, stop).spawned, tids);
    VolatileKeeps(s, RunPass(s, t, now, stop, tids));
  }

  lemma PhaseKeeps(s: Sys, t: Tid, p: Phase)
    requires DataInv(s) && t in s.flights
    requires p == Delivered || p == RowGone ==> InMatrix(s, s.flights[t].row.text.uid)
    ensures DataInv(WithPhase(s, t, p))
  {
    hide DataInv;
    VolatileFacts(s);
    VolatileKeeps(s, WithPhase(s, t, p));
  }

  lemma FlightText(s: Sys, t: Tid)
    requires TableInv(s) && ReachInv(s) && t in s.flights
    ensures var x := s.flights[t].row.text; x.uid in s.texts && s.texts[x.uid].text == x
  {
    assert GoodFlight(s, s.flights[t]) && KnownRow(s, s.flights[t].row);
  }

  lemma FlightArrives(s: Sys, t: Tid)
    requires TableInv(s) && ReachInv(s) && t in s.flights
    ensures var u := Arrive(s, s.flights[t].row.text);
            && ReachInv(u) && InMatrix(u, s.flights[t].row.text.uid) && u == s.(matrix := u.matrix)
            && forall uid :: InMatrix(s, uid) ==> InMatrix(u, uid)
  {
    FlightText(s, t);
    ArriveReach(s, s.flights[t].row.text);
  }

  lemma ArriveKeeps(s: Sys, t: Tid)
    requires DataInv(s) && t in s.flights
    ensures var x := s.flights[t].row.text; DataInv(Arrive(s, x)) && InMatrix(Arrive(s, x), x.uid)
  {
    hide TableInv, SpoolInv, ReachInv, InMatrix, Arrive, SafeInv;
    FlightArrives(s, t);
    var u := Arrive(s, s.flights[t].row.text);
    TableFrame(s, u);
    SpoolFrame(s, u);
    ArriveSafe(s, u);
  }

  lemma ArriveSafe(s: Sys, u: Sys)
    requires SafeInv(s) && u == s.(matrix := u.matrix) && forall uid :: InMatrix(s, uid) ==> InMatrix(u, uid)
    ensures SafeInv(u)
  {
    hide InMatrix;
    assert forall uid :: Spared(s, u, uid);
    SafeFrame(s, u);
  }

  lemma DeliverKeeps(s: Sys, t: Tid, reached: bool, ok: bool)
    requires DataInv(s) && Enabled(s, ADeliver(t, reached, ok))
    ensures DataInv(Deliver(s, t, reached, ok))
  {
    var u := if reached then Arrive(s, s.flights[t].row.text) else s;
    ArriveKeeps(s, t);
    hide DataInv;
    PhaseKeeps(u, t, if ok then Delivered else Failed);
  }

  lemma DeleteOnlyKeeps(s: Sys, t: Tid)
    requires DataInv(s) && InPhase(s, t, Delivered)
    ensures DataInv(s.(table := Deleted(s.table, s.flights[t].row.id)))
  {
    var v := s.(table := Deleted(s.table, s.flights[t].row.id));
    DeleteReach(s, t);
    TableFrame(s, v);
    SpoolFrame(s, v);
    hide TableInv, SpoolInv, ReachInv, Landed, Deleted;
    assert forall uid :: Spared(s, v, uid);
    SafeFrame(s, v);
  }

  lemma DeleteKeeps(s: Sys, t: Tid, fault: Fault)
    requires DataInv(s) && Enabled(s, ADeleteRow(t, fault))
    ensures DataInv(DeleteRow(s, t, fault))
  {
    var v := if fault.FailsUndone? then s else s.(table := Deleted(s.table, s.flights[t].row.id));
    DeleteOnlyKeeps(s, t);
    assert GoodFlight(s, s.flights[t]);
    assert InMatrix(s, s.flights[t].row.text.uid) && InMatrix(v, s.flights[t].row.text.uid);
    hide DataInv, InMatrix, Deleted;
    PhaseKeeps(v, t, if fault == NoFault then RowGone else Failed);
  }

  lemma SettleKeeps(s: Sys, t: Tid, cancelled: bool, retryAt: int)
    requires DataInv(s) && t in s.flights
    ensures DataInv(Settle(s, t, cancelled, retryAt))
  {
    hide DataInv, Settled, StateOf;
    PhaseKeeps(s, t, Leaving);
    var v := WithPhase(s, t, Leaving);
    VolatileFacts(v);
    VolatileKeeps(v, Settle(s, t, cancelled, retryAt));
  }

  lemma LeaveKeeps(s: Sys, t: Tid)
    requires DataInv(s) && s.sem > 0
    ensures DataInv(Leave(s, t))
  {
    hide DataInv;
    VolatileFacts(s);
    VolatileKeeps(s, Leave(s, t));
  }

  /** A crash loses nothing that was acknowledged. */
  lemma RestartKeeps(s: Sys, e: Disk)
    requires DataInv(s) && Crash(s.disk, e)
    ensures DataInv(Restart(s, e))
  {
    var u := Restart(s, e);
    TableFrame(s, u);
    RestartSpool(s, e);
    ReachFrame(s, u);
    CrashKeeps(s.disk, e);
    assert forall uid :: InMatrix(u, uid) == InMatrix(s, uid);
    assert forall uid :: Landed(u, uid) == Landed(s, uid);
    hide TableInv, SpoolInv, ReachInv, Landed, Held, Crash;
    forall uid | uid in s.acked ensures Safe(u, uid) {
      assert Safe(s, uid);
    }
  }

  lemma EffectData(s: Sys, a: Step)
    requires DataInv(s) && Enabled(s, a)
    ensures DataInv(Effect(s, a))
  {
    hide DataInv, Mint, PersistInsert, DrainInsert, SpoolRename, SpoolFsync, ReadHeads, RunPass, Deliver, DeleteRow,
         Settle, Leave, Restart, CanDo, Crash, Ordered, Harmless;
    match a
    case AMint(m) => MintKeeps(s, m);
    case APersistInsert(t, uid, id, fault) => PersistInsertKeeps(s, t, uid, id, fault);
    case ASpool(d) => DiskKeeps(s, d);
    case ASpoolRename(t, name) => RenameKeeps(s, t, name);
    case ASpoolFsync(t, ok) => FsyncKeeps(s, t, ok);
    case ADrainInsert(name, id, fault) => DrainInsertKeeps(s, name, id, fault);
    case ADrainRemove(name) => DiskKeeps(s, RemoveFile(name));
    case AReadHeads(t, limit) => ReadHeadsKeeps(s, t, limit);
    case ARunPass(t, now, stop, tids) => RunPassKeeps(s, t, now, stop, tids);
    case ADeliver(t, reached, ok) => DeliverKeeps(s, t, reached, ok);
    case ADeleteRow(t, fault) => DeleteKeeps(s, t, fault);
    case ASettle(t, cancelled, retryAt) => SettleKeeps(s, t, cancelled, retryAt);
    case ALeave(t) => LeaveKeeps(s, t);
    case ANote(_, _) =>
    case ARestart(e) => RestartKeeps(s, e);
  }

  lemma StepData(s: Sys, a: Step)
    requires DataInv(s) && Enabled(s, a)
    ensures DataInv(Next(s, a))
  {
    hide DataInv, Effect, Enabled, Logged, By, Note;
    EffectData(s, a);
    if Logs(a) {
      NoteKeeps(Effect(s, a), By(a), Logged(s, a));
    }
  }

  /** What is noted changes nothing else. */
  lemma OnlyNoted(s: Sys, a: Step)
    requires Enabled(s, a)
    ensures var u := Next(s, a); u == Effect(s, a).(did := u.did)
  {
    hide Effect, Enabled, Logged, By;
  }

  // ---- Deliveries in flight

  lemma InitFlights()
    ensures FlightInv(INIT)
  {
  }

  lemma PhaseFlights(s: Sys, t: Tid, p: Phase)
    requires FlightInv(s) && t in s.flights && s.flights[t].phase != Leaving && p != Leaving
    ensures FlightInv(WithPhase(s, t, p))
  {
    var u := WithPhase(s, t, p);
    assert u.flights.Keys == s.flights.Keys;
    assert |u.flights| == |u.flights.Keys| && |s.flights| == |s.flights.Keys|;
    forall k, j ensures Holds(u, j, k) == Holds(s, j, k) {
    }
    SameHolders(s, u);
  }

  lemma SameHolders(s: Sys, u: Sys)
    requires FlightInv(s) && u.portals == s.portals && u.sem == s.sem && |u.flights| == |s.flights|
    requires forall t, k :: Holds(u, t, k) == Holds(s, t, k)
    ensures FlightInv(u)
  {
    hide Holds;
    forall k ensures StateOf(u.portals, k).busy <==> exists t :: Holds(u, t, k) {
      if StateOf(u.portals, k).busy {
        var t :| Holds(s, t, k);
        assert Holds(u, t, k);
      }
    }
  }

  /** The state of a portal whose delivery failed is there to be updated. */
  lemma FailedPortalKnown(s: Sys, t: Tid)
    requires FlightInv(s) && t in s.flights && s.flights[t].phase != Leaving
    ensures s.flights[t].key in s.portals && s.portals[s.flights[t].key].busy
  {
    assert Holds(s, t, s.flights[t].key);
    assert StateOf(s.portals, s.flights[t].key).busy;
  }

  lemma SettleFlights(s: Sys, t: Tid, cancelled: bool, retryAt: int)
    requires FlightInv(s) && Enabled(s, ASettle(t, cancelled, retryAt))
    ensures FlightInv(Settle(s, t, cancelled, retryAt))
  {
    var u := Settle(s, t, cancelled, retryAt);
    var key := s.flights[t].key;
    assert u.flights.Keys == s.flights.Keys;
    assert |u.flights| == |u.flights.Keys| && |s.flights| == |s.flights.Keys|;
    assert Holds(s, t, key);
    forall j, k ensures Holds(u, j, k) <==> Holds(s, j, k) && j != t {
    }
    forall k ensures StateOf(u.portals, k).busy <==> exists j :: Holds(u, j, k) {
      if k == key {
        assert !StateOf(u.portals, k).busy;
      } else {
        assert StateOf(u.portals, k) == StateOf(s.portals, k);
        if StateOf(s.portals, k).busy {
          var j :| Holds(s, j, k);
          assert Holds(u, j, k);
        }
      }
    }
  }

  lemma LeaveFlights(s: Sys, t: Tid)
    requires FlightInv(s) && Enabled(s, ALeave(t))
    ensures FlightInv(Leave(s, t))
  {
    var u := Leave(s, t);
    assert u.flights.Keys == s.flights.Keys - {t};
    assert |u.flights| == |u.flights.Keys| && |s.flights| == |s.flights.Keys|;
    forall k, j ensures Holds(u, j, k) == Holds(s, j, k) {
    }
    forall k ensures StateOf(u.portals, k).busy <==> exists j :: Holds(u, j, k) {
      if StateOf(u.portals, k).busy {
        var j :| Holds(s, j, k);
        assert Holds(u, j, k);
      }
    }
  }

  lemma RunPassFlights(s: Sys, t: Tid, now: int, stop: nat, tids: seq<Tid>)
    requires FlightInv(s) && Enabled(s, ARunPass(t, now, stop, tids))
    ensures FlightInv(RunPass(s, t, now, stop, tids))
  {
    hide PassEnd, AddFlights, FlightInv, Fresh, Starts;
    PassStarts(s.portals, s.sem, s.snapshots[t], stop, now);
    var p := Pass(s, t, now, stop);
    AddedFlights(s.flights, tids, p.spawned);
    NewHolders(s, RunPass(s, t, now, stop, tids), p, tids);
  }

  /** The flights of u are those of s and one for each row that the pass p spawned. */
  ghost predicate Spawns(s: Sys, u: Sys, p: Progress, tids: seq<Tid>) {
    && Fresh(s.flights, tids) && |tids| == |p.spawned|
    && Starts(s.portals, s.sem, p) && u.portals == p.portals && u.sem == p.sem
    && |u.flights| == |s.flights| + |tids|
    && (forall t :: t in u.flights <==> t in s.flights || t in tids)
    && (forall t :: t in s.flights ==> u.flights[t] == s.flights[t])
    && (forall i :: 0 <= i < |tids| ==>
          u.flights[tids[i]] == Flight(KeyOf(p.spawned[i].text), p.spawned[i], Delivering))
  }

  ghost predicate HoldsNew(p: Progress, tids: seq<Tid>, t: Tid, k: Key)
    requires |tids| == |p.spawned|
  {
    exists i :: 0 <= i < |tids| && tids[i] == t && KeyOf(p.spawned[i].text) == k
  }

  lemma HoldersSplit(s: Sys, u: Sys, p: Progress, tids: seq<Tid>)
    requires Spawns(s, u, p, tids)
    ensures forall t, k :: Holds(u, t, k) <==> Holds(s, t, k) || HoldsNew(p, tids, t, k)
  {
    hide Starts;
    forall t, k ensures Holds(u, t, k) <==> Holds(s, t, k) || HoldsNew(p, tids, t, k) {
      if t in tids {
        var i :| 0 <= i < |tids| && tids[i] == t;
      }
    }
  }

  lemma SpawnedHolds(p: Progress, tids: seq<Tid>, k: Key)
    requires |tids| == |p.spawned|
    ensures Spawned(p, k) <==> exists t :: HoldsNew(p, tids, t, k)
  {
    if Spawned(p, k) {
      var i :| 0 <= i < |p.spawned| && KeyOf(p.spawned[i].text) == k;
      assert HoldsNew(p, tids, tids[i], k);
    }
  }

  /** A pass starts nothing for a busy portal. */
  lemma BusyNotSpawned(before: map<Key, PortalState>, sem: nat, p: Progress, k: Key)
    requires Starts(before, sem, p) && StateOf(before, k).busy
    ensures !Spawned(p, k)
  {
    hide StateOf, KeyOf;
  }

  /** It starts one delivery for any other. */
  lemma SpawnedOnce(before: map<Key, PortalState>, sem: nat, p: Progress, tids: seq<Tid>, t: Tid, v: Tid, k: Key)
    requires Starts(before, sem, p) && |tids| == |p.spawned| && HoldsNew(p, tids, t, k) && HoldsNew(p, tids, v, k)
    ensures t == v
  {
    hide StateOf, KeyOf, Spawned;
    var i :| 0 <= i < |tids| && tids[i] == t && KeyOf(p.spawned[i].text) == k;
    var j :| 0 <= j < |tids| && tids[j] == v && KeyOf(p.spawned[j].text) == k;
  }

  lemma SpawnedBusy(before: map<Key, PortalState>, sem: nat, p: Progress, k: Key)
    requires Starts(before, sem, p)
    ensures StateOf(p.portals, k).busy <==> StateOf(before, k).busy || Spawned(p, k)
  {
    hide StateOf, KeyOf, Spawned;
  }

  ghost predicate HeldOnce(s: Sys, k: Key) {
    && (StateOf(s.portals, k).busy <==> exists t :: Holds(s, t, k))
    && (forall t, u :: Holds(s, t, k) && Holds(s, u, k) ==> t == u)
  }

  lemma AllHeldOnce(s: Sys)
    requires s.sem == |s.flights| && s.sem <= MAX_PARALLEL && forall k :: HeldOnce(s, k)
    ensures FlightInv(s)
  {
    hide Holds, StateOf;
    forall k ensures StateOf(s.portals, k).busy <==> exists t :: Holds(s, t, k) {
      assert HeldOnce(s, k);
    }
    forall t, u, k | Holds(s, t, k) && Holds(s, u, k) ensures t == u {
      assert HeldOnce(s, k);
    }
  }

  lemma NewBusy(s: Sys, u: Sys, p: Progress, tids: seq<Tid>, k: Key)
    requires FlightInv(s) && Starts(s.portals, s.sem, p) && |tids| == |p.spawned| && u.portals == p.portals
    requires forall t :: Holds(u, t, k) <==> Holds(s, t, k) || HoldsNew(p, tids, t, k)
    ensures HeldOnce(u, k)
  {
    hide Holds, HoldsNew, StateOf, Starts, Spawned;
    SpawnedHolds(p, tids, k);
    SpawnedBusy(s.portals, s.sem, p, k);
    if StateOf(s.portals, k).busy {
      BusyNotSpawned(s.portals, s.sem, p, k);
      var t :| Holds(s, t, k);
      assert Holds(u, t, k);
    } else {
      forall t, v | HoldsNew(p, tids, t, k) && HoldsNew(p, tids, v, k) ensures t == v {
        SpawnedOnce(s.portals, s.sem, p, tids, t, v, k);
      }
    }
  }

  lemma NewCount(s: Sys, u: Sys, p: Progress, tids: seq<Tid>)
    requires FlightInv(s) && Spawns(s, u, p, tids)
    ensures u.sem == |u.flights| && u.sem <= MAX_PARALLEL
  {
    hide Holds, StateOf;
  }

  lemma NewHolders(s: Sys, u: Sys, p: Progress, tids: seq<Tid>)
    requires FlightInv(s) && Spawns(s, u, p, tids)
    ensures FlightInv(u)
  {
    NewCount(s, u, p, tids);
    HoldersSplit(s, u, p, tids);
    hide Holds, StateOf, HoldsNew, Spawns, HeldOnce;
    forall k ensures HeldOnce(u, k) {
      NewBusy(s, u, p, tids, k);
    }
    AllHeldOnce(u);
  }

  lemma DeliverFlights(s: Sys, t: Tid, reached: bool, ok: bool)
    requires FlightInv(s) && Enabled(s, ADeliver(t, reached, ok))
    ensures FlightInv(Deliver(s, t, reached, ok))
  {
    hide FlightInv, InMatrix;
    var u := if reached then Arrive(s, s.flights[t].row.text) else s;
    VolatileSame(s, u);
    PhaseFlights(u, t, if ok then Delivered else Failed);
  }

  lemma DeleteFlights(s: Sys, t: Tid, fault: Fault)
    requires FlightInv(s) && Enabled(s, ADeleteRow(t, fault))
    ensures FlightInv(DeleteRow(s, t, fault))
  {
    hide FlightInv;
    var u := if fault.FailsUndone? then s else s.(table := Deleted(s.table, s.flights[t].row.id));
    VolatileSame(s, u);
    PhaseFlights(u, t, if fault == NoFault then RowGone else Failed);
  }

  lemma EffectIs(s: Sys, a: Step)
    requires Enabled(s, a)
    ensures match a
            case ARunPass(t, now, stop, tids) => Effect(s, a) == RunPass(s, t, now, stop, tids)
            case ADeliver(t, reached, ok) => Effect(s, a) == Deliver(s, t, reached, ok)
            case ADeleteRow(t, fault) => Effect(s, a) == DeleteRow(s, t, fault)
            case ASettle(t, cancelled, retryAt) => Effect(s, a) == Settle(s, t, cancelled, retryAt)
            case ALeave(t) => Effect(s, a) == Leave(s, t)
            case ARestart(e) => Effect(s, a) == Restart(s, e)
            case _ => true
  {
    hide RunPass, Settle, Leave, Deliver, DeleteRow, Restart, CanDo, Crash, Ordered, Do, Harmless;
  }

  lemma EffectFlights(s: Sys, a: Step)
    requires FlightInv(s) && Enabled(s, a)
    ensures FlightInv(Effect(s, a))
  {
    hide RunPass, Settle, Leave, Deliver, DeleteRow, Restart, CanDo, Crash, Ordered, Do, FlightInv, InMatrix, Effect,
         Readable, IsSpoolStep, Pass, Harmless;
    EffectIs(s, a);
    match a
    case ARunPass(t, now, stop, tids) => RunPassFlights(s, t, now, stop, tids);
    case ADeliver(t, reached, ok) => DeliverFlights(s, t, reached, ok);
    case ADeleteRow(t, fault) => DeleteFlights(s, t, fault);
    case ASettle(t, cancelled, retryAt) => SettleFlights(s, t, cancelled, retryAt);
    case ALeave(t) => LeaveFlights(s, t);
    case ARestart(e) => RestartFlights(s, e);
    case _ =>
      QuietStep(s, a);
      VolatileSame(s, Effect(s, a));
  }

  lemma StepFlights(s: Sys, a: Step)
    requires FlightInv(s) && Enabled(s, a)
    ensures FlightInv(Next(s, a))
  {
    hide FlightInv, Effect, Enabled, Next;
    EffectFlights(s, a);
    OnlyNoted(s, a);
    VolatileSame(Effect(s, a), Next(s, a));
  }

  /** The steps on the spool. */
  predicate OnSpool(a: Step) {
    a.ASpool? || a.ASpoolRename? || a.ASpoolFsync? || a.ADrainRemove?
  }

  /** The log is for Next to write. */
  lemma EffectQuiet(s: Sys, a: Step)
    requires Enabled(s, a) && Logs(a)
    ensures Effect(s, a).did == s.did
  {
    if OnSpool(a) {
      SpoolQuiet(s, a);
    } else {
      OtherQuiet(s, a);
    }
    hide Effect, Enabled;
  }

  lemma SpoolQuiet(s: Sys, a: Step)
    requires Enabled(s, a) && OnSpool(a)
    ensures Effect(s, a).did == s.did
  {
    hide Do, CanDo, Harmless, IsSpoolStep;
  }

  lemma OtherQuiet(s: Sys, a: Step)
    requires Enabled(s, a) && Logs(a) && !OnSpool(a)
    ensures Effect(s, a).did == s.did
  {
    hide Deleted, Heads, InsertText, InMatrix, StateOf, Settled, Readable, CanDo, Harmless, Ordered, IsSpoolStep;
  }

  ghost predicate SameFields(s: Sys, u: Sys) {
    u.portals == s.portals && u.sem == s.sem && u.flights == s.flights
  }

  /** The other steps do not touch the Queue's fields. */
  lemma QuietStep(s: Sys, a: Step)
    requires Enabled(s, a)
    requires !(a.ARunPass? || a.ADeliver? || a.ADeleteRow? || a.ASettle? || a.ALeave? || a.ARestart?)
    ensures SameFields(s, Effect(s, a))
  {
    if OnSpool(a) {
      SpoolFields(s, a);
    } else {
      QuietFields(s, a);
    }
    hide Enabled, Effect, SameFields;
  }

  lemma SpoolFields(s: Sys, a: Step)
    requires Enabled(s, a) && OnSpool(a)
    ensures SameFields(s, Effect(s, a))
  {
    hide Do, CanDo, Crash, Ordered, IsSpoolStep, Readable, Harmless, Pass, Fresh, InPhase;
  }

  lemma QuietFields(s: Sys, a: Step)
    requires Enabled(s, a) && !OnSpool(a)
    requires !(a.ARunPass? || a.ADeliver? || a.ADeleteRow? || a.ASettle? || a.ALeave? || a.ARestart?)
    ensures SameFields(s, Effect(s, a))
  {
    hide Do, CanDo, Crash, Ordered, Heads, IsSpoolStep, Readable, InsertText, FileText, Harmless, Pass, Fresh, InPhase;
  }

  lemma VolatileSame(s: Sys, u: Sys)
    requires FlightInv(s) && u.portals == s.portals && u.sem == s.sem && u.flights == s.flights
    ensures FlightInv(u)
  {
    assert forall t, k :: Holds(u, t, k) == Holds(s, t, k);
    SameHolders(s, u);
  }

  lemma RestartFlights(s: Sys, e: Disk)
    ensures FlightInv(Restart(s, e))
  {
  }
}
