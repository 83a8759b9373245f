/** What one thread of the queue may rely on while the others run: any steps of theirs leave its own temporary
    file, its snapshot and its delivery alone, and never undo what has been promised or delivered. */
module QueueThreads {
  import opened Results
  import opened InboundTable
  import opened SpoolNames
  import opened SpoolDisk
  import opened DeliverPass
  import opened QueueProtocol
  import opened QueueRuns

  /** The steps lead from s to u. */
  ghost predicate Path(s: Sys, steps: seq<Step>, u: Sys)
    decreases |steps|
  {
    if steps == [] then u == s
    else Enabled(s, steps[0]) && Path(Next(s, steps[0]), steps[1..], u)
  }

  ghost predicate Reaches(s: Sys, u: Sys) {
    exists steps :: Path(s, steps, u)
  }

  predicate DiskStepBy(d: DiskStep, t: Tid) {
    match d
    case CreateTemp(u, _, _, _) => u == t
    case FillTemp(u, _) => u == t
    case FsyncTemp(u) => u == t
    case RenameTemp(u, _) => u == t
    case DropTemp(u, _) => u == t
    case RemoveFile(_) => t == DRAINER
    case SetAside(_) => t == DRAINER
    case FsyncDir => false
  }

  /** The step is one that only the thread t may take, starts t, or ends it with the process. */
  predicate StepBy(a: Step, t: Tid) {
    match a
    case APersistInsert(u, _, _, _) => u == t
    case ASpool(d) => DiskStepBy(d, t)
    case ASpoolRename(u, _) => u == t
    case ASpoolFsync(u, _) => u == t
    case ADrainInsert(_, _, _) => t == DRAINER
    case ADrainRemove(_) => t == DRAINER
    case AReadHeads(u, _) => u == t
    case ARunPass(u, _, _, tids) => u == t || t in tids
    case ADeliver(u, _, _) => u == t
    case ADeleteRow(u, _) => u == t
    case ASettle(u, _, _) => u == t
    case ALeave(u) => u == t
    case ANote(u, _) => u == t
    case ARestart(_) => true
    case _ => false
  }

  /** A step that the thread t may take: it is left to t by all others, but for those that it starts. */
  ghost predicate OwnStep(a: Step, t: Tid) {
    forall u :: StepBy(a, u) ==> u == t || (a.ARunPass? && u in a.tids)
  }

  ghost predicate Interleaved(s: Sys, u: Sys, t: Tid) {
    exists steps :: Path(s, steps, u) && forall a :: a in steps ==> !StepBy(a, t)
  }

  ghost predicate SameAt<V>(a: map<Tid, V>, b: map<Tid, V>, t: Tid) {
    (t in a <==> t in b) && (t in a ==> a[t] == b[t])
  }

  /** The temporary file of t is as it was. */
  ghost predicate SameTemp(d: Disk, e: Disk, t: Tid) {
    && SameAt(d.temps, e.temps, t)
    && (t in d.temps && d.temps[t].inode in d.files ==>
          d.temps[t].inode in e.files && e.files[d.temps[t].inode] == d.files[d.temps[t].inode])
  }

  /** No file that waits to be drained goes away. */
  ghost predicate SameListed(d: Disk, e: Disk) {
    forall n :: IsListed(n) && n in d.dir ==> n in e.dir
  }

  ghost predicate Gone(s: Sys, id: int) {
    id in s.usedIds && forall r :: r in s.table ==> r.id != id
  }

  ghost predicate Mine(s: Sys, u: Sys, t: Tid) {
    && SameTemp(s.disk, u.disk, t) && (t == DRAINER ==> SameListed(s.disk, u.disk))
    && SameAt(s.renamed, u.renamed, t) && SameAt(s.snapshots, u.snapshots, t) && SameAt(s.flights, u.flights, t)
    && Did(u, t) == Did(s, t) && NoneBy(s, u, t)
  }

  /** No row that is in u and not yet in s is of t's making. */
  ghost predicate NoneBy(s: Sys, u: Sys, t: Tid) {
    forall i :: |s.makers| <= i < |u.makers| ==> u.makers[i] != t
  }

  /** What is never undone. */
  ghost predicate Grown(s: Sys, u: Sys) {
    && (forall uid :: uid in s.texts ==> uid in u.texts && u.texts[uid] == s.texts[uid])
    && s.acked <= u.acked && s.drained <= u.drained
    && s.matrix <= u.matrix && s.inserted <= u.inserted && s.makers <= u.makers
    && (forall id :: Gone(s, id) ==> Gone(u, id))
  }

  lemma DiskListed(d: Disk, a: DiskStep)
    requires DiskInv(d) && CanDo(d, a) && !a.RemoveFile? && !a.SetAside?
    ensures SameListed(d, Do(d, a))
  {
    if a.RenameTemp? || a.DropTemp? {
      assert GoodTemp(d, a.t);
    }
  }

  lemma DiskMine(d: Disk, a: DiskStep, t: Tid)
    requires DiskInv(d) && CanDo(d, a) && !DiskStepBy(a, t)
    ensures SameTemp(d, Do(d, a), t) && (t == DRAINER ==> SameListed(d, Do(d, a)))
  {
    if t == DRAINER {
      DiskListed(d, a);
    }
    if t in d.temps {
      assert GoodTemp(d, t);
    }
  }

  lemma PassMine(s: Sys, u: Tid, now: int, stop: nat, tids: seq<Tid>, t: Tid)
    requires Enabled(s, ARunPass(u, now, stop, tids)) && t != u && t !in tids
    ensures Mine(s, RunPass(s, u, now, stop, tids), t)
  {
    hide PassEnd, AddFlights, Fresh;
    AddedFlights(s.flights, tids, Pass(s, u, now, stop).spawned);
  }

  lemma EffectMine(s: Sys, a: Step, t: Tid)
    requires SpoolInv(s) && Enabled(s, a) && !StepBy(a, t)
    ensures Mine(s, Effect(s, a), t)
  {
    hide SpoolInv, Enabled, Effect, Mine;
    match a
    case ASpool(_) => SpoolMine(s, a, t);
    case ASpoolRename(_, _) => SpoolMine(s, a, t);
    case ASpoolFsync(_, _) => SpoolMine(s, a, t);
    case ADrainRemove(_) => SpoolMine(s, a, t);
    case _ => OtherMine(s, a, t);
  }

  lemma SpoolMine(s: Sys, a: Step, t: Tid)
    requires SpoolInv(s) && Enabled(s, a) && !StepBy(a, t)
    requires a.ASpool? || a.ASpoolRename? || a.ASpoolFsync? || a.ADrainRemove?
    ensures Mine(s, Effect(s, a), t)
  {
    hide DiskInv, Do, CanDo, FilesKnown, IsSpoolStep, SameTemp, SameListed;
    match a
    case ASpool(d) => DiskMine(s.disk, d, t);
    case ASpoolRename(u, name) => DiskMine(s.disk, RenameTemp(u, name), t);
    case ASpoolFsync(_, _) => SyncMine(s.disk, t);
    case ADrainRemove(name) => DiskMine(s.disk, RemoveFile(name), t);
  }

  lemma OtherMine(s: Sys, a: Step, t: Tid)
    requires Enabled(s, a) && !StepBy(a, t)
    requires !(a.ASpool? || a.ASpoolRename? || a.ASpoolFsync? || a.ADrainRemove?)
    ensures Mine(s, Effect(s, a), t)
  {
    hide AddFlights, Crash, InMatrix, InsertText, HasUID, Deleted, StateOf, Settled, Heads, Ordered, Fresh,
         RunPass, Readable, Known, FileText, CanDo, Do, SameTemp, SameListed, Pass, Harmless;
    SameDiskMine(s.disk, t);
    match a
    case APersistInsert(u, uid, id, fault) => InsertMine(s, u, s.texts[uid], id, fault, t);
    case ADrainInsert(name, id, fault) => InsertMine(s, DRAINER, FileText(s.disk, name), id, fault, t);
    case ARunPass(u, now, stop, tids) => PassMine(s, u, now, stop, tids, t);
    case ADeliver(_, _, _) => DeliverMine(s, a, t);
    case ADeleteRow(_, _) => DeliverMine(s, a, t);
    case ASettle(_, _, _) => DeliverMine(s, a, t);
    case _ =>
  }

  lemma DeliverMine(s: Sys, a: Step, t: Tid)
    requires Enabled(s, a) && !StepBy(a, t) && (a.ADeliver? || a.ADeleteRow? || a.ASettle?)
    ensures Mine(s, Effect(s, a), t)
  {
    hide InMatrix, Deleted, StateOf, Settled, SameTemp, SameListed, Harmless, Do, CanDo, Pass, IsSpoolStep, Fresh,
         Readable;
    SameDiskMine(s.disk, t);
    match a
    case ADeliver(_, _, _) =>
    case ADeleteRow(_, _) =>
    case ASettle(_, _, _) =>
  }

  lemma InsertMine(s: Sys, u: Tid, m: Message, id: int, fault: Fault, t: Tid)
    requires u != t
    ensures NoneBy(s, InsertText(s, u, m, id, fault), t)
  {
    hide Inserts;
  }

  /** No step of another thread touches what is mine. */
  lemma StepMine(s: Sys, a: Step, t: Tid)
    requires SpoolInv(s) && Enabled(s, a) && !StepBy(a, t)
    ensures Mine(s, Next(s, a), t)
  {
    if Logs(a) {
      NotBy(s, a, t);
    }
    hide SpoolInv, Enabled, Effect, Mine, Logged, By, StepBy;
    EffectMine(s, a, t);
    if Logs(a) {
      NotedMine(s, Effect(s, a), By(a), Logged(s, a), t);
    }
  }

  /** What a thread notes is its own step. */
  lemma NotBy(s: Sys, a: Step, t: Tid)
    requires Enabled(s, a) && !StepBy(a, t) && Logs(a)
    ensures By(a) != t
  {
    hide CanDo, Harmless, Readable, Ordered;
  }

  lemma NotedMine(s: Sys, u: Sys, v: Tid, e: Event, t: Tid)
    requires Mine(s, u, t) && v != t
    ensures Mine(s, Note(u, v, e), t)
  {
    hide SameTemp, SameListed, SameAt;
  }

  lemma SameDiskMine(d: Disk, t: Tid)
    ensures SameTemp(d, d, t) && SameListed(d, d)
  {
  }

  lemma SyncMine(d: Disk, t: Tid)
    requires DiskInv(d)
    ensures CanDo(d, FsyncDir) && SameTemp(d, Do(d, FsyncDir), t) && SameTemp(d, d, t)
    ensures SameListed(d, Do(d, FsyncDir)) && SameListed(d, d)
  {
    DiskMine(d, FsyncDir, t);
    DiskListed(d, FsyncDir);
  }

  /** No step but a restart undoes what has been promised, and none at all what has been delivered. */
  lemma StepGrown(s: Sys, a: Step)
    requires TableInv(s) && Enabled(s, a) && !a.ARestart?
    ensures Grown(s, Next(s, a))
  {
    hide TableInv, Enabled, Next, Gone;
    StepPromises(s, a);
    StepGone(s, a);
    StepDelivered(s, a);
  }

  ghost predicate Longer(s: Sys, u: Sys) {
    s.drained <= u.drained && s.matrix <= u.matrix && s.inserted <= u.inserted && s.makers <= u.makers
  }

  lemma StepDelivered(s: Sys, a: Step)
    requires Enabled(s, a) && !a.ARestart?
    ensures Longer(s, Next(s, a))
  {
    hide Effect, Enabled, Next, Longer;
    EffectDelivered(s, a);
    OnlyNoted(s, a);
    StillLonger(s, Effect(s, a), Next(s, a));
  }

  lemma StillLonger(s: Sys, u: Sys, v: Sys)
    requires Longer(s, u) && v == u.(did := v.did)
    ensures Longer(s, v)
  {
  }

  lemma EffectDelivered(s: Sys, a: Step)
    requires Enabled(s, a) && !a.ARestart?
    ensures Longer(s, Effect(s, a))
  {
    hide Do, CanDo, Ordered, Heads, IsSpoolStep, Readable, Known, FileText, Pass, AddFlights, InMatrix, StateOf,
         Settled, Deleted, InsertText, Arrive, Fresh, Harmless;
    match a
    case ADeliver(t, _, _) => ArriveMore(s, s.flights[t].row.text);
    case APersistInsert(t, uid, id, fault) => InsertMore(s, t, s.texts[uid], id, fault);
    case ADrainInsert(name, id, fault) => InsertMore(s, DRAINER, FileText(s.disk, name), id, fault);
    case _ =>
  }

  lemma InsertMore(s: Sys, t: Tid, m: Message, id: int, fault: Fault)
    ensures Longer(s, InsertText(s, t, m, id, fault))
  {
    hide HasUID;
  }

  lemma ArriveMore(s: Sys, x: Sms)
    ensures var u := Arrive(s, x);
            s.matrix <= u.matrix && u.drained == s.drained && u.inserted == s.inserted && u.makers == s.makers
  {
    hide InMatrix;
  }

  lemma StepGone(s: Sys, a: Step)
    requires Enabled(s, a)
    ensures forall id :: Gone(s, id) ==> Gone(Next(s, a), id)
  {
    hide Gone, Effect, Enabled, Next;
    NewRowsAreNew(s, a);
    OnlyNoted(s, a);
    SameTable(s, Effect(s, a), Next(s, a));
    GoneStays(s, Next(s, a));
  }

  ghost predicate OnlyNewRows(s: Sys, u: Sys) {
    s.usedIds <= u.usedIds && forall r :: r in u.table ==> r in s.table || r.id !in s.usedIds
  }

  lemma GoneStays(s: Sys, u: Sys)
    requires OnlyNewRows(s, u)
    ensures forall id :: Gone(s, id) ==> Gone(u, id)
  {
  }

  lemma SameTable(s: Sys, u: Sys, v: Sys)
    requires OnlyNewRows(s, u) && v == u.(did := v.did)
    ensures OnlyNewRows(s, v)
  {
  }

  /** A row that is not in the table yet has an id that was never given out. */
  lemma NewRowsAreNew(s: Sys, a: Step)
    requires Enabled(s, a)
    ensures OnlyNewRows(s, Effect(s, a))
  {
    hide Do, CanDo, Crash, Ordered, Heads, IsSpoolStep, Readable, Known, FileText, Pass, AddFlights, InMatrix,
         StateOf, Settled, Fresh, InsertText, Arrive, Deleted, OnlyNewRows, Harmless;
    SameTableOld(s, Effect(s, a));
    match a
    case APersistInsert(t, uid, id, fault) => InsertedIsNew(s, Effect(s, a), t, s.texts[uid], id, fault);
    case ADrainInsert(name, id, fault) => InsertedIsNew(s, Effect(s, a), DRAINER, FileText(s.disk, name), id, fault);
    case ADeliver(t, reached, ok) => ArriveTable(s, s.flights[t].row.text);
    case ADeleteRow(t, fault) => DeletedIsOld(s, Effect(s, a), s.flights[t].row.id);
    case _ =>
  }

  lemma SameTableOld(s: Sys, u: Sys)
    ensures u.table == s.table && u.usedIds == s.usedIds ==> OnlyNewRows(s, u)
  {
  }

  lemma InsertedIsNew(s: Sys, u: Sys, t: Tid, m: Message, id: int, fault: Fault)
    requires id !in s.usedIds
    requires var v := InsertText(s, t, m, id, fault); u.table == v.table && u.usedIds == v.usedIds
    ensures OnlyNewRows(s, u)
  {
    hide HasUID;
  }

  lemma DeletedIsOld(s: Sys, u: Sys, id: int)
    requires u.table == s.table || u.table == Deleted(s.table, id)
    requires u.usedIds == s.usedIds
    ensures OnlyNewRows(s, u)
  {
  }

  lemma ArriveTable(s: Sys, x: Sms)
    ensures var u := Arrive(s, x); u.table == s.table && u.usedIds == s.usedIds
  {
  }

  lemma {:induction false} PathKeeps(s: Sys, steps: seq<Step>, u: Sys)
    requires Inv(s) && Path(s, steps, u)
    ensures Inv(u)
    decreases |steps|
  {
    if steps != [] {
      hide Inv, Enabled, Next;
      StepKeeps(s, steps[0]);
      PathKeeps(Next(s, steps[0]), steps[1..], u);
    }
  }

  lemma {:induction false} PathJoin(s: Sys, a: seq<Step>, u: Sys, b: seq<Step>, v: Sys)
    requires Path(s, a, u) && Path(u, b, v)
    ensures Path(s, a + b, v)
    decreases |a|
  {
    hide Enabled, Next;
    if a == [] {
      assert a + b == b;
    } else {
      assert (a + b)[0] == a[0] && (a + b)[1..] == a[1..] + b;
      PathJoin(Next(s, a[0]), a[1..], u, b, v);
    }
  }

  lemma ReachesMore(s: Sys, u: Sys, v: Sys)
    requires Reaches(s, u) && Reaches(u, v)
    ensures Reaches(s, v)
  {
    hide Path;
    var a :| Path(s, a, u);
    var b :| Path(u, b, v);
    PathJoin(s, a, u, b, v);
  }

  lemma ReachesSelf(s: Sys)
    ensures Reaches(s, s)
  {
    assert Path(s, [], s);
  }

  /** One step of the thread itself. */
  lemma Steps(s: Sys, a: Step)
    requires Inv(s) && Enabled(s, a)
    ensures Inv(Next(s, a)) && Reaches(s, Next(s, a))
    ensures !a.ARestart? ==> Grown(s, Next(s, a))
  {
    assert Path(s, [a], Next(s, a)) by {
      hide Enabled, Next;
      assert [a][1..] == [];
    }
    hide Next, Enabled, Grown;
    StepKeeps(s, a);
    if !a.ARestart? {
      StepGrown(s, a);
    }
  }

  lemma {:induction false} PathMine(s: Sys, steps: seq<Step>, u: Sys, t: Tid)
    requires Inv(s) && Path(s, steps, u) && forall a :: a in steps ==> !StepBy(a, t)
    ensures Mine(s, u, t) && Grown(s, u)
    decreases |steps|
  {
    if steps != [] {
      hide Inv, Enabled, Next, Mine, Grown;
      var a := steps[0];
      StepKeeps(s, a);
      assert !StepBy(a, t);
      FirstStepMine(s, a, t);
      PathMine(Next(s, a), steps[1..], u, t);
      StillMine(s, Next(s, a), u, t);
    }
  }

  lemma GrownMore(s: Sys, u: Sys, v: Sys)
    requires Grown(s, u) && Grown(u, v)
    ensures Grown(s, v)
  {
    hide Gone;
  }

  lemma GrownSelf(s: Sys)
    ensures Grown(s, s)
  {
  }

  lemma StillMine(s: Sys, u: Sys, v: Sys, t: Tid)
    requires Mine(s, u, t) && Mine(u, v, t) && Grown(s, u) && Grown(u, v)
    ensures Mine(s, v, t) && Grown(s, v)
  {
    GrownMore(s, u, v);
    hide Grown;
  }

  lemma FirstStepMine(s: Sys, a: Step, t: Tid)
    requires Inv(s) && Enabled(s, a) && !StepBy(a, t)
    ensures Mine(s, Next(s, a), t) && Grown(s, Next(s, a))
  {
    hide Enabled, Next, Mine, Grown;
    StepMine(s, a, t);
    StepGrown(s, a);
  }

  /** What the thread t can rely on across any steps of the others. */
  lemma Rely(s: Sys, u: Sys, t: Tid)
    requires Inv(s) && Interleaved(s, u, t)
    ensures Inv(u) && Reaches(s, u) && Mine(s, u, t) && Grown(s, u)
  {
    hide Inv, Path, Mine, Grown;
    var steps :| Path(s, steps, u) && forall a :: a in steps ==> !StepBy(a, t);
    PathKeeps(s, steps, u);
    PathMine(s, steps, u, t);
  }
}
