/** Where the file of a Write is between its rename and the fsync of the directory, while the drain runs beside it. */
module QueueFiles {
  import opened Results
  import opened InboundTable
  import opened SpoolNames
  import opened SpoolDisk
  import opened QueueProtocol

  /** The directory shows the whole, synced message under the name. */
  ghost predicate Shows(d: Disk, n: string, m: Message) {
    n in d.dir && d.dir[n] in d.files && d.files[d.dir[n]] == File(Whole(m), true)
  }

  /** The text has a file under the name, or the drain has set it aside, or its row has been made. */
  ghost predicate Filed(s: Sys, f: Named) {
    && f.uid in s.texts && IsListed(f.name) && NamedFor(f.name, f.uid)
    && (Landed(s, f.uid) || Shows(s.disk, f.name, s.texts[f.uid]) || Shows(s.disk, f.name + BAD_SUFFIX, s.texts[f.uid]))
  }

  ghost predicate FiledInv(s: Sys) {
    forall t :: t in s.renamed ==> Filed(s, s.renamed[t])
  }

  /** Whatever a crash leaves of d, the whole message is under the name. */
  ghost predicate Durable(d: Disk, n: string, m: Message) {
    forall x :: Outcome(d, x) ==> n in x && x[n] in d.files && d.files[x[n]] == File(Whole(m), true)
  }

  /** The text is durable under the name, or set aside, or its row has been made. */
  ghost predicate Stored(s: Sys, name: string, m: Message) {
    Landed(s, m.text.uid) || Durable(s.disk, name, m) || Durable(s.disk, name + BAD_SUFFIX, m)
  }

  lemma SyncedDurable(d: Disk, n: string, m: Message)
    requires Shows(d, n, m)
    ensures Durable(SyncDir(d), n, m)
  {
    var e := SyncDir(d);
    forall x | Outcome(e, x) ensures x == d.dir {
      assert MayLeave(e.stable, [], x);
    }
  }

  /** The fsync of the directory makes durable what the rename showed. */
  lemma FsyncStores(s: Sys, t: Tid)
    requires FiledInv(s) && TableInv(s) && t in s.renamed
    ensures var f := s.renamed[t]; f.uid in s.texts && Stored(SpoolFsync(s, t, true), f.name, s.texts[f.uid])
  {
    var f, u := s.renamed[t], SpoolFsync(s, t, true);
    assert Filed(s, f) && u.disk == SyncDir(s.disk) && s.texts[f.uid].text.uid == f.uid;
    SameLanded(s, u);
    hide Landed, Shows, Durable, SyncDir, IsListed, NamedFor, SpoolFsync, TableInv;
    var m := s.texts[f.uid];
    if Shows(s.disk, f.name, m) {
      SyncedDurable(s.disk, f.name, m);
    } else if Shows(s.disk, f.name + BAD_SUFFIX, m) {
      SyncedDurable(s.disk, f.name + BAD_SUFFIX, m);
    }
  }

  /** The operation is not on the file n. */
  ghost predicate Elsewhere(a: DiskStep, n: string) {
    match a
    case RenameTemp(_, name) => name != n
    case RemoveFile(name) => name != n
    case SetAside(name) => name != n && name + BAD_SUFFIX != n
    case _ => true
  }

  lemma StillShows(d: Disk, a: DiskStep, n: string, m: Message)
    requires DiskInv(d) && CanDo(d, a) && Shows(d, n, m) && !IsTemp(n) && Elsewhere(a, n)
    ensures Shows(Do(d, a), n, m)
  {
    if a.FillTemp? || a.FsyncTemp? || a.RenameTemp? || a.DropTemp? {
      assert GoodTemp(d, a.t);
    }
  }

  lemma ListedEnd(n: string)
    requires IsListed(n)
    ensures !IsTemp(n) && !IsTemp(n + BAD_SUFFIX) && !IsListed(n + BAD_SUFFIX)
    ensures forall x :: x + BAD_SUFFIX != n
    ensures forall x :: x + BAD_SUFFIX == n + BAD_SUFFIX ==> x == n
  {
    var b := n + BAD_SUFFIX;
    assert n[|n| - 1] == 'n' && b[|b| - 1] == 'd' && b[|b| - 5..][4] == 'd';
    forall x ensures x + BAD_SUFFIX != n {
      assert (x + BAD_SUFFIX)[|x| + 3] == 'd';
    }
    forall x | x + BAD_SUFFIX == b ensures x == n {
      assert (x + BAD_SUFFIX)[..|x|] == x && b[..|n|] == n;
    }
    assert |n| >= 5 && n[..5] == b[..5];
  }

  /** The operations on the file itself keep it, unless its row has been made. */
  lemma OwnFile(s: Sys, a: DiskStep, f: Named)
    requires SpoolInv(s) && CanDo(s.disk, a) && f.uid in s.texts && IsListed(f.name) && NamedFor(f.name, f.uid)
    requires a.RenameTemp? || a.SetAside?
    requires a.name == f.name
    ensures var m := s.texts[f.uid]; var e := Do(s.disk, a);
            Shows(e, f.name, m) || Shows(e, f.name + BAD_SUFFIX, m)
  {
    if a.RenameTemp? {
      var p := s.disk.temps[a.t];
      PublishName(s.disk, a.t, a.name);
      TextFileName(s.disk.files, a.name, p.inode);
      NamedForOne(a.name, p.m.text.uid, f.uid);
    } else {
      FileKnown(s, a.name);
      NamedForOne(a.name, FileText(s.disk, a.name).text.uid, f.uid);
      ListedName(s.disk, a.name);
    }
  }

  lemma DiskFiled(s: Sys, a: DiskStep, f: Named)
    requires SpoolInv(s) && CanDo(s.disk, a) && Filed(s, f)
    requires forall uid :: a.RemoveFile? && NamedFor(a.name, uid) ==> Landed(s, uid)
    ensures Filed(s.(disk := Do(s.disk, a)), f)
  {
    var u := s.(disk := Do(s.disk, a));
    assert forall uid :: InMatrix(u, uid) == InMatrix(s, uid);
    assert forall uid :: Landed(u, uid) == Landed(s, uid);
    ListedEnd(f.name);
    hide Landed, DiskInv, Do, CanDo, IsListed, NamedFor, Shows, IsTemp, FilesKnown;
    if !Landed(s, f.uid) {
      if (a.RenameTemp? || a.SetAside?) && a.name == f.name {
        OwnFile(s, a, f);
      } else if Shows(s.disk, f.name, s.texts[f.uid]) {
        StillShows(s.disk, a, f.name, s.texts[f.uid]);
      } else {
        NotTheBadName(s.disk, a, f.name);
        StillShows(s.disk, a, f.name + BAD_SUFFIX, s.texts[f.uid]);
      }
    }
  }

  /** Only setting the file itself aside touches its name aside. */
  lemma NotTheBadName(d: Disk, a: DiskStep, n: string)
    requires CanDo(d, a) && IsListed(n) && !(a.SetAside? && a.name == n)
    ensures Elsewhere(a, n + BAD_SUFFIX)
  {
    ListedEnd(n);
    if a.RenameTemp? {
      PublishedListed(d, a.t, a.name);
    }
  }

  lemma PublishedListed(d: Disk, t: Tid, name: string)
    requires CanPublish(d, t, name)
    ensures IsListed(name)
  {
    var p := d.temps[t];
    var sq: nat :| name == FileName(p.m.receivedNs, sq, p.m.text.uid);
    NamesListed(p.m.receivedNs, sq, p.m.text.uid);
  }

  /** What other steps do to it. */
  lemma FiledFrame(s: Sys, u: Sys, f: Named)
    requires Filed(s, f) && u.disk == s.disk && MoreTexts(s, u) && (Landed(s, f.uid) ==> Landed(u, f.uid))
    ensures Filed(u, f)
  {
    hide Landed, NamedFor, IsListed, Shows;
  }

  /** Neither the file of a Write nor its text is touched, and what has landed stays so. */
  ghost predicate LeavesFiles(s: Sys, u: Sys) {
    && u.disk == s.disk && MoreTexts(s, u) && u.renamed == s.renamed
    && forall uid :: Landed(s, uid) ==> Landed(u, uid)
  }

  lemma FiledFrames(s: Sys, u: Sys)
    requires FiledInv(s) && LeavesFiles(s, u)
    ensures FiledInv(u)
  {
    hide Landed, Filed, MoreTexts;
    forall t | t in u.renamed ensures Filed(u, u.renamed[t]) {
      FiledFrame(s, u, u.renamed[t]);
    }
  }

  lemma DiskFiles(s: Sys, a: DiskStep)
    requires SpoolInv(s) && FiledInv(s) && CanDo(s.disk, a)
    requires forall uid :: a.RemoveFile? && NamedFor(a.name, uid) ==> Landed(s, uid)
    ensures FiledInv(s.(disk := Do(s.disk, a)))
  {
    hide SpoolInv, CanDo, Do, Filed, Landed, NamedFor;
    forall t | t in s.renamed ensures Filed(s.(disk := Do(s.disk, a)), s.renamed[t]) {
      DiskFiled(s, a, s.renamed[t]);
    }
  }

  lemma RenameFiles(s: Sys, t: Tid, name: string)
    requires DataInv(s) && FiledInv(s) && CanDo(s.disk, RenameTemp(t, name))
    ensures FiledInv(SpoolRename(s, t, name))
  {
    var u := SpoolRename(s, t, name);
    var v := s.(disk := Do(s.disk, RenameTemp(t, name)));
    DiskFiles(s, RenameTemp(t, name));
    assert forall uid :: InMatrix(u, uid) == InMatrix(v, uid);
    PublishedFiled(s, t, name);
    hide SpoolInv, TableInv, SafeInv, ReachInv, Do, CanDo, InMatrix, NamedFor, IsListed, Shows;
    forall k | k in u.renamed ensures Filed(u, u.renamed[k]) {
      assert k != t ==> Filed(v, s.renamed[k]);
    }
  }

  lemma PublishedFiled(s: Sys, t: Tid, name: string)
    requires SpoolInv(s) && CanDo(s.disk, RenameTemp(t, name))
    ensures Filed(SpoolRename(s, t, name), Named(name, s.disk.temps[t].m.text.uid))
  {
    RenameShows(s.disk, t, name);
    PublishedListed(s.disk, t, name);
    PublishName(s.disk, t, name);
    TextFileName(s.disk.files, name, s.disk.temps[t].inode);
  }

  lemma FsyncFiles(s: Sys, t: Tid, ok: bool)
    requires FiledInv(s) && t in s.renamed
    ensures FiledInv(SpoolFsync(s, t, ok))
  {
    var u := SpoolFsync(s, t, ok);
    SameLanded(s, u);
    hide Landed, NamedFor, IsListed;
    forall k | k in u.renamed ensures Filed(u, u.renamed[k]) {
      assert Filed(s, s.renamed[k]);
    }
  }

  /** A file is removed only once its text has landed. */
  lemma DrainedLanded(s: Sys, name: string)
    requires SafeInv(s) && name in s.drained
    ensures forall uid :: NamedFor(name, uid) ==> Landed(s, uid)
  {
  }

  lemma SameLanded(s: Sys, u: Sys)
    requires u.table == s.table && u.matrix == s.matrix
    ensures forall uid :: Landed(u, uid) == Landed(s, uid)
  {
    assert forall uid :: InMatrix(u, uid) == InMatrix(s, uid);
  }

  lemma ArriveLands(s: Sys, u: Sys, x: Sms)
    requires u.table == s.table && s.matrix <= u.matrix
    ensures forall uid :: Landed(s, uid) ==> Landed(u, uid)
  {
    forall uid | InMatrix(s, uid) ensures InMatrix(u, uid) {
      var y :| y in s.matrix && y.uid == uid;
      assert y in u.matrix;
    }
  }

  lemma InsertLeaves(s: Sys, u: Sys, t: Tid, m: Message, id: int, fault: Fault)
    requires var v := InsertText(s, t, m, id, fault);
             u.disk == v.disk && u.texts == v.texts && u.renamed == v.renamed && u.table == v.table
             && u.matrix == v.matrix
    ensures LeavesFiles(s, u)
  {
    InsertLands(s, t, m, id, fault);
    SameLanded(InsertText(s, t, m, id, fault), u);
    hide Landed, InsertText;
  }

  lemma DeliverLeaves(s: Sys, t: Tid, reached: bool, ok: bool)
    requires t in s.flights
    ensures LeavesFiles(s, Deliver(s, t, reached, ok))
  {
    var u := Deliver(s, t, reached, ok);
    hide InMatrix;
    ArriveLands(s, u, s.flights[t].row.text);
    hide Landed;
  }

  lemma DeleteLeaves(s: Sys, t: Tid, fault: Fault)
    requires DataInv(s) && InPhase(s, t, Delivered)
    ensures LeavesFiles(s, DeleteRow(s, t, fault))
  {
    var u := if fault.FailsUndone? then s else s.(table := Deleted(s.table, s.flights[t].row.id));
    DeleteReach(s, t);
    DeletedLeaves(s, u, DeleteRow(s, t, fault));
  }

  lemma DeletedLeaves(s: Sys, v: Sys, u: Sys)
    requires forall uid :: Landed(s, uid) ==> Landed(v, uid)
    requires v == s.(table := v.table) && u == v.(flights := u.flights)
    ensures LeavesFiles(s, u)
  {
    SameLanded(v, u);
    hide Landed;
  }

  lemma QuietLeaves(s: Sys, u: Sys)
    requires u.disk == s.disk && MoreTexts(s, u) && u.renamed == s.renamed && u.table == s.table && u.matrix == s.matrix
    ensures LeavesFiles(s, u)
  {
    SameLanded(s, u);
  }

  /** Every step keeps the file of a Write where it is looked for. */
  lemma EffectFiled(s: Sys, a: Step)
    requires DataInv(s) && FiledInv(s) && Enabled(s, a)
    ensures FiledInv(Effect(s, a))
  {
    if OnSpool(a) {
      SpoolFiled(s, a);
    } else if !a.ARestart? {
      OthersLeave(s, a);
      hide DataInv, Effect, Enabled, Filed, Landed;
      FiledFrames(s, Effect(s, a));
    }
  }

  lemma SpoolFiled(s: Sys, a: Step)
    requires DataInv(s) && FiledInv(s) && Enabled(s, a) && OnSpool(a)
    ensures FiledInv(Effect(s, a))
  {
    assert SpoolInv(s) && SafeInv(s);
    hide DataInv, FiledInv, SpoolInv, SafeInv, CanDo, Do, Landed, NamedFor, SpoolRename, SpoolFsync;
    match a
    case ASpool(d) => DiskFiles(s, d);
    case ASpoolRename(t, name) => RenameFiles(s, t, name);
    case ASpoolFsync(t, ok) => FsyncFiles(s, t, ok);
    case ADrainRemove(name) =>
      DrainedLanded(s, name);
      DiskFiles(s, RemoveFile(name));
  }

  lemma OthersLeave(s: Sys, a: Step)
    requires DataInv(s) && Enabled(s, a) && !OnSpool(a) && !a.ARestart?
    ensures LeavesFiles(s, Effect(s, a))
  {
    hide DataInv, LeavesFiles, Landed, InsertText, Deliver, DeleteRow, RunPass, Settle, CanDo, Readable, FileText,
         Harmless, Ordered, Heads, Pass, Fresh, IsSpoolStep, InMatrix;
    match a
    case AMint(_) => QuietLeaves(s, Effect(s, a));
    case APersistInsert(t, uid, id, fault) => InsertLeaves(s, Effect(s, a), t, s.texts[uid], id, fault);
    case ADrainInsert(name, id, fault) => InsertLeaves(s, Effect(s, a), DRAINER, FileText(s.disk, name), id, fault);
    case ADeliver(t, reached, ok) => DeliverLeaves(s, t, reached, ok);
    case ADeleteRow(t, fault) => DeleteLeaves(s, t, fault);
    case ARunPass(t, now, stop, tids) => PassLeaves(s, t, now, stop, tids);
    case ASettle(t, cancelled, retryAt) => SettleLeaves(s, t, cancelled, retryAt);
    case AReadHeads(_, _) => QuietLeaves(s, Effect(s, a));
    case ALeave(_) => QuietLeaves(s, Effect(s, a));
    case ANote(_, _) => QuietLeaves(s, s);
  }

  lemma PassLeaves(s: Sys, t: Tid, now: int, stop: nat, tids: seq<Tid>)
    requires t in s.snapshots && |tids| == |Pass(s, t, now, stop).spawned|
    ensures LeavesFiles(s, RunPass(s, t, now, stop, tids))
  {
    hide AddFlights, Pass, LeavesFiles;
    QuietLeaves(s, RunPass(s, t, now, stop, tids));
  }

  lemma SettleLeaves(s: Sys, t: Tid, cancelled: bool, retryAt: int)
    requires t in s.flights
    ensures LeavesFiles(s, Settle(s, t, cancelled, retryAt))
  {
    hide LeavesFiles;
    QuietLeaves(s, Settle(s, t, cancelled, retryAt));
  }

  lemma StepFiled(s: Sys, a: Step)
    requires DataInv(s) && FiledInv(s) && Enabled(s, a)
    ensures FiledInv(Next(s, a))
  {
    hide DataInv, FiledInv, Effect, Enabled, Next;
    EffectFiled(s, a);
    OnlyNoted(s, a);
    QuietLeaves(Effect(s, a), Next(s, a));
    FiledFrames(Effect(s, a), Next(s, a));
  }
}
