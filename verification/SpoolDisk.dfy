/** The spool directory as a crash sees it: a volatile and a durable layer for every file and for the
    directory, and the steps that pkg/inbound/spool.go takes on them. */
module SpoolDisk {
  import opened Results
  import opened Text
  import opened InboundTable
  import opened SpoolNames

  /** What is in a file: the whole JSON of a message, or anything else. */
  datatype Content = Whole(m: Message) | Torn

  /** A crash leaves a file as it was written only if it was fsynced since. */
  datatype File = File(content: Content, synced: bool)

  type Dir = map<string, nat>

  /** A change of the directory. Each is atomic. */
  datatype DirOp = Link(name: string, inode: nat) | Move(src: string, dst: string, inode: nat) | Unlink(name: string)

  function Apply(d: Dir, op: DirOp): Dir {
    match op
    case Link(n, i) => d[n := i]
    case Move(s, n, i) => (d - {s})[n := i]
    case Unlink(n) => d - {n}
  }

  /** The temporary file a running Write owns, and the message it is writing. */
  datatype Temp = Temp(name: string, inode: nat, m: Message)

  /** dir is the directory as processes see it; stable is what its last fsync made durable, and pending the
      changes since. */
  datatype Disk = Disk(files: map<nat, File>, dir: Dir, stable: Dir, pending: seq<DirOp>, temps: map<Tid, Temp>)

  const EMPTY := Disk(map[], map[], map[], [], map[])

  ghost predicate SortedNames(names: seq<string>) {
    forall i, j :: 0 <= i < j < |names| ==> Less(names[i], names[j])
  }

  /** What List gives: the names of the directory that it returns, sorted. */
  ghost predicate IsListing(d: Disk, names: seq<string>) {
    SortedNames(names) && forall n :: n in names <==> n in d.dir && IsListed(n)
  }

  function Front(ops: seq<DirOp>): (r: seq<DirOp>)
    requires ops != []
    ensures |r| < |ops|
  {
    ops[..|ops| - 1]
  }

  function Back(ops: seq<DirOp>): DirOp
    requires ops != []
  {
    ops[|ops| - 1]
  }

  /** op reached the disk or did not. */
  ghost predicate MayStep(y: Dir, op: DirOp, x: Dir) {
    x == y || x == Apply(y, op)
  }

  /** x is a directory that a crash may leave: any of the pending changes may have reached the disk. */
  ghost predicate MayLeave(stable: Dir, ops: seq<DirOp>, x: Dir)
    decreases |ops|
  {
    if ops == [] then x == stable
    else exists y :: MayLeave(stable, Front(ops), y) && MayStep(y, Back(ops), x)
  }

  lemma MayLeaveMore(stable: Dir, ops: seq<DirOp>, op: DirOp, x: Dir)
    ensures MayLeave(stable, ops + [op], x) <==>
            exists y :: MayLeave(stable, ops, y) && MayStep(y, op, x)
  {
    assert Front(ops + [op]) == ops && Back(ops + [op]) == op;
  }

  ghost predicate Outcome(d: Disk, x: Dir) {
    MayLeave(d.stable, d.pending, x)
  }

  /** The file i holds a whole text that belongs under the name n. */
  ghost predicate IsTextFile(files: map<nat, File>, n: string, i: nat) {
    && i in files && files[i].synced && files[i].content.Whole?
    && NamedAfter(n, files[i].content.m.receivedNs, files[i].content.m.text.uid)
  }

  lemma TextFileName(files: map<nat, File>, n: string, i: nat)
    requires IsTextFile(files, n, i)
    ensures NamedFor(n, files[i].content.m.text.uid) && !IsTemp(n)
  {
    var m := files[i].content.m;
    NamedAfterIsFor(n, m.receivedNs, m.text.uid);
    NamedNotTemp(n, m.text.uid);
  }

  /** n may point to i: only the name of a temporary file points to one that is not a whole, synced text. */
  ghost predicate GoodEntry(files: map<nat, File>, n: string, i: nat) {
    i in files && (IsTemp(n) || IsTextFile(files, n, i))
  }

  ghost predicate GoodDir(files: map<nat, File>, x: Dir) {
    forall n :: n in x ==> GoodEntry(files, n, x[n])
  }

  ghost predicate GoodOp(files: map<nat, File>, op: DirOp) {
    match op
    case Link(n, i) => IsTemp(n) && i in files
    case Move(_, n, i) => IsTextFile(files, n, i)
    case Unlink(_) => true
  }

  /** No name but a temporary one can come to point to i. */
  ghost predicate Private(x: Dir, i: nat) {
    forall n :: n in x && x[n] == i ==> IsTemp(n)
  }

  ghost predicate PrivateOps(ops: seq<DirOp>, i: nat) {
    forall k :: 0 <= k < |ops| && ops[k].Move? ==> ops[k].inode != i
  }

  ghost predicate GoodTemp(d: Disk, t: Tid)
    requires t in d.temps
  {
    var p := d.temps[t];
    && p.inode in d.files && IsTemp(p.name)
    && p.name in d.dir && d.dir[p.name] == p.inode
    && Private(d.dir, p.inode) && Private(d.stable, p.inode) && PrivateOps(d.pending, p.inode)
  }

  ghost predicate DiskInv(d: Disk) {
    && Outcome(d, d.dir)
    && GoodDir(d.files, d.dir) && GoodDir(d.files, d.stable)
    && (forall k :: 0 <= k < |d.pending| ==> GoodOp(d.files, d.pending[k]))
    && (forall t :: t in d.temps ==> GoodTemp(d, t))
    && (forall t, u :: t in d.temps && u in d.temps && t != u ==> d.temps[t].inode != d.temps[u].inode)
  }

  function Change(d: Disk, op: DirOp): Disk {
    d.(dir := Apply(d.dir, op), pending := d.pending + [op])
  }

  /** os.CreateTemp, which takes a name nothing else has. */
  function Create(d: Disk, t: Tid, name: string, i: nat, m: Message): Disk {
    Change(d.(files := d.files[i := File(Torn, false)], temps := d.temps[t := Temp(name, i, m)]), Link(name, i))
  }

  ghost predicate CanCreate(d: Disk, t: Tid, name: string, i: nat) {
    t !in d.temps && IsTemp(name) && name !in d.dir && i !in d.files
  }

  /** A write to the temporary file, complete or not. */
  function Fill(d: Disk, t: Tid, c: Content): Disk
    requires t in d.temps
  {
    d.(files := d.files[d.temps[t].inode := File(c, false)])
  }

  /** fsync of the temporary file. */
  function SyncTemp(d: Disk, t: Tid): Disk
    requires t in d.temps && d.temps[t].inode in d.files
  {
    var i := d.temps[t].inode;
    d.(files := d.files[i := d.files[i].(synced := true)])
  }

  /** The rename that gives the temporary file its final name. */
  function Publish(d: Disk, t: Tid, name: string): Disk
    requires t in d.temps
  {
    Change(d.(temps := d.temps - {t}), Move(d.temps[t].name, name, d.temps[t].inode))
  }

  ghost predicate CanPublish(d: Disk, t: Tid, name: string) {
    && t in d.temps && d.temps[t].inode in d.files
    && d.files[d.temps[t].inode] == File(Whole(d.temps[t].m), true)
    && exists sq: nat :: name == FileName(d.temps[t].m.receivedNs, sq, d.temps[t].m.text.uid)
  }

  /** Write gives its temporary file up; os.Remove of it may fail. */
  function Drop(d: Disk, t: Tid, removed: bool): Disk
    requires t in d.temps
  {
    var e := d.(temps := d.temps - {t});
    if removed then Change(e, Unlink(d.temps[t].name)) else e
  }

  /** fsync of the directory. */
  function SyncDir(d: Disk): Disk {
    d.(stable := d.dir, pending := [])
  }

  function Remove(d: Disk, name: string): Disk {
    Change(d, Unlink(name))
  }

  function Quarantine(d: Disk, name: string): Disk
    requires name in d.dir
  {
    Change(d, Move(name, name + BAD_SUFFIX, d.dir[name]))
  }

  /** What a crash may leave: any outcome for the directory, anything in files that were not synced, and no
      running Write. */
  ghost predicate Crash(d: Disk, e: Disk) {
    && Outcome(d, e.dir) && e.stable == e.dir && e.pending == [] && e.temps == map[]
    && e.files.Keys == d.files.Keys
    && forall i :: i in d.files ==> if d.files[i].synced then e.files[i] == d.files[i] else !e.files[i].synced
  }

  lemma {:induction false} OutcomeGood(files: map<nat, File>, stable: Dir, ops: seq<DirOp>, x: Dir)
    requires GoodDir(files, stable) && MayLeave(stable, ops, x)
    requires forall k :: 0 <= k < |ops| ==> GoodOp(files, ops[k])
    ensures GoodDir(files, x)
    decreases |ops|
  {
    if ops != [] {
      var y :| MayLeave(stable, Front(ops), y) && MayStep(y, Back(ops), x);
      OutcomeGood(files, stable, Front(ops), y);
      assert GoodOp(files, Back(ops));
    }
  }

  lemma {:induction false} OutcomePrivate(stable: Dir, ops: seq<DirOp>, x: Dir, i: nat)
    requires Private(stable, i) && PrivateOps(ops, i) && MayLeave(stable, ops, x)
    requires forall k :: 0 <= k < |ops| && ops[k].Link? ==> IsTemp(ops[k].name)
    ensures Private(x, i)
    decreases |ops|
  {
    if ops != [] {
      var y :| MayLeave(stable, Front(ops), y) && MayStep(y, Back(ops), x);
      OutcomePrivate(stable, Front(ops), y, i);
    }
  }

  /** The text uid is whole under one of its names in x. */
  ghost predicate Keeps(files: map<nat, File>, x: Dir, uid: string) {
    exists n :: n in x && !IsTemp(n) && IsTextFile(files, n, x[n]) && files[x[n]].content.m.text.uid == uid
  }

  /** Whatever a crash leaves of d, the text uid is in it. */
  ghost predicate Held(d: Disk, uid: string) {
    forall x :: Outcome(d, x) ==> Keeps(d.files, x, uid)
  }

  /** Every file that List returns, now or after a crash, holds a whole message. */
  lemma ListedAreWhole(d: Disk, x: Dir, n: string)
    requires DiskInv(d) && Outcome(d, x) && n in x && IsListed(n)
    ensures IsTextFile(d.files, n, x[n])
  {
    OutcomeGood(d.files, d.stable, d.pending, x);
  }

  lemma InitDisk()
    ensures DiskInv(EMPTY)
  {
  }

  /** A change that a good operation makes keeps the invariant of directory and files. */
  lemma ChangeGood(d: Disk, op: DirOp)
    requires DiskInv(d) && GoodOp(d.files, op)
    requires var x := Apply(d.dir, op);
             forall t :: t in d.temps ==> d.temps[t].name in x && x[d.temps[t].name] == d.temps[t].inode
    requires op.Move? ==> forall t :: t in d.temps ==> d.temps[t].inode != op.inode
    ensures DiskInv(Change(d, op))
  {
    var e := Change(d, op);
    MayLeaveMore(d.stable, d.pending, op, e.dir);
    assert MayStep(d.dir, op, e.dir);
    assert GoodDir(e.files, e.dir);
    forall u | u in e.temps ensures GoodTemp(e, u) {
      assert GoodTemp(d, u);
    }
  }

  /** What a change does to the texts that are kept: it loses none but one whose own file it removes. */
  ghost predicate Spares(op: DirOp, uid: string) {
    match op
    case Link(n, _) => IsTemp(n)
    case Move(s, n, _) => IsTemp(s) || n == s + BAD_SUFFIX
    case Unlink(n) => IsTemp(n) || !NamedFor(n, uid)
  }

  lemma ApplyKeeps(files: map<nat, File>, x: Dir, op: DirOp, uid: string)
    requires GoodDir(files, x) && GoodOp(files, op) && Spares(op, uid) && Keeps(files, x, uid)
    ensures Keeps(files, Apply(x, op), uid)
  {
    var n :| n in x && !IsTemp(n) && IsTextFile(files, n, x[n]) && files[x[n]].content.m.text.uid == uid;
    var y := Apply(x, op);
    TextFileName(files, n, x[n]);
    if op.Move? && (n == op.dst || n == op.src) {
      TextFileName(files, op.dst, op.inode);
      var other := files[op.inode].content.m.text.uid;
      if n == op.dst {
        NamedForOne(n, uid, other);
      } else {
        NamedForBase(n, uid, other);
      }
      assert y[op.dst] == op.inode;
    } else {
      assert n in y && y[n] == x[n];
    }
  }

  lemma ChangeHeld(d: Disk, op: DirOp, uid: string)
    requires DiskInv(d) && GoodOp(d.files, op) && Held(d, uid) && Spares(op, uid)
    ensures Held(Change(d, op), uid)
  {
    var e := Change(d, op);
    forall x | Outcome(e, x) ensures Keeps(e.files, x, uid) {
      MayLeaveMore(d.stable, d.pending, op, x);
      var y :| MayLeave(d.stable, d.pending, y) && MayStep(y, op, x);
      assert Outcome(d, y);
      OutcomeGood(d.files, d.stable, d.pending, y);
      ApplyKeeps(d.files, y, op, uid);
    }
  }

  lemma NewFile(d: Disk, i: nat, f: File)
    requires DiskInv(d) && i !in d.files
    ensures DiskInv(d.(files := d.files[i := f]))
    ensures Private(d.dir, i) && Private(d.stable, i) && PrivateOps(d.pending, i)
    ensures forall t :: t in d.temps ==> d.temps[t].inode != i
    ensures forall uid :: Held(d, uid) ==> Held(d.(files := d.files[i := f]), uid)
  {
    var e := d.(files := d.files[i := f]);
    forall k | 0 <= k < |d.pending|
      ensures GoodOp(e.files, d.pending[k]) && (d.pending[k].Move? ==> d.pending[k].inode != i)
    {
      assert GoodOp(d.files, d.pending[k]);
    }
    forall n | n in d.dir ensures GoodEntry(e.files, n, d.dir[n]) && d.dir[n] != i {
      assert GoodEntry(d.files, n, d.dir[n]);
    }
    forall n | n in d.stable ensures GoodEntry(e.files, n, d.stable[n]) && d.stable[n] != i {
      assert GoodEntry(d.files, n, d.stable[n]);
    }
    forall u | u in e.temps ensures GoodTemp(e, u) && d.temps[u].inode != i {
      assert GoodTemp(d, u);
    }
    forall uid | Held(d, uid) ensures Held(e, uid) {
      forall x | Outcome(e, x) ensures Keeps(e.files, x, uid) {
        assert Outcome(d, x);
        var n :| n in x && !IsTemp(n) && IsTextFile(d.files, n, x[n]) && d.files[x[n]].content.m.text.uid == uid;
        assert IsTextFile(e.files, n, x[n]);
      }
    }
  }

  lemma CreateGood(d: Disk, t: Tid, name: string, i: nat, m: Message)
    requires DiskInv(d) && CanCreate(d, t, name, i)
    ensures DiskInv(Create(d, t, name, i, m))
  {
    var f := d.(files := d.files[i := File(Torn, false)]);
    NewFile(d, i, File(Torn, false));
    forall u | u in f.temps ensures f.temps[u].name != name {
      assert GoodTemp(f, u);
    }
    ChangeGood(f, Link(name, i));
    var g := Change(f, Link(name, i));
    var e := Create(d, t, name, i, m);
    assert e == g.(temps := e.temps);
    forall u | u in e.temps ensures GoodTemp(e, u) {
      assert u != t ==> GoodTemp(g, u);
    }
  }

  /** Files that only temporary names reach may change freely. */
  lemma PrivateChange(d: Disk, t: Tid, f: File)
    requires DiskInv(d) && t in d.temps
    ensures DiskInv(d.(files := d.files[d.temps[t].inode := f]))
  {
    var i := d.temps[t].inode;
    var e := d.(files := d.files[i := f]);
    assert GoodTemp(d, t);
    forall k | 0 <= k < |d.pending| ensures GoodOp(e.files, d.pending[k]) {
      assert GoodOp(d.files, d.pending[k]);
    }
    forall u | u in e.temps ensures GoodTemp(e, u) {
      assert GoodTemp(d, u);
    }
  }

  lemma PrivateHeld(d: Disk, t: Tid, f: File, uid: string)
    requires DiskInv(d) && t in d.temps && Held(d, uid)
    ensures Held(d.(files := d.files[d.temps[t].inode := f]), uid)
  {
    var i := d.temps[t].inode;
    var e := d.(files := d.files[i := f]);
    assert GoodTemp(d, t);
    forall x | Outcome(e, x) ensures Keeps(e.files, x, uid) {
      assert Outcome(d, x);
      OutcomePrivate(d.stable, d.pending, x, i) by {
        assert forall k :: 0 <= k < |d.pending| ==> GoodOp(d.files, d.pending[k]);
      }
      var n :| n in x && !IsTemp(n) && IsTextFile(d.files, n, x[n]) && d.files[x[n]].content.m.text.uid == uid;
      assert IsTextFile(e.files, n, x[n]);
    }
  }

  /** The steps of Write, Remove and Quarantine. */
  datatype DiskStep =
    | CreateTemp(t: Tid, name: string, inode: nat, m: Message)
    | FillTemp(t: Tid, content: Content)
    | FsyncTemp(t: Tid)
    | RenameTemp(t: Tid, name: string)
    | DropTemp(t: Tid, removed: bool)
    | FsyncDir
    | RemoveFile(name: string)
    | SetAside(name: string)

  ghost predicate CanDo(d: Disk, s: DiskStep) {
    match s
    case CreateTemp(t, name, i, _) => CanCreate(d, t, name, i)
    case FillTemp(t, _) => t in d.temps
    case FsyncTemp(t) => t in d.temps && d.temps[t].inode in d.files
    case RenameTemp(t, name) => CanPublish(d, t, name)
    case DropTemp(t, _) => t in d.temps
    case FsyncDir => true
    case RemoveFile(name) => IsListed(name) && name in d.dir
    case SetAside(name) => IsListed(name) && name in d.dir
  }

  ghost function Do(d: Disk, s: DiskStep): Disk
    requires CanDo(d, s)
  {
    match s
    case CreateTemp(t, name, i, m) => Create(d, t, name, i, m)
    case FillTemp(t, c) => Fill(d, t, c)
    case FsyncTemp(t) => SyncTemp(d, t)
    case RenameTemp(t, name) => Publish(d, t, name)
    case DropTemp(t, removed) => Drop(d, t, removed)
    case FsyncDir => SyncDir(d)
    case RemoveFile(name) => Remove(d, name)
    case SetAside(name) => Quarantine(d, name)
  }

  lemma ListedName(d: Disk, name: string)
    requires DiskInv(d) && IsListed(name) && name in d.dir
    ensures IsTextFile(d.files, name, d.dir[name])
    ensures IsTextFile(d.files, name + BAD_SUFFIX, d.dir[name])
    ensures !IsTemp(name) && !IsTemp(name + BAD_SUFFIX)
    ensures forall t :: t in d.temps ==> d.temps[t].inode != d.dir[name]
  {
    assert GoodEntry(d.files, name, d.dir[name]);
    var m := d.files[d.dir[name]].content.m;
    var sq: nat :|
      name == FileName(m.receivedNs, sq, m.text.uid) || name == FileName(m.receivedNs, sq, m.text.uid) + BAD_SUFFIX;
    NamesListed(m.receivedNs, sq, m.text.uid);
    forall t | t in d.temps ensures d.temps[t].inode != d.dir[name] {
      assert GoodTemp(d, t);
    }
  }

  lemma PublishName(d: Disk, t: Tid, name: string)
    requires DiskInv(d) && CanPublish(d, t, name)
    ensures IsTextFile(d.files, name, d.temps[t].inode) && !IsTemp(name)
  {
    var p := d.temps[t];
    var sq: nat :| name == FileName(p.m.receivedNs, sq, p.m.text.uid);
    NamesListed(p.m.receivedNs, sq, p.m.text.uid);
    assert NamedAfter(name, p.m.receivedNs, p.m.text.uid);
  }

  /** A running Write's temporary name is its own. */
  lemma TempNamesDiffer(d: Disk, t: Tid)
    requires DiskInv(d) && t in d.temps
    ensures IsTemp(d.temps[t].name)
    ensures forall u :: u in d.temps && u != t ==> d.temps[u].name != d.temps[t].name
    ensures DiskInv(d.(temps := d.temps - {t}))
  {
    assert GoodTemp(d, t);
    var e := d.(temps := d.temps - {t});
    forall u | u in d.temps && u != t ensures d.temps[u].name != d.temps[t].name && GoodTemp(e, u) {
      assert GoodTemp(d, u);
    }
  }

  lemma PublishInv(d: Disk, t: Tid, name: string)
    requires DiskInv(d) && CanPublish(d, t, name)
    ensures DiskInv(Publish(d, t, name))
  {
    PublishName(d, t, name);
    TempNamesDiffer(d, t);
    var e := d.(temps := d.temps - {t});
    assert forall u :: u in e.temps ==> GoodTemp(e, u);
    ChangeGood(e, Move(d.temps[t].name, name, d.temps[t].inode));
  }

  lemma DropInv(d: Disk, t: Tid, removed: bool)
    requires DiskInv(d) && t in d.temps
    ensures DiskInv(Drop(d, t, removed))
  {
    TempNamesDiffer(d, t);
    var e := d.(temps := d.temps - {t});
    assert forall u :: u in e.temps ==> GoodTemp(e, u);
    if removed {
      ChangeGood(e, Unlink(d.temps[t].name));
    }
  }

  lemma RemoveInv(d: Disk, name: string)
    requires DiskInv(d) && IsListed(name) && name in d.dir
    ensures DiskInv(Remove(d, name)) && DiskInv(Quarantine(d, name))
  {
    ListedName(d, name);
    assert forall u :: u in d.temps ==> GoodTemp(d, u);
    ChangeGood(d, Unlink(name));
    ChangeGood(d, Move(name, name + BAD_SUFFIX, d.dir[name]));
  }

  /** Every step keeps the invariant of directory and files, whichever Writes run beside it. */
  lemma DiskStepInv(d: Disk, s: DiskStep)
    requires DiskInv(d) && CanDo(d, s)
    ensures DiskInv(Do(d, s))
  {
    match s
    case CreateTemp(t, name, i, m) => CreateGood(d, t, name, i, m);
    case FillTemp(t, c) => PrivateChange(d, t, File(c, false));
    case FsyncTemp(t) => PrivateChange(d, t, d.files[d.temps[t].inode].(synced := true));
    case RenameTemp(t, name) => PublishInv(d, t, name);
    case DropTemp(t, removed) => DropInv(d, t, removed);
    case FsyncDir => SyncDirInv(d);
    case RemoveFile(name) => RemoveInv(d, name);
    case SetAside(name) => RemoveInv(d, name);
  }

  lemma SyncDirInv(d: Disk)
    requires DiskInv(d)
    ensures DiskInv(SyncDir(d))
  {
    var e := SyncDir(d);
    forall u | u in e.temps ensures GoodTemp(e, u) {
      assert GoodTemp(d, u);
    }
  }

  /** A step takes a text out of crash's reach only by removing its file. */
  lemma DiskStepHeld(d: Disk, s: DiskStep, uid: string)
    requires DiskInv(d) && CanDo(d, s) && Held(d, uid)
    requires !(s.RemoveFile? && NamedFor(s.name, uid))
    ensures Held(Do(d, s), uid)
  {
    match s
    case CreateTemp(t, name, i, m) =>
      var f := d.(files := d.files[i := File(Torn, false)]);
      NewFile(d, i, File(Torn, false));
      ChangeHeld(f, Link(name, i), uid);
      SameFilesHeld(Change(f, Link(name, i)), Create(d, t, name, i, m), uid);
    case FillTemp(t, c) => PrivateHeld(d, t, File(c, false), uid);
    case FsyncTemp(t) => PrivateHeld(d, t, d.files[d.temps[t].inode].(synced := true), uid);
    case RenameTemp(t, name) =>
      PublishName(d, t, name);
      TempNamesDiffer(d, t);
      var e := d.(temps := d.temps - {t});
      SameFilesHeld(d, e, uid);
      ChangeHeld(e, Move(d.temps[t].name, name, d.temps[t].inode), uid);
    case DropTemp(t, removed) =>
      TempNamesDiffer(d, t);
      var e := d.(temps := d.temps - {t});
      SameFilesHeld(d, e, uid);
      if removed {
        ChangeHeld(e, Unlink(d.temps[t].name), uid);
      }
    case FsyncDir =>
      SyncDirHeld(d, uid);
    case RemoveFile(name) =>
      ChangeHeld(d, Unlink(name), uid);
    case SetAside(name) =>
      ListedName(d, name);
      ChangeHeld(d, Move(name, name + BAD_SUFFIX, d.dir[name]), uid);
  }

  /** The same for what the directory shows now. */
  lemma DiskStepShown(d: Disk, s: DiskStep, uid: string)
    requires DiskInv(d) && CanDo(d, s) && Keeps(d.files, d.dir, uid)
    requires !(s.RemoveFile? && NamedFor(s.name, uid))
    ensures Keeps(Do(d, s).files, Do(d, s).dir, uid)
  {
    match s
    case CreateTemp(t, name, i, m) =>
      NewFileShown(d, i, uid);
      ApplyKeeps(d.files[i := File(Torn, false)], d.dir, Link(name, i), uid);
    case FillTemp(t, c) => PrivateShown(d, t, File(c, false), uid);
    case FsyncTemp(t) => PrivateShown(d, t, d.files[d.temps[t].inode].(synced := true), uid);
    case RenameTemp(t, name) =>
      PublishName(d, t, name);
      TempNamesDiffer(d, t);
      ApplyKeeps(d.files, d.dir, Move(d.temps[t].name, name, d.temps[t].inode), uid);
    case DropTemp(t, removed) =>
      TempNamesDiffer(d, t);
      ApplyKeeps(d.files, d.dir, Unlink(d.temps[t].name), uid);
    case FsyncDir =>
    case RemoveFile(name) =>
      ApplyKeeps(d.files, d.dir, Unlink(name), uid);
    case SetAside(name) =>
      ListedName(d, name);
      ApplyKeeps(d.files, d.dir, Move(name, name + BAD_SUFFIX, d.dir[name]), uid);
  }

  lemma NewFileShown(d: Disk, i: nat, uid: string)
    requires DiskInv(d) && i !in d.files && Keeps(d.files, d.dir, uid)
    ensures var fs := d.files[i := File(Torn, false)]; GoodDir(fs, d.dir) && Keeps(fs, d.dir, uid)
  {
    var fs := d.files[i := File(Torn, false)];
    forall n | n in d.dir ensures GoodEntry(fs, n, d.dir[n]) {
      assert GoodEntry(d.files, n, d.dir[n]);
    }
    var n :|
      && n in d.dir && !IsTemp(n) && IsTextFile(d.files, n, d.dir[n])
      && d.files[d.dir[n]].content.m.text.uid == uid;
    assert IsTextFile(fs, n, d.dir[n]);
  }

  lemma PrivateShown(d: Disk, t: Tid, f: File, uid: string)
    requires DiskInv(d) && t in d.temps && Keeps(d.files, d.dir, uid)
    ensures Keeps(d.files[d.temps[t].inode := f], d.dir, uid)
  {
    assert GoodTemp(d, t);
    var n :|
      && n in d.dir && !IsTemp(n) && IsTextFile(d.files, n, d.dir[n])
      && d.files[d.dir[n]].content.m.text.uid == uid;
    assert IsTextFile(d.files[d.temps[t].inode := f], n, d.dir[n]);
  }

  /** The rename shows the message under its final name. */
  lemma RenameShows(d: Disk, t: Tid, name: string)
    requires DiskInv(d) && CanPublish(d, t, name)
    ensures var e := Publish(d, t, name);
            && name in e.dir && e.files[e.dir[name]] == File(Whole(d.temps[t].m), true)
            && Keeps(e.files, e.dir, d.temps[t].m.text.uid)
  {
    PublishName(d, t, name);
    var e := Publish(d, t, name);
    assert IsTextFile(e.files, name, e.dir[name]);
  }

  lemma SameFilesHeld(d: Disk, e: Disk, uid: string)
    requires Held(d, uid) && e.files == d.files && e.stable == d.stable && e.pending == d.pending
    ensures Held(e, uid)
  {
    forall x | Outcome(e, x) ensures Keeps(e.files, x, uid) {
      assert Outcome(d, x);
    }
  }

  /** The fsync of the directory puts every text it holds out of a crash's reach. */
  lemma SyncDirHeld(d: Disk, uid: string)
    requires Keeps(d.files, d.dir, uid) || (DiskInv(d) && Held(d, uid))
    ensures Held(SyncDir(d), uid)
  {
  }

  /** What is out of a crash's reach is there when the bridge comes back, and the invariant with it. */
  lemma CrashKeeps(d: Disk, e: Disk)
    requires DiskInv(d) && Crash(d, e)
    ensures DiskInv(e)
    ensures forall uid :: Held(d, uid) ==> Held(e, uid)
  {
    OutcomeGood(d.files, d.stable, d.pending, e.dir);
    forall n | n in e.dir ensures GoodEntry(e.files, n, e.dir[n]) {
      assert GoodEntry(d.files, n, e.dir[n]);
    }
    forall uid | Held(d, uid) ensures Held(e, uid) {
      assert Keeps(d.files, e.dir, uid);
      var n :|
        && n in e.dir && !IsTemp(n) && IsTextFile(d.files, n, e.dir[n])
        && d.files[e.dir[n]].content.m.text.uid == uid;
      assert IsTextFile(e.files, n, e.dir[n]);
    }
  }
}
