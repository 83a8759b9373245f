/** What the thread that holds a call may rely on while the others run: they may end its call, and nothing
    else. */
module CallThreads {
  import opened Results
  import opened CallTable
  import opened CallMemory
  import opened CallProtocol

  ghost predicate Path(s: Sys, steps: seq<Step>, u: Sys)
    decreases |steps|
  {
    if steps == [] then u == s
    else Enabled(s, steps[0]) && Path(Next(s, steps[0]), steps[1..], u)
  }

  ghost predicate Reaches(s: Sys, u: Sys) {
    exists steps :: Path(s, steps, u)
  }

  /** The step is one that only the thread t takes, or only the thread that inserted the call id, or ends them
      with the process. Any thread may end any call. */
  predicate StepBy(s: Sys, a: Step, t: Tid, id: CallId) {
    match a
    case AInsert(u, r, _) => u == t || r.callId == id
    case ALock(u, i) => u == t || i == id
    case AReadConference(u) => u == t
    case ACommitClaim(u, _, _, _) => u == t || (s.mu.Some? && s.mu.value.id == id)
    case AUnlock(u) => u == t
    case AUpdate(u, i, _, _, _) => u == t || i == id
    case AEnd(u, _, _, _, _) => u == t
    case ACount(u) => u == t
    case AForget(u) => u == t
    case ASignal(u) => u == t
    case ARetract(u) => u == t
    case ATake(u) => u == t
    case AHang(u) => u == t
    case AFinish(u) => u == t
    case AInvite(u, i, _) => u == t || i == id
    case AAbandon(i) => i == id
    case AKeepLeg(i) => i == id
    case ATransition(u, i, _, _) => u == t || i == id
    case ADialTake(i) => i == id
    case ADialHang(i) => i == id
    case AOwnerDone(i) => i == id
    case AMemory(u, op) => u == t || (OnOwn(op) && op.id == id)
    case ANote(u, _) => u == t
    case ATick(_) => false
    case ARestart(_) => true
  }

  /** A step that the thread t of the call own may take: all other threads leave it to t. */
  ghost predicate OwnStep(s: Sys, a: Step, t: Tid, own: CallId) {
    forall u, i :: u != t && i != own ==> !StepBy(s, a, u, i)
  }

  // What the steps of a thread's own are.

  lemma OwnNote(s: Sys, t: Tid, e: Event)
    requires !IsEffect(e) && Honest(s, e)
    ensures Enabled(s, ANote(t, e)) && OwnStep(s, ANote(t, e), t, "")
    ensures Effect(s, ANote(t, e)) == s && Logged(s, ANote(t, e)) == e
  {
  }

  lemma OwnInsert(s: Sys, t: Tid, r: CallRow, fault: Fault)
    requires r.state == Ringing && r.updatedAt == s.clock
    ensures var a := AInsert(t, r, fault);
            && Enabled(s, a) && OwnStep(s, a, t, r.callId)
            && Effect(s, a) == InsertCall(s, r, fault)
            && Logged(s, a) == DidInsert(r, fault == NoFault && r.callId !in s.rows)
  {
  }

  lemma OwnLock(s: Sys, t: Tid, id: CallId)
    requires s.mu.None? && id in s.rows && s.rows[id].direction == Inbound
    ensures Enabled(s, ALock(t, id)) && OwnStep(s, ALock(t, id), t, id) && Next(s, ALock(t, id)) == Lock(s, t, id)
  {
  }

  lemma OwnRead(s: Sys, t: Tid)
    requires Holds(s, t) && s.mu.value.id in s.rows
    ensures Enabled(s, AReadConference(t)) && OwnStep(s, AReadConference(t), t, s.mu.value.id)
    ensures Next(s, AReadConference(t)) == ReadConference(s)
  {
  }

  lemma OwnCommit(s: Sys, t: Tid, user: User, now: int, fault: Fault)
    requires Holds(s, t) && s.mu.value.free.Some? && now == s.clock
    ensures var a := ACommitClaim(t, user, now, fault);
            var id := s.mu.value.id;
            var won := fault == NoFault && s.mu.value.free.value && InState(s.rows, id, Ringing);
            && Enabled(s, a) && OwnStep(s, a, t, id)
            && Effect(s, a) == CommitClaim(s, user, now, fault)
            && Logged(s, a) == DidClaim(id, user, won, fault == NoFault)
  {
  }

  lemma OwnUnlock(s: Sys, t: Tid)
    requires Holds(s, t)
    ensures Enabled(s, AUnlock(t)) && OwnStep(s, AUnlock(t), t, "") && Next(s, AUnlock(t)) == Unlock(s)
  {
  }

  lemma OwnEnd(s: Sys, t: Tid, id: CallId, why: Why, now: int, fault: Fault)
    requires t !in s.tears && now == s.clock
    ensures var a := AEnd(t, id, why, now, fault);
            && Enabled(s, a) && OwnStep(s, a, t, "")
            && Effect(s, a) == EndCall(s, t, id, now, fault)
            && Logged(s, a) == DidEnd(id, why, fault == NoFault && Active(s.rows, id), fault == NoFault)
  {
  }

  lemma OwnUpdate(s: Sys, t: Tid, id: CallId, participant: string, now: int, fault: Fault)
    requires id in s.owners && id in s.rows && now == s.clock
    ensures var a := AUpdate(t, id, participant, now, fault);
            && Enabled(s, a) && OwnStep(s, a, t, id)
            && Effect(s, a) == UpdateCall(s, id, participant, now, fault)
            && Logged(s, a) == DidUpdate(id, participant, fault == NoFault)
  {
  }

  predicate InTeardown(a: Step) {
    a.ACount? || a.AForget? || a.ASignal? || a.ARetract? || a.ATake? || a.AHang? || a.AFinish?
  }

  function TearStep(s: Sys, a: Step): Sys
    requires InTeardown(a) && Enabled(s, a)
  {
    match a
    case ACount(t) => CountCall(s, t)
    case AForget(t) => ForgetMark(s, t)
    case ASignal(t) => SignalEnded(s, t)
    case ARetract(t) => Retract(s, t)
    case ATake(t) => TakeLeg(s, t)
    case AHang(t) => HangUp(s, t)
    case AFinish(t) => FinishTear(s, t)
  }

  lemma OwnTear(s: Sys, a: Step, t: Tid)
    requires InTeardown(a) && Enabled(s, a) && a.t == t
    ensures OwnStep(s, a, t, "") && Next(s, a) == TearStep(s, a)
  {
  }

  predicate InDial(a: Step) {
    a.AAbandon? || a.AKeepLeg? || a.ADialTake? || a.ADialHang? || a.AOwnerDone?
  }

  function DialStep(s: Sys, a: Step): Sys
    requires InDial(a) && Enabled(s, a)
  {
    match a
    case AAbandon(id) => DialTo(s, id, Over)
    case AKeepLeg(id) => KeepLeg(s, id)
    case ADialTake(id) => DialTakeLeg(s, id)
    case ADialHang(id) => DialHangUp(s, id)
    case AOwnerDone(id) => DialTo(s, id, Over)
  }

  lemma OwnDial(s: Sys, a: Step, t: Tid)
    requires InDial(a) && Enabled(s, a)
    ensures OwnStep(s, a, t, a.id) && Next(s, a) == DialStep(s, a)
  {
  }

  lemma OwnInvite(s: Sys, t: Tid, id: CallId, ok: bool)
    requires DialAt(s, id, Inviting)
    ensures var a := AInvite(t, id, ok);
            && Enabled(s, a) && OwnStep(s, a, t, id)
            && Effect(s, a) == InviteLeg(s, id, ok) && Logged(s, a) == DidRequest(AskInvite, ok)
  {
  }

  lemma OwnMemory(s: Sys, t: Tid, op: MemOp, own: CallId)
    requires MayApply(s, t, op) && (OnOwn(op) ==> op.id == own)
    ensures var a := AMemory(t, op);
            Enabled(s, a) && OwnStep(s, a, t, own) && Effect(s, a) == s.(mem := Apply(s.mem, op))
    ensures op.Makes? ==> Logged(s, AMemory(t, op)) == DidMake(op.c, op.id)
    ensures op.Drops? ==> Logged(s, AMemory(t, op)) == DidDrop(op.c, op.id)
    ensures op.Marks? ==> Logged(s, AMemory(t, op)) == DidMark(op.id)
    ensures op.TakesJoin? ==> Logged(s, AMemory(t, op)) == DidReadJoin(op.id, s.mem.answered[op.id].value)
    ensures op.Remembers? ==> Logged(s, AMemory(t, op)) == DidRemember(op.notify, op.id)
    ensures op.Joins? ==> Logged(s, AMemory(t, op)) == DidJoin(op.id, op.joiner, TakesIn(s.mem, op.id))
    ensures op.Declines? ==>
      Logged(s, AMemory(t, op)) == DidDecline(op.notify, Announced(s.mem, op.notify), Awaited(s.mem, op.notify))
  {
    hide Apply;
  }

  lemma OwnTransition(s: Sys, t: Tid, id: CallId, now: int, fault: Fault)
    requires DialAt(s, id, Kept) && now == s.clock
    ensures var a := ATransition(t, id, now, fault);
            && Enabled(s, a) && OwnStep(s, a, t, id)
            && Effect(s, a) == Transition(s, id, now, fault)
            && Logged(s, a) == DidTransition(id, fault == NoFault && InState(s.rows, id, Ringing), fault == NoFault)
  {
  }

  ghost predicate OthersPath(s: Sys, steps: seq<Step>, u: Sys, t: Tid, id: CallId)
    decreases |steps|
  {
    if steps == [] then u == s
    else Enabled(s, steps[0]) && !StepBy(s, steps[0], t, id) && OthersPath(Next(s, steps[0]), steps[1..], u, t, id)
  }

  ghost predicate Interleaved(s: Sys, u: Sys, t: Tid, id: CallId) {
    exists steps :: OthersPath(s, steps, u, t, id)
  }

  predicate SameOrEnded(r: CallRow, q: CallRow) {
    q == r || (r.state != Ended && q == r.(state := Ended, updatedAt := q.updatedAt))
  }

  /** The row of the call id is as it was, or ended. */
  ghost predicate MyRow(t: Table, u: Table, id: CallId) {
    (id in u <==> id in t) && (id in t ==> SameOrEnded(t[id], u[id]))
  }

  ghost predicate MyClaim(s: Sys, u: Sys, t: Tid, id: CallId) {
    (id in u.owners <==> id in s.owners) && Holds(u, t) == Holds(s, t) && (Holds(s, t) ==> u.mu == s.mu)
  }

  ghost predicate MyTear(s: Sys, u: Sys, t: Tid) {
    (t in u.tears <==> t in s.tears) && (t in s.tears ==> u.tears[t] == s.tears[t])
  }

  ghost predicate MyDial(s: Sys, u: Sys, id: CallId) {
    (id in u.dials <==> id in s.dials) && (id in s.dials ==> u.dials[id] == s.dials[id])
  }

  ghost predicate MyThreads(s: Sys, u: Sys, t: Tid, id: CallId) {
    MyTear(s, u, t) && MyDial(s, u, id) && Did(u, t) == Did(s, t)
  }

  ghost predicate Mine(s: Sys, u: Sys, t: Tid, id: CallId) {
    MyRow(s.rows, u.rows, id) && MyClaim(s, u, t, id) && MyThreads(s, u, t, id) && KeepsChannels(s.mem, u.mem, id)
  }

  ghost predicate Grown(s: Sys, u: Sys) {
    Forward(s.rows, u.rows) && s.owners <= u.owners && s.closed <= u.closed && s.retracted <= u.retracted
    && s.counted <= u.counted
  }

  lemma EffectMyClaim(s: Sys, a: Step, t: Tid, id: CallId)
    requires Enabled(s, a) && !StepBy(s, a, t, id)
    ensures MyClaim(s, Effect(s, a), t, id)
  {
    if Writes(a) {
      WrittenMyClaim(s, a, t, id);
    } else {
      QuietMyClaim(s, a, t, id);
    }
    hide Effect, Enabled;
  }

  lemma WrittenMyClaim(s: Sys, a: Step, t: Tid, id: CallId)
    requires Writes(a) && Enabled(s, a) && !StepBy(s, a, t, id)
    ensures MyClaim(s, Effect(s, a), t, id)
  {
    hide InsertRow, UpdateRow, EndRow, InState, Active, Restart, Honest, MayApply, Apply, CommitClaim, Transition;
    match a
    case AInsert(_, _, _) =>
    case ACommitClaim(_, _, _, _) => CommitMyClaim(s, a, t, id);
    case AUpdate(_, _, _, _, _) =>
    case AEnd(_, _, _, _, _) =>
    case ATransition(_, _, _, _) => TransitionMyClaim(s, a, t, id);
  }

  lemma CommitMyClaim(s: Sys, a: Step, t: Tid, id: CallId)
    requires a.ACommitClaim? && Enabled(s, a) && !StepBy(s, a, t, id)
    ensures MyClaim(s, CommitClaim(s, a.user, a.now, a.fault), t, id)
  {
    hide ClaimRow, InState;
  }

  lemma TransitionMyClaim(s: Sys, a: Step, t: Tid, id: CallId)
    requires a.ATransition? && !StepBy(s, a, t, id)
    ensures MyClaim(s, Transition(s, a.id, a.now, a.fault), t, id)
  {
    hide TransitionRow, InState;
  }

  lemma QuietMyClaim(s: Sys, a: Step, t: Tid, id: CallId)
    requires !Writes(a) && Enabled(s, a) && !StepBy(s, a, t, id)
    ensures MyClaim(s, Effect(s, a), t, id)
  {
    hide InsertRow, ClaimRow, UpdateRow, EndRow, TransitionRow, InState, Active, AllActive, Pending, Restart, Honest,
         MayApply, Apply;
  }

  lemma EffectMyTear(s: Sys, a: Step, t: Tid, id: CallId)
    requires Enabled(s, a) && !StepBy(s, a, t, id)
    ensures MyTear(s, Effect(s, a), t)
  {
    if Writes(a) {
      WrittenMyTear(s, a, t, id);
    } else {
      QuietMyTear(s, a, t, id);
    }
    hide Effect, Enabled;
  }

  lemma WrittenMyTear(s: Sys, a: Step, t: Tid, id: CallId)
    requires Writes(a) && Enabled(s, a) && !StepBy(s, a, t, id)
    ensures MyTear(s, Effect(s, a), t)
  {
    hide InsertRow, ClaimRow, UpdateRow, EndRow, TransitionRow, InState, Active, AllActive, Pending, Restart, Media,
         Honest, MayApply, Apply;
  }

  lemma QuietMyTear(s: Sys, a: Step, t: Tid, id: CallId)
    requires !Writes(a) && Enabled(s, a) && !StepBy(s, a, t, id)
    ensures MyTear(s, Effect(s, a), t)
  {
    hide InsertRow, ClaimRow, UpdateRow, EndRow, TransitionRow, InState, Active, AllActive, Pending, Restart, Media,
         Honest, MayApply, Apply;
  }

  lemma EffectMyDial(s: Sys, a: Step, t: Tid, id: CallId)
    requires Enabled(s, a) && !StepBy(s, a, t, id)
    ensures MyDial(s, Effect(s, a), id)
  {
    if Writes(a) {
      WrittenMyDial(s, a, t, id);
    } else {
      QuietMyDial(s, a, t, id);
    }
    hide Effect, Enabled;
  }

  lemma WrittenMyDial(s: Sys, a: Step, t: Tid, id: CallId)
    requires Writes(a) && Enabled(s, a) && !StepBy(s, a, t, id)
    ensures MyDial(s, Effect(s, a), id)
  {
    hide InsertRow, ClaimRow, UpdateRow, EndRow, TransitionRow, InState, Active, AllActive, Pending, Restart, Media,
         Honest, MayApply, Apply;
  }

  lemma QuietMyDial(s: Sys, a: Step, t: Tid, id: CallId)
    requires !Writes(a) && Enabled(s, a) && !StepBy(s, a, t, id)
    ensures MyDial(s, Effect(s, a), id)
  {
    hide InsertRow, ClaimRow, UpdateRow, EndRow, TransitionRow, InState, Active, AllActive, Pending, Restart, Media,
         Honest, MayApply, Apply;
  }

  lemma EffectMyChannels(s: Sys, a: Step, t: Tid, id: CallId)
    requires Enabled(s, a) && !StepBy(s, a, t, id)
    ensures KeepsChannels(s.mem, Effect(s, a).mem, id)
  {
    if a.AMemory? {
      OthersKeepChannels(s.mem, a.op, id);
    } else if !OnMemory(a) {
      EffectDid(s, a);
      hide Effect, Enabled;
    }
  }

  lemma InsertedApart(t: Table, r: CallRow, id: CallId)
    requires r.callId != id
    ensures MyRow(t, t, id) && MyRow(t, InsertRow(t, r), id)
  {
  }

  lemma EffectMyRow(s: Sys, a: Step, t: Tid, id: CallId)
    requires RowInv(s) && Enabled(s, a) && !StepBy(s, a, t, id)
    ensures MyRow(s.rows, Effect(s, a).rows, id)
  {
    hide RowInv, InsertRow, ClaimRow, UpdateRow, EndRow, TransitionRow, MyRow, InState, Active, Pending, AllActive,
         Restart, Honest, MayApply, Apply;
    match a
    case AInsert(_, r, _) => InsertedApart(s.rows, r, id);
    case ACommitClaim(_, user, now, _) => OneRowApart(s.rows, s.mu.value.id, id, user, now);
    case AUpdate(_, i, _, _, _) => UpdatedApart(s, a, id);
    case AEnd(_, i, _, now, _) => OneRowApart(s.rows, i, id, NOBODY, now);
    case ATransition(_, i, now, _) => OneRowApart(s.rows, i, id, NOBODY, now);
    case _ =>
      QuietRows(s, a);
      SameMyRow(s.rows, id);
  }

  lemma SameMyRow(t: Table, id: CallId)
    ensures MyRow(t, t, id)
  {
  }

  lemma OneRowApart(t: Table, i: CallId, id: CallId, user: User, now: int)
    ensures MyRow(t, t, id) && MyRow(t, EndRow(t, i, now), id)
    ensures i != id ==> MyRow(t, ClaimRow(t, i, user, now, true), id)
    ensures i != id ==> MyRow(t, TransitionRow(t, i, Ringing, Bridged, now), id)
  {
  }

  lemma UpdatedApart(s: Sys, a: Step, id: CallId)
    requires RowInv(s) && a.AUpdate? && Enabled(s, a) && a.id != id
    ensures MyRow(s.rows, Effect(s, a).rows, id)
  {
  }

  /** No step of another thread touches what is mine. */
  lemma StepMine(s: Sys, a: Step, t: Tid, id: CallId)
    requires RowInv(s) && Enabled(s, a) && !StepBy(s, a, t, id)
    ensures Mine(s, Next(s, a), t, id)
  {
    assert Logs(a) ==> a.t != t;
    assert !a.ARestart?;
    hide Enabled, StepBy, Effect, RowInv, Logged, MyRow, Holds, Note, KeepsChannels;
    EffectMyRow(s, a, t, id);
    EffectMyClaim(s, a, t, id);
    EffectMyTear(s, a, t, id);
    EffectMyDial(s, a, t, id);
    EffectDid(s, a);
    EffectMyChannels(s, a, t, id);
    if Logs(a) {
      NotedMine(s, Effect(s, a), a.t, Logged(s, a), t, id);
    }
  }

  lemma NotedMine(s: Sys, u: Sys, v: Tid, e: Event, t: Tid, id: CallId)
    requires MyRow(s.rows, u.rows, id) && MyClaim(s, u, t, id) && MyTear(s, u, t) && MyDial(s, u, id)
    requires KeepsChannels(s.mem, u.mem, id) && u.did == s.did && v != t
    ensures Mine(s, Note(u, v, e), t, id)
  {
    hide MyRow, KeepsChannels;
  }

  lemma StepGrown(s: Sys, a: Step)
    requires Inv(s) && Enabled(s, a) && !a.ARestart?
    ensures Grown(s, Next(s, a))
  {
    StepForward(s, a);
    StepSets(s, a);
    hide Inv, Forward, Next, Enabled;
  }

  lemma StepSets(s: Sys, a: Step)
    requires Enabled(s, a) && !a.ARestart?
    ensures s.owners <= Next(s, a).owners && s.closed <= Next(s, a).closed
            && s.retracted <= Next(s, a).retracted && s.counted <= Next(s, a).counted
  {
    EffectSets(s, a);
    hide Effect, Enabled, Logged;
  }

  lemma EffectSets(s: Sys, a: Step)
    requires Enabled(s, a) && !a.ARestart?
    ensures s.owners <= Effect(s, a).owners && s.closed <= Effect(s, a).closed
            && s.retracted <= Effect(s, a).retracted && s.counted <= Effect(s, a).counted
  {
    if Writes(a) {
      WrittenSets(s, a);
    } else {
      QuietSets(s, a);
    }
    hide Effect, Enabled;
  }

  lemma WrittenSets(s: Sys, a: Step)
    requires Writes(a) && Enabled(s, a) && !a.ARestart?
    ensures s.owners <= Effect(s, a).owners && s.closed <= Effect(s, a).closed
            && s.retracted <= Effect(s, a).retracted && s.counted <= Effect(s, a).counted
  {
    hide InsertRow, ClaimRow, UpdateRow, EndRow, TransitionRow, InState, Active, AllActive, Pending, Restart, Media,
         DialAt, Honest, MayApply, Apply;
    match a
    case AInsert(_, _, _) =>
    case ACommitClaim(_, _, _, _) =>
    case AUpdate(_, _, _, _, _) =>
    case AEnd(_, _, _, _, _) =>
    case ATransition(_, _, _, _) =>
  }

  lemma QuietSets(s: Sys, a: Step)
    requires !Writes(a) && Enabled(s, a) && !a.ARestart?
    ensures s.owners <= Effect(s, a).owners && s.closed <= Effect(s, a).closed
            && s.retracted <= Effect(s, a).retracted && s.counted <= Effect(s, a).counted
  {
    hide DialAt, Honest, MayApply, Apply, Forget, CloseEnded, WithoutNotifies, ConferenceFree, Holds;
    if InTeardown(a) {
      TearSets(s, a);
      hide Effect, Enabled;
    }
  }

  lemma TearSets(s: Sys, a: Step)
    requires InTeardown(a) && Enabled(s, a)
    ensures s.owners <= Effect(s, a).owners && s.closed <= Effect(s, a).closed
            && s.retracted <= Effect(s, a).retracted && s.counted <= Effect(s, a).counted
  {
    hide DialAt, Forget, CloseEnded, WithoutNotifies;
  }

  // ---- Paths

  lemma {:induction false} PathJoin(s: Sys, a: seq<Step>, u: Sys, b: seq<Step>, v: Sys)
    requires Path(s, a, u) && Path(u, b, v)
    ensures Path(s, a + b, v)
    decreases |a|
  {
    hide Enabled, Next;
    if a == [] {
      assert a + b == b;
    } else {
      assert (a + b)[0] == a[0] && (a + b)[1..] == a[1..] + b;
      PathJoin(Next(s, a[0]), a[1..], u, b, v);
    }
  }

  lemma ReachesMore(s: Sys, u: Sys, v: Sys)
    requires Reaches(s, u) && Reaches(u, v)
    ensures Reaches(s, v)
  {
    hide Path;
    var a :| Path(s, a, u);
    var b :| Path(u, b, v);
    PathJoin(s, a, u, b, v);
  }

  lemma Start(s: Sys)
    ensures Reaches(s, s) && Grown(s, s)
  {
    assert Path(s, [], s);
  }

  lemma GrownMore(s: Sys, u: Sys, v: Sys)
    requires Grown(s, u) && Grown(u, v)
    ensures Grown(s, v)
  {
    ForwardMore(s.rows, u.rows, v.rows);
    hide Forward;
  }

  lemma MineMore(s: Sys, u: Sys, v: Sys, t: Tid, id: CallId)
    requires Mine(s, u, t, id) && Mine(u, v, t, id)
    ensures Mine(s, v, t, id)
  {
  }

  lemma OneStep(s: Sys, a: Step)
    requires Enabled(s, a)
    ensures Reaches(s, Next(s, a))
  {
    hide Enabled, Next;
    assert [a][1..] == [];
    assert Path(s, [a], Next(s, a));
  }

  lemma {:induction false} OthersKeep(s: Sys, steps: seq<Step>, u: Sys, t: Tid, id: CallId)
    requires Inv(s) && OthersPath(s, steps, u, t, id)
    ensures Inv(u) && Mine(s, u, t, id) && Grown(s, u) && Path(s, steps, u)
    decreases |steps|
  {
    if steps != [] {
      hide Inv, Enabled, Next, Mine, Grown;
      var v := Next(s, steps[0]);
      StepKeeps(s, steps[0]);
      FirstStep(s, steps[0], t, id);
      OthersKeep(v, steps[1..], u, t, id);
      MineMore(s, v, u, t, id);
      GrownMore(s, v, u);
    } else {
      Start(s);
    }
  }

  lemma FirstStep(s: Sys, a: Step, t: Tid, id: CallId)
    requires Inv(s) && Enabled(s, a) && !StepBy(s, a, t, id)
    ensures Mine(s, Next(s, a), t, id) && Grown(s, Next(s, a))
  {
    hide Enabled, Next, Mine, Grown;
    RowFacts(s);
    StepMine(s, a, t, id);
    StepGrown(s, a);
  }

  /** What the thread t of the call id can rely on across any steps of the others. */
  lemma Rely(s: Sys, u: Sys, t: Tid, id: CallId)
    requires Inv(s) && Interleaved(s, u, t, id)
    ensures Inv(u) && Reaches(s, u) && Mine(s, u, t, id) && Grown(s, u)
  {
    hide Inv, OthersPath, Mine, Grown;
    var steps :| OthersPath(s, steps, u, t, id);
    OthersKeep(s, steps, u, t, id);
  }
}
