/** The life of calls as a state machine: every statement and every mutex-guarded block of pkg/calls/subsystem.go
    is one step, and the threads that join, leave, decline, time out, hang up, dial, watch and shut down take
    their steps in any order. */
module CallProtocol {
  import opened Results
  import opened CallTable
  import opened CallMemory

  /** The holder of answerMu, and what its Answer has read of the conference so far. */
  datatype Claim = Claim(t: Tid, id: CallId, free: Option<bool>)

  /** Where the thread that dials a call is. */
  datatype DialPc = Inviting | Invited | Kept | Losing | HangingUp | Owns | Over

  /** Where the thread that ended a call is in tearing it down. */
  datatype Stage = Counting | Forgetting | Signalling | Retracting | Taking | Hanging | Finishing

  datatype Tear = Tear(id: CallId, stage: Stage)

  /** What the timeline is told about the end of a call: nothing special, that it was declined, that the bridge could
      not carry it, or, for a row that cannot still be in progress, nothing at all. */
  datatype Why = Plain | Declined | Failure(reason: string) | Quiet

  /** The requests a call makes of Matrix, the SIP server and LiveKit, with the participant that LiveKit names. */
  datatype Request =
    AskRinging | AskGhost | AskMembership | AskNotify | AskInvite
    | AskTrunk | AskRoom | AskParticipant(id: CallId, participant: string) | AskAnswer

  /** Who a leg is for, or why the bridge cannot ring them. */
  datatype Recipient = Reachable(user: User) | Refused | Unknown | Unavailable

  /** What a thread has done: its statements and requests with their answers, what it has read, whom it has marked as
      seen, and what it has said to the thread of a call. */
  datatype Event =
    | DidInsert(made: CallRow, ok: bool)
    | DidClaim(id: CallId, user: User, won: bool, ok: bool)
    | DidTransition(id: CallId, won: bool, ok: bool)
    | DidUpdate(id: CallId, participant: string, ok: bool)
    | DidEnd(id: CallId, why: Why, mine: bool, ok: bool)
    | DidFind(row: Option<CallRow>, ok: bool)
    | DidList(rows: seq<CallRow>, ok: bool)
    | DidRequest(what: Request, ok: bool)
    | DidRecipient(answer: Recipient)
    | DidFindRoom(portalId: string, owner: User, room: Room, ok: bool)
    | DidLook(id: CallId, present: bool, ok: bool)
    | DidReadSeen(id: CallId, seen: bool)
    | DidReadClock(now: int)
    | DidMake(c: Channel, id: CallId)
    | DidDrop(c: Channel, id: CallId)
    | DidMark(id: CallId)
    | DidReadJoin(id: CallId, joiner: User)
    | DidRemember(notify: EventId, id: CallId)
    | DidJoin(id: CallId, joiner: User, kept: bool)
    | DidDecline(notify: EventId, of: Option<CallId>, signalled: bool)

  /** The statements that write to the table. */
  predicate IsWrite(e: Event) {
    e.DidInsert? || e.DidClaim? || e.DidTransition? || e.DidUpdate? || e.DidEnd?
  }

  /** What only the step that does it can log. */
  predicate IsEffect(e: Event) {
    || IsWrite(e) || e.DidMake? || e.DidDrop? || e.DidMark? || e.DidReadJoin? || e.DidRemember? || e.DidJoin?
    || e.DidDecline? || (e.DidRequest? && e.what == AskInvite)
  }

  /** The rows in progress, in some order. */
  predicate Lists(t: Table, list: seq<CallRow>) {
    && (forall r <- list :: Active(t, r.callId) && t[r.callId] == r)
    && (forall id <- t :: Active(t, id) ==> t[id] in list)
  }

  /** What a query gave was in the table, and what was read of the memory is so. */
  predicate Honest(s: Sys, e: Event) {
    match e
    case DidFind(row, ok) => row.Some? ==> ok && row.value.callId in s.rows && s.rows[row.value.callId] == row.value
    case DidList(list, ok) => if ok then Lists(s.rows, list) else list == []
    case DidReadSeen(id, seen) => seen == (id in s.mem.seen)
    case DidReadClock(now) => now == s.clock
    case _ => true
  }

  datatype Sys = Sys(
    rows: Table,
    mu: Option<Claim>,
    /** The calls whose claim or transition to bridged returned true: their thread brings up the media. */
    owners: set<CallId>,
    /** The threads that tear a call down, and the calls added to the finished-calls metric. */
    tears: map<Tid, Tear>, counted: seq<CallId>,
    /** The calls whose ended channel is closed, and those whose teardown has forgotten the mark of their participant
        and taken back their notifications. */
    closed: set<CallId>, retracted: set<CallId>,
    /** The ended calls that are not counted: End took effect but returned an error or the bridge went down
        first, and those that EndAll cleared. */
    lost: set<CallId>, cleared: set<CallId>,
    /** The dial threads, and the control legs that Invite returned, that Subsystem keeps, and that were hung
        up. A call has at most one, so the call names it. */
    dials: map<CallId, DialPc>, invited: set<CallId>, legs: set<CallId>, hung: seq<CallId>,
    /** The dialled calls whose transition returned an error, those whose teardown looked for the leg before it was
        kept, and those whose dial thread found the call ended and takes the leg back itself. */
    faulted: set<CallId>, early: set<CallId>, backedOut: set<CallId>,
    /** The channels, the notifications and whose participant was seen. */
    mem: Memory,
    /** What time.Now gives, in milliseconds. */
    clock: int,
    /** What every thread has done, in order. */
    did: map<Tid, seq<Event>>)

  const INIT := Sys(map[], None, {}, map[], [], {}, {}, {}, {}, map[], {}, {}, [], {}, {}, {}, NOTHING, 0, map[])

  function Did(s: Sys, t: Tid): seq<Event> {
    if t in s.did then s.did[t] else []
  }

  function Note(s: Sys, t: Tid, e: Event): Sys {
    s.(did := s.did[t := Did(s, t) + [e]])
  }

  // ---- The steps

  /** The thread that inserts an outbound row goes on to dial. */
  function InsertCall(s: Sys, r: CallRow, fault: Fault): Sys {
    if fault == FailsUndone || r.callId in s.rows then s
    else
      var u := s.(rows := InsertRow(s.rows, r));
      if r.direction == Inbound then u
      else u.(dials := u.dials[r.callId := if fault == NoFault then Inviting else Over])
  }

  function Lock(s: Sys, t: Tid, id: CallId): Sys {
    s.(mu := Some(Claim(t, id, None)))
  }

  /** The NOT EXISTS of Answer. */
  function ReadConference(s: Sys): Sys
    requires s.mu.Some? && s.mu.value.id in s.rows
  {
    s.(mu := Some(s.mu.value.(free := Some(ConferenceFree(s.rows, s.rows[s.mu.value.id].conference)))))
  }

  /** The write of Answer. */
  function CommitClaim(s: Sys, user: User, now: int, fault: Fault): Sys
    requires s.mu.Some? && s.mu.value.free.Some?
  {
    var c := s.mu.value;
    var u := s.(mu := Some(c.(free := None)));
    if fault == FailsUndone || !c.free.value || !InState(s.rows, c.id, Ringing) then u
    else
      var v := u.(rows := ClaimRow(s.rows, c.id, user, now, true));
      if fault == NoFault then v.(owners := s.owners + {c.id}) else v
  }

  function Unlock(s: Sys): Sys {
    s.(mu := None)
  }

  /** The record that bridgeMedia writes back: the row as its owner knows it. */
  function Media(s: Sys, id: CallId, participant: string, now: int): CallRow
    requires id in s.rows
  {
    s.rows[id].(state := Bridged, lkParticipant := participant, updatedAt := now)
  }

  function UpdateCall(s: Sys, id: CallId, participant: string, now: int, fault: Fault): Sys
    requires id in s.rows
  {
    if fault == FailsUndone then s else s.(rows := UpdateRow(s.rows, Media(s, id, participant, now)))
  }

  function EndCall(s: Sys, t: Tid, id: CallId, now: int, fault: Fault): Sys {
    if fault == FailsUndone || !Active(s.rows, id) then s
    else
      var u := s.(rows := EndRow(s.rows, id, now));
      if fault == NoFault then u.(tears := s.tears[t := Tear(id, Counting)]) else u.(lost := s.lost + {id})
  }

  function AtStage(s: Sys, t: Tid, st: Stage): Sys
    requires t in s.tears
  {
    s.(tears := s.tears[t := s.tears[t].(stage := st)])
  }

  function CountCall(s: Sys, t: Tid): Sys
    requires t in s.tears
  {
    AtStage(s, t, Forgetting).(counted := s.counted + [s.tears[t].id])
  }

  function ForgetMark(s: Sys, t: Tid): Sys
    requires t in s.tears
  {
    AtStage(s, t, Signalling).(mem := Forget(s.mem, s.tears[t].id))
  }

  function SignalEnded(s: Sys, t: Tid): Sys
    requires t in s.tears
  {
    AtStage(s, t, Retracting).(closed := s.closed + {s.tears[t].id}, mem := CloseEnded(s.mem, s.tears[t].id))
  }

  function Retract(s: Sys, t: Tid): Sys
    requires t in s.tears
  {
    var id := s.tears[t].id;
    AtStage(s, t, Taking).(mem := WithoutNotifies(s.mem, id), retracted := s.retracted + {id})
  }

  predicate DialAt(s: Sys, id: CallId, pc: DialPc) {
    id in s.dials && s.dials[id] == pc
  }

  /** takeLeg of a teardown. */
  function TakeLeg(s: Sys, t: Tid): Sys
    requires t in s.tears
  {
    var id := s.tears[t].id;
    if id in s.legs then AtStage(s, t, Hanging).(legs := s.legs - {id})
    else
      var u := AtStage(s, t, Finishing);
      if DialAt(s, id, Inviting) || DialAt(s, id, Invited) then u.(early := s.early + {id}) else u
  }

  function HangUp(s: Sys, t: Tid): Sys
    requires t in s.tears
  {
    AtStage(s, t, Finishing).(hung := s.hung + [s.tears[t].id])
  }

  function FinishTear(s: Sys, t: Tid): Sys {
    s.(tears := s.tears - {t})
  }

  function DialTo(s: Sys, id: CallId, pc: DialPc): Sys {
    s.(dials := s.dials[id := pc])
  }

  function InviteLeg(s: Sys, id: CallId, ok: bool): Sys {
    if ok then DialTo(s, id, Invited).(invited := s.invited + {id}) else DialTo(s, id, Over)
  }

  function KeepLeg(s: Sys, id: CallId): Sys {
    DialTo(s, id, Kept).(legs := s.legs + {id})
  }

  function Transition(s: Sys, id: CallId, now: int, fault: Fault): Sys {
    var won := InState(s.rows, id, Ringing);
    var u := if fault == FailsUndone then s else s.(rows := TransitionRow(s.rows, id, Ringing, Bridged, now));
    if fault != NoFault then DialTo(u, id, Over).(faulted := s.faulted + {id})
    else if won then DialTo(u, id, Owns).(owners := s.owners + {id})
    else DialTo(u, id, Losing).(backedOut := s.backedOut + {id})
  }

  /** takeLeg of the dial thread that lost its call. */
  function DialTakeLeg(s: Sys, id: CallId): Sys {
    if id in s.legs then DialTo(s, id, HangingUp).(legs := s.legs - {id}) else DialTo(s, id, Over)
  }

  function DialHangUp(s: Sys, id: CallId): Sys {
    DialTo(s, id, Over).(hung := s.hung + [id])
  }

  ghost predicate Pending(s: Sys, id: CallId) {
    exists t :: t in s.tears && s.tears[t] == Tear(id, Counting)
  }

  /** The bridge goes down and its next run clears the table. */
  ghost function Restart(s: Sys, now: int): Sys {
    Sys(EndAllRows(s.rows, now), None, {}, map[], s.counted, {}, {},
        s.lost + (set id | id in s.rows && Pending(s, id)), s.cleared + AllActive(s.rows),
        map[], {}, {}, [], {}, {}, {}, NOTHING, now, map[])
  }

  datatype Step =
    | AInsert(t: Tid, r: CallRow, fault: Fault)
    | ALock(t: Tid, id: CallId)
    | AReadConference(t: Tid)
    | ACommitClaim(t: Tid, user: User, now: int, fault: Fault)
    | AUnlock(t: Tid)
    | AUpdate(t: Tid, id: CallId, participant: string, now: int, fault: Fault)
    | AEnd(t: Tid, id: CallId, why: Why, now: int, fault: Fault)
    | ACount(t: Tid)
    | AForget(t: Tid)
    | ASignal(t: Tid)
    | ARetract(t: Tid)
    | ATake(t: Tid)
    | AHang(t: Tid)
    | AFinish(t: Tid)
    | AInvite(t: Tid, id: CallId, ok: bool)
    | AAbandon(id: CallId)
    | AKeepLeg(id: CallId)
    | ATransition(t: Tid, id: CallId, now: int, fault: Fault)
    | ADialTake(id: CallId)
    | ADialHang(id: CallId)
    | AOwnerDone(id: CallId)
    | AMemory(t: Tid, op: MemOp)
    | ANote(t: Tid, e: Event)
    | ATick(now: int)
    | ARestart(now: int)

  predicate Holds(s: Sys, t: Tid) {
    s.mu.Some? && s.mu.value.t == t
  }

  predicate TearAt(s: Sys, t: Tid, st: Stage) {
    t in s.tears && s.tears[t].stage == st
  }

  /** The thread was told a moment ago that the participant is there: by LiveKit, or by livekit-sip that it joined. */
  predicate JustSeen(evs: seq<Event>, id: CallId) {
    evs != [] && IsReport(evs[|evs| - 1], id)
  }

  predicate IsReport(e: Event, id: CallId) {
    e == DidLook(id, true, true) || (e.DidRequest? && e.what.AskParticipant? && e.what.id == id && e.ok)
  }

  /** A participant is marked by a thread that was told of it. */
  predicate MayApply(s: Sys, t: Tid, op: MemOp) {
    CanApply(s.mem, op) && (op.Marks? ==> JustSeen(Did(s, t), op.id))
  }

  /** Only inbound legs are answered; an update comes from the owner of the call. What is written bears the time. */
  predicate Enabled(s: Sys, a: Step) {
    match a
    case AInsert(_, r, _) => r.state == Ringing && r.updatedAt == s.clock
    case ALock(_, id) => s.mu.None? && id in s.rows && s.rows[id].direction == Inbound
    case AReadConference(t) => Holds(s, t) && s.mu.value.id in s.rows
    case ACommitClaim(t, _, now, _) => Holds(s, t) && s.mu.value.free.Some? && now == s.clock
    case AUnlock(t) => Holds(s, t)
    case AUpdate(_, id, _, now, _) => id in s.owners && id in s.rows && now == s.clock
    case AEnd(t, _, _, now, _) => t !in s.tears && now == s.clock
    case ACount(t) => TearAt(s, t, Counting)
    case AForget(t) => TearAt(s, t, Forgetting)
    case ASignal(t) => TearAt(s, t, Signalling)
    case ARetract(t) => TearAt(s, t, Retracting)
    case ATake(t) => TearAt(s, t, Taking)
    case AHang(t) => TearAt(s, t, Hanging)
    case AFinish(t) => TearAt(s, t, Finishing)
    case AInvite(_, id, _) => DialAt(s, id, Inviting)
    case AAbandon(id) => DialAt(s, id, Inviting)
    case AKeepLeg(id) => DialAt(s, id, Invited)
    case ATransition(_, id, now, _) => DialAt(s, id, Kept) && now == s.clock
    case ADialTake(id) => DialAt(s, id, Losing)
    case ADialHang(id) => DialAt(s, id, HangingUp)
    case AOwnerDone(id) => DialAt(s, id, Owns)
    case AMemory(t, op) => MayApply(s, t, op)
    case ANote(_, e) => !IsEffect(e) && Honest(s, e)
    case ATick(_) => true
    case ARestart(_) => true
  }

  /** The steps that their thread takes note of. */
  predicate Logs(a: Step) {
    a.AInsert? || a.ACommitClaim? || a.AUpdate? || a.AEnd? || a.ATransition? || a.AInvite? || a.ANote?
    || a.AMemory?
  }

  /** What they note. */
  function Logged(s: Sys, a: Step): Event
    requires Logs(a) && Enabled(s, a)
  {
    match a
    case AInsert(_, r, fault) => DidInsert(r, fault == NoFault && r.callId !in s.rows)
    case ACommitClaim(_, user, _, fault) =>
      var c := s.mu.value;
      DidClaim(c.id, user, fault == NoFault && c.free.value && InState(s.rows, c.id, Ringing), fault == NoFault)
    case ATransition(_, id, _, fault) =>
      DidTransition(id, fault == NoFault && InState(s.rows, id, Ringing), fault == NoFault)
    case AUpdate(_, id, participant, _, fault) => DidUpdate(id, participant, fault == NoFault)
    case AEnd(_, id, why, _, fault) => DidEnd(id, why, fault == NoFault && Active(s.rows, id), fault == NoFault)
    case AInvite(_, _, ok) => DidRequest(AskInvite, ok)
    case AMemory(_, op) =>
      (match op
       case Makes(c, id) => DidMake(c, id)
       case Drops(c, id) => DidDrop(c, id)
       case Marks(id) => DidMark(id)
       case TakesJoin(id) => DidReadJoin(id, s.mem.answered[id].value)
       case Joins(id, joiner) => DidJoin(id, joiner, TakesIn(s.mem, id))
       case Remembers(notify, id) => DidRemember(notify, id)
       case Declines(notify) => DidDecline(notify, Announced(s.mem, notify), Awaited(s.mem, notify)))
    case ANote(_, e) => e
  }

  /** What a step does. */
  ghost function Effect(s: Sys, a: Step): Sys
    requires Enabled(s, a)
  {
    match a
    case AInsert(_, r, fault) => InsertCall(s, r, fault)
    case ALock(t, id) => Lock(s, t, id)
    case AReadConference(_) => ReadConference(s)
    case ACommitClaim(_, user, now, fault) => CommitClaim(s, user, now, fault)
    case AUnlock(_) => Unlock(s)
    case AUpdate(_, id, participant, now, fault) => UpdateCall(s, id, participant, now, fault)
    case AEnd(t, id, _, now, fault) => EndCall(s, t, id, now, fault)
    case ACount(t) => CountCall(s, t)
    case AForget(t) => ForgetMark(s, t)
    case ASignal(t) => SignalEnded(s, t)
    case ARetract(t) => Retract(s, t)
    case ATake(t) => TakeLeg(s, t)
    case AHang(t) => HangUp(s, t)
    case AFinish(t) => FinishTear(s, t)
    case AInvite(_, id, ok) => InviteLeg(s, id, ok)
    case AAbandon(id) => DialTo(s, id, Over)
    case AKeepLeg(id) => KeepLeg(s, id)
    case ATransition(_, id, now, fault) => Transition(s, id, now, fault)
    case ADialTake(id) => DialTakeLeg(s, id)
    case ADialHang(id) => DialHangUp(s, id)
    case AOwnerDone(id) => DialTo(s, id, Over)
    case AMemory(_, op) => s.(mem := Apply(s.mem, op))
    case ANote(_, _) => s
    case ATick(now) => s.(clock := now)
    case ARestart(now) => Restart(s, now)
  }

  ghost function Next(s: Sys, a: Step): Sys
    requires Enabled(s, a)
  {
    if Logs(a) then Note(Effect(s, a), a.t, Logged(s, a)) else Effect(s, a)
  }

  // ---- What every step keeps

  /** Owners' rows have been bridged. */
  ghost predicate RowInv(s: Sys) {
    && KeyedById(s.rows)
    && (forall id :: id in s.owners ==> id in s.rows && s.rows[id].state != Ringing)
    && (forall id :: id in s.dials ==> id in s.rows && s.rows[id].direction == Outbound)
  }

  ghost predicate InboundBridged(s: Sys, id: CallId, conference: string) {
    && id in s.rows && s.rows[id].direction == Inbound
    && s.rows[id].conference == conference && s.rows[id].state == Bridged
  }

  /** At most one inbound leg of a conference is bridged, and none while a claim that read the conference as
      free is under way. */
  ghost predicate ClaimInv(s: Sys) {
    && (forall a, b, c :: InboundBridged(s, a, c) && InboundBridged(s, b, c) ==> a == b)
    && (s.mu.Some? ==> s.mu.value.id in s.rows && s.rows[s.mu.value.id].direction == Inbound)
    && (s.mu.Some? && s.mu.value.free == Some(true) ==>
          forall a :: !InboundBridged(s, a, s.rows[s.mu.value.id].conference))
  }

  function One(b: bool): nat {
    if b then 1 else 0
  }

  /** An ended row is in exactly one place of the books, any other in none. */
  ghost predicate Booked(s: Sys, id: CallId) {
    multiset(s.counted)[id] + One(Pending(s, id)) + One(id in s.lost) + One(id in s.cleared)
    == One(InState(s.rows, id, Ended))
  }

  function Order(st: Stage): nat {
    match st
    case Counting => 0
    case Forgetting => 1
    case Signalling => 2
    case Retracting => 3
    case Taking => 4
    case Hanging => 5
    case Finishing => 6
  }

  /** The stage of a teardown comes before the other. */
  predicate Before(a: Stage, b: Stage) {
    Order(a) < Order(b)
  }

  /** One thread tears a call down, which has ended. */
  ghost predicate TearInv(s: Sys) {
    && (forall t :: t in s.tears ==>
          InState(s.rows, s.tears[t].id, Ended) && s.tears[t].id !in s.lost && s.tears[t].id !in s.cleared
          && (Before(s.tears[t].stage, Retracting) || s.tears[t].id in s.closed)
          && (Before(s.tears[t].stage, Taking) || s.tears[t].id in s.retracted))
    && (forall t, u :: t in s.tears && u in s.tears && s.tears[t].id == s.tears[u].id ==> t == u)
    && (forall id :: id in s.closed ==> InState(s.rows, id, Ended))
  }

  ghost predicate BookInv(s: Sys) {
    forall id :: Booked(s, id)
  }

  /** A teardown of the call is at the stage. */
  ghost predicate Tearing(s: Sys, id: CallId, st: Stage) {
    exists t :: t in s.tears && s.tears[t] == Tear(id, st)
  }

  /** A control leg that Invite returned is in exactly one place: with the dial thread, kept, with the thread
      that will hang it up, or hung up. */
  ghost predicate LegOnce(s: Sys, id: CallId) {
    One(DialAt(s, id, Invited)) + One(id in s.legs) + One(DialAt(s, id, HangingUp)) + One(Tearing(s, id, Hanging))
    + multiset(s.hung)[id] == One(id in s.invited)
  }

  /** A leg is invited by the dial thread that goes on with it. */
  ghost predicate LegStarts(s: Sys, id: CallId) {
    && (DialAt(s, id, Inviting) ==> id !in s.invited)
    && (id in s.invited ==> id in s.dials)
    && (id in s.dials && s.dials[id] != Inviting && s.dials[id] != Over ==> id in s.invited)
  }

  /** The teardown has yet to look for the leg. */
  ghost predicate BeforeTake(s: Sys, id: CallId) {
    Tearing(s, id, Counting) || Tearing(s, id, Forgetting) || Tearing(s, id, Signalling)
    || Tearing(s, id, Retracting) || Tearing(s, id, Taking)
  }

  /** A leg that is kept or still to come after its call has ended will be looked for by the teardown, or its
      call is early, or nobody tears it down. */
  ghost predicate LegTaken(s: Sys, id: CallId) {
    (id in s.legs || DialAt(s, id, Inviting) || DialAt(s, id, Invited)) && InState(s.rows, id, Ended) ==>
      BeforeTake(s, id) || id in s.early || id in s.lost || id in s.cleared
  }

  /** The teardown of an early call has passed its look for the leg, and only the dial thread's own loss takes
      the leg after that. */
  ghost predicate LegEarly(s: Sys, id: CallId) {
    && (id in s.faulted ==> DialAt(s, id, Over))
    && (id in s.early ==>
      && InState(s.rows, id, Ended) && !BeforeTake(s, id) && id in s.dials
      && s.dials[id] != Owns && id !in s.lost && id !in s.cleared
      && (DialAt(s, id, Kept) || DialAt(s, id, Losing) || id in s.faulted <==> id in s.legs))
  }

  /** The dial thread has not tried its transition, which is the only step that bridges its row. */
  ghost predicate LegFresh(s: Sys, id: CallId) {
    DialAt(s, id, Inviting) || DialAt(s, id, Invited) || DialAt(s, id, Kept) ==>
      !InState(s.rows, id, Bridged) && id !in s.backedOut
  }

  /** The leg of a call in progress is kept; that of one whose end was never heard of stays kept, unless the dial
      thread takes it back. */
  ghost predicate LegKept(s: Sys, id: CallId) {
    && (id in s.invited && !DialAt(s, id, Invited) && (id in s.lost || !InState(s.rows, id, Ended)) ==>
          id in s.legs || id in s.backedOut)
    && (id in s.backedOut ==>
          && InState(s.rows, id, Ended) && (DialAt(s, id, Losing) || DialAt(s, id, HangingUp) || DialAt(s, id, Over))
          && (id in s.legs ==> DialAt(s, id, Losing)))
    && (DialAt(s, id, Losing) || DialAt(s, id, HangingUp) ==> id in s.backedOut)
    && (id in s.dials ==> id !in s.cleared)
  }

  ghost predicate GoodLeg(s: Sys, id: CallId) {
    LegOnce(s, id) && LegStarts(s, id) && LegTaken(s, id) && LegEarly(s, id) && LegFresh(s, id) && LegKept(s, id)
  }

  ghost predicate LegInv(s: Sys) {
    forall id :: GoodLeg(s, id)
  }

  ghost predicate CallInv(s: Sys) {
    RowInv(s) && ClaimInv(s) && TearInv(s) && BookInv(s) && LegInv(s)
  }

  /** Some thread was told that the participant is there. */
  ghost predicate Told(did: map<Tid, seq<Event>>, id: CallId) {
    exists t :: t in did && HasReport(did[t], id)
  }

  predicate HasReport(evs: seq<Event>, id: CallId) {
    exists e :: e in evs && IsReport(e, id)
  }

  /** Whoever counts, or was read, as seen was reported to be there. */
  ghost predicate Reported(did: map<Tid, seq<Event>>, seen: set<CallId>) {
    && (forall id :: id in seen ==> Told(did, id))
    && (forall t, id :: t in did && DidReadSeen(id, true) in did[t] ==> Told(did, id))
  }

  /** The ended channel of a call is closed only when its row has ended. */
  ghost predicate Signals(ended: map<CallId, bool>, closed: set<CallId>) {
    forall id :: id in ended && ended[id] ==> id in closed
  }

  /** What was logged as inserted is in the table, and what was logged as claimed is answered for that user. */
  ghost predicate Recorded(did: map<Tid, seq<Event>>, rows: Table) {
    && (forall t, r :: t in did && DidInsert(r, true) in did[t] ==> HasTerms(rows, r))
    && (forall t, id, user :: t in did && DidClaim(id, user, true, true) in did[t] ==> AnsweredFor(rows, id, user))
  }

  ghost predicate MemInv(s: Sys) {
    Reported(s.did, s.mem.seen) && Signals(s.mem.ended, s.closed)
  }

  ghost predicate Inv(s: Sys) {
    CallInv(s) && MemInv(s) && Recorded(s.did, s.rows)
  }

  // ---- What does not change

  ghost predicate SameEnded(s: Sys, u: Sys) {
    forall id :: InState(u.rows, id, Ended) == InState(s.rows, id, Ended)
  }

  lemma TearFrame(s: Sys, u: Sys)
    requires TearInv(s) && SameEnded(s, u) && u.tears == s.tears && u.closed == s.closed
    requires u.retracted == s.retracted && u.lost == s.lost && u.cleared == s.cleared
    ensures TearInv(u)
  {
    hide InState;
  }

  lemma BookFrame(s: Sys, u: Sys)
    requires BookInv(s) && SameEnded(s, u) && forall id :: SameTearing(s, u, id)
    requires u.counted == s.counted && u.lost == s.lost && u.cleared == s.cleared
    ensures BookInv(u)
  {
    hide InState;
    forall id ensures Booked(u, id) {
      assert Booked(s, id) && SameTearing(s, u, id);
      assert Pending(u, id) == Tearing(u, id, Counting) && Pending(s, id) == Tearing(s, id, Counting);
    }
  }

  /** The books and the legs of a call depend on all stages of its teardown but the last. */
  ghost predicate SameTearing(s: Sys, u: Sys, id: CallId) {
    forall st :: st != Finishing ==> Tearing(u, id, st) == Tearing(s, id, st)
  }

  ghost predicate SameLeg(s: Sys, u: Sys, id: CallId) {
    && (id in u.dials <==> id in s.dials) && (id in s.dials ==> u.dials[id] == s.dials[id])
    && (id in u.invited <==> id in s.invited) && (id in u.legs <==> id in s.legs)
    && multiset(u.hung)[id] == multiset(s.hung)[id]
    && (id in u.faulted <==> id in s.faulted) && (id in u.early <==> id in s.early)
    && (id in u.backedOut <==> id in s.backedOut)
    && (id in s.dials ==> InState(u.rows, id, Bridged) == InState(s.rows, id, Bridged))
    && (id in u.lost <==> id in s.lost) && (id in u.cleared <==> id in s.cleared)
    && InState(u.rows, id, Ended) == InState(s.rows, id, Ended)
  }

  lemma LegFrame(s: Sys, u: Sys, id: CallId)
    requires GoodLeg(s, id) && SameLeg(s, u, id) && SameTearing(s, u, id)
    ensures GoodLeg(u, id)
  {
    hide InState, Tearing;
    assert BeforeTake(u, id) == BeforeTake(s, id);
  }

  /** Steps that touch neither teardowns nor legs, nor end a call. */
  lemma QuietKeeps(s: Sys, u: Sys)
    requires TearInv(s) && BookInv(s) && LegInv(s) && SameEnded(s, u)
    requires u == s.(rows := u.rows, mu := u.mu, owners := u.owners, mem := u.mem, clock := u.clock, did := u.did)
    requires forall id :: id in s.dials ==> InState(u.rows, id, Bridged) == InState(s.rows, id, Bridged)
    ensures TearInv(u) && BookInv(u) && LegInv(u)
  {
    TearFrame(s, u);
    assert forall id, st :: Tearing(u, id, st) == Tearing(s, id, st);
    BookFrame(s, u);
    hide InState, GoodLeg, Tearing;
    forall id ensures GoodLeg(u, id) {
      assert GoodLeg(s, id);
      LegFrame(s, u, id);
    }
  }

  /** Inbound rows are not bridged anew. */
  lemma ClaimFrame(s: Sys, u: Sys)
    requires ClaimInv(s) && u.mu == s.mu
    requires forall id, c :: InboundBridged(u, id, c) ==> InboundBridged(s, id, c)
    requires s.mu.Some? ==>
      s.mu.value.id in u.rows && u.rows[s.mu.value.id].direction == s.rows[s.mu.value.id].direction
      && u.rows[s.mu.value.id].conference == s.rows[s.mu.value.id].conference
    ensures ClaimInv(u)
  {
    hide InboundBridged;
  }

  lemma SameRows(s: Sys, u: Sys)
    requires RowInv(s) && ClaimInv(s) && u.rows == s.rows && u.mu == s.mu && u.owners == s.owners
    requires u.dials.Keys == s.dials.Keys
    ensures RowInv(u) && ClaimInv(u)
  {
    assert forall i, c :: InboundBridged(u, i, c) == InboundBridged(s, i, c);
    hide InboundBridged, KeyedById;
  }

  /** What a thread notes down changes nothing else. */
  lemma NoteKeeps(s: Sys, t: Tid, e: Event)
    requires CallInv(s)
    ensures CallInv(Note(s, t, e))
  {
    var u := Note(s, t, e);
    SameRows(s, u);
    hide RowInv, ClaimInv;
    QuietKeeps(s, u);
  }

  /** What is remembered beside the table is not looked at. */
  lemma MemoryKeeps(s: Sys, op: MemOp)
    requires CallInv(s) && CanApply(s.mem, op)
    ensures CallInv(s.(mem := Apply(s.mem, op)))
  {
    var u := s.(mem := Apply(s.mem, op));
    SameRows(s, u);
    hide RowInv, ClaimInv;
    QuietKeeps(s, u);
  }

  // ---- The claim on a conference

  lemma LockKeeps(s: Sys, t: Tid, id: CallId)
    requires CallInv(s) && Enabled(s, ALock(t, id))
    ensures CallInv(Lock(s, t, id))
  {
    QuietKeeps(s, Lock(s, t, id));
    hide TearInv, BookInv, LegInv;
    assert forall i, c :: InboundBridged(Lock(s, t, id), i, c) == InboundBridged(s, i, c);
  }

  lemma ReadKeeps(s: Sys, t: Tid)
    requires CallInv(s) && Enabled(s, AReadConference(t))
    ensures CallInv(ReadConference(s))
  {
    var u := ReadConference(s);
    QuietKeeps(s, u);
    hide TearInv, BookInv, LegInv;
    assert forall i, c :: InboundBridged(u, i, c) == InboundBridged(s, i, c);
  }

  lemma UnlockKeeps(s: Sys)
    requires CallInv(s)
    ensures CallInv(Unlock(s))
  {
    QuietKeeps(s, Unlock(s));
    hide TearInv, BookInv, LegInv;
    assert forall i, c :: InboundBridged(Unlock(s), i, c) == InboundBridged(s, i, c);
  }

  lemma CommitKeeps(s: Sys, t: Tid, user: User, now: int, fault: Fault)
    requires CallInv(s) && Enabled(s, ACommitClaim(t, user, now, fault))
    ensures CallInv(CommitClaim(s, user, now, fault))
  {
    var u := CommitClaim(s, user, now, fault);
    CommitRows(s, t, user, now, fault);
    CommitClaims(s, t, user, now, fault);
    hide RowInv, ClaimInv, Holds;
    QuietKeeps(s, u);
  }

  lemma CommitRows(s: Sys, t: Tid, user: User, now: int, fault: Fault)
    requires RowInv(s) && Enabled(s, ACommitClaim(t, user, now, fault))
    ensures RowInv(CommitClaim(s, user, now, fault)) && SameEnded(s, CommitClaim(s, user, now, fault))
  {
  }

  /** The claim is the first inbound leg of its conference to be bridged. */
  lemma CommitClaims(s: Sys, t: Tid, user: User, now: int, fault: Fault)
    requires ClaimInv(s) && Enabled(s, ACommitClaim(t, user, now, fault))
    ensures ClaimInv(CommitClaim(s, user, now, fault))
  {
    var u := CommitClaim(s, user, now, fault);
    var id := s.mu.value.id;
    assert forall i, c :: i != id ==> InboundBridged(u, i, c) == InboundBridged(s, i, c);
    forall c | InboundBridged(u, id, c)
      ensures InboundBridged(s, id, c) || (s.mu.value.free.value && c == s.rows[id].conference)
    {
    }
  }

  /** An owner's update leaves its row bridged or ended, as it was. */
  lemma UpdateKeeps(s: Sys, id: CallId, participant: string, now: int, fault: Fault)
    requires CallInv(s) && id in s.owners && id in s.rows
    ensures CallInv(UpdateCall(s, id, participant, now, fault))
  {
    var u := UpdateCall(s, id, participant, now, fault);
    QuietKeeps(s, u);
    hide TearInv, BookInv, LegInv;
    ClaimFrame(s, u);
  }

  // ---- Calls begin and end

  /** A step on one call. */
  lemma OneLeg(s: Sys, u: Sys, id: CallId)
    requires LegInv(s) && GoodLeg(u, id)
    requires forall i :: i != id ==> SameLeg(s, u, i) && SameTearing(s, u, i)
    ensures LegInv(u)
  {
    hide GoodLeg, SameLeg, SameTearing;
    forall i ensures GoodLeg(u, i) {
      if i != id {
        assert GoodLeg(s, i);
        LegFrame(s, u, i);
      }
    }
  }

  lemma InsertKeeps(s: Sys, r: CallRow, fault: Fault)
    requires CallInv(s) && r.state == Ringing
    ensures CallInv(InsertCall(s, r, fault))
  {
    var u := InsertCall(s, r, fault);
    var id := r.callId;
    if fault != FailsUndone && r.callId !in s.rows {
      InsertRows(s, u, r);
      hide RowInv, ClaimInv, SameEnded, InState, InsertRow, LegInv, TearInv, BookInv;
      InsertLeg(s, r, fault);
      InsertBooks(s, u);
    }
  }

  lemma InsertBooks(s: Sys, u: Sys)
    requires TearInv(s) && BookInv(s) && SameEnded(s, u) && u == s.(rows := u.rows, dials := u.dials)
    ensures TearInv(u) && BookInv(u)
  {
    hide SameEnded;
    TearFrame(s, u);
    assert forall i, st :: Tearing(u, i, st) == Tearing(s, i, st);
    BookFrame(s, u);
  }

  lemma InsertRows(s: Sys, u: Sys, r: CallRow)
    requires RowInv(s) && ClaimInv(s) && r.state == Ringing && r.callId !in s.rows
    requires u.rows == InsertRow(s.rows, r) && u.owners == s.owners && u.mu == s.mu
    requires forall id :: id in u.dials ==> id in s.dials || (id == r.callId && r.direction == Outbound)
    ensures RowInv(u) && ClaimInv(u) && SameEnded(s, u)
  {
    assert forall i, c :: InboundBridged(u, i, c) ==> InboundBridged(s, i, c);
    ClaimFrame(s, u);
  }

  lemma InsertLeg(s: Sys, r: CallRow, fault: Fault)
    requires RowInv(s) && LegInv(s) && TearInv(s) && BookInv(s) && r.state == Ringing && InsertCall(s, r, fault) != s
    ensures LegInv(InsertCall(s, r, fault))
  {
    var u := InsertCall(s, r, fault);
    InsertedApart(s, u, r, fault);
    assert r.callId !in s.dials;
    hide Tearing, InState, RowInv, TearInv, InsertRow, GoodLeg;
    assert GoodLeg(s, r.callId) && Booked(s, r.callId);
    hide LegInv, BookInv;
    FreshLeg(s, u, r.callId);
    InsertSame(s, u, r.callId);
    hide SameLeg;
    OneLeg(s, u, r.callId);
  }

  /** A call that was never dialled has no leg. */
  lemma FreshLeg(s: Sys, u: Sys, id: CallId)
    requires GoodLeg(s, id) && Booked(s, id) && id !in s.dials && u == s.(rows := u.rows, dials := u.dials)
    requires !InState(u.rows, id, Bridged)
    requires id in u.dials ==> DialAt(u, id, Inviting) || DialAt(u, id, Over)
    requires !InState(u.rows, id, Ended) && !InState(s.rows, id, Ended)
    requires forall st :: !Tearing(u, id, st) && !Tearing(s, id, st)
    ensures GoodLeg(u, id)
  {
    hide Tearing, InState;
  }

  lemma InsertedApart(s: Sys, u: Sys, r: CallRow, fault: Fault)
    requires RowInv(s) && TearInv(s) && r.state == Ringing && u == InsertCall(s, r, fault) && u != s
    ensures forall i, st :: Tearing(u, i, st) == Tearing(s, i, st)
    ensures forall st :: !Tearing(s, r.callId, st)
    ensures !InState(s.rows, r.callId, Ended) && !InState(u.rows, r.callId, Ended)
            && !InState(u.rows, r.callId, Bridged)
    ensures forall i :: i in s.dials ==> InState(u.rows, i, Bridged) == InState(s.rows, i, Bridged)
    ensures forall i :: i != r.callId ==> InState(u.rows, i, Ended) == InState(s.rows, i, Ended)
  {
    InsertedStates(s, u, r, fault);
    assert !InState(s.rows, r.callId, Ended);
    hide InsertRow, InState;
  }

  lemma InsertedStates(s: Sys, u: Sys, r: CallRow, fault: Fault)
    requires RowInv(s) && r.state == Ringing && u == InsertCall(s, r, fault) && u != s
    ensures r.callId !in s.rows && r.callId !in s.dials && u.tears == s.tears && InState(u.rows, r.callId, Ringing)
    ensures !InState(u.rows, r.callId, Ended) && !InState(u.rows, r.callId, Bridged)
    ensures forall i, st :: i != r.callId ==> InState(u.rows, i, st) == InState(s.rows, i, st)
  {
  }

  lemma InsertSame(s: Sys, u: Sys, id: CallId)
    requires u == s.(rows := u.rows, dials := u.dials)
    requires forall i :: i != id ==> InState(u.rows, i, Ended) == InState(s.rows, i, Ended)
    requires forall i :: i in s.dials ==> InState(u.rows, i, Bridged) == InState(s.rows, i, Bridged)
    requires u.dials == s.dials || (id in u.dials && u.dials == s.dials[id := u.dials[id]])
    ensures forall i :: i != id ==> SameLeg(s, u, i)
  {
    hide InState;
  }

  lemma EndKeeps(s: Sys, t: Tid, id: CallId, now: int, fault: Fault)
    requires CallInv(s) && t !in s.tears
    ensures CallInv(EndCall(s, t, id, now, fault))
  {
    var u := EndCall(s, t, id, now, fault);
    if u != s {
      EndBooks(s, t, id, now, fault);
      EndLeg(s, t, id, now, fault);
      EndTears(s, t, id, now, fault);
      hide BookInv, LegInv, TearInv;
      assert forall i, c :: InboundBridged(u, i, c) ==> InboundBridged(s, i, c);
      ClaimFrame(s, u);
    }
  }

  lemma EndTears(s: Sys, t: Tid, id: CallId, now: int, fault: Fault)
    requires TearInv(s) && BookInv(s) && t !in s.tears
    requires Active(s.rows, id) && fault != FailsUndone
    ensures TearInv(EndCall(s, t, id, now, fault))
  {
    var u := EndCall(s, t, id, now, fault);
    assert Booked(s, id);
    assert forall i :: InState(u.rows, i, Ended) <==> InState(s.rows, i, Ended) || i == id;
    hide InState, BookInv, EndRow;
  }

  lemma EndTearing(s: Sys, t: Tid, id: CallId, now: int, fault: Fault)
    requires TearInv(s) && t !in s.tears && Active(s.rows, id) && fault != FailsUndone
    ensures forall i, st :: Tearing(EndCall(s, t, id, now, fault), i, st) <==>
                            Tearing(s, i, st) || (i == id && st == Counting && fault == NoFault)
    ensures forall st :: !Tearing(s, id, st)
  {
    var u := EndCall(s, t, id, now, fault);
    forall i, st ensures Tearing(u, i, st) <==> Tearing(s, i, st) || (i == id && st == Counting && fault == NoFault) {
      if Tearing(s, i, st) {
        var k :| k in s.tears && s.tears[k] == Tear(i, st);
        assert k in u.tears && u.tears[k] == Tear(i, st);
      }
      if fault == NoFault {
        assert t in u.tears && u.tears[t] == Tear(id, Counting);
      }
    }
  }

  /** An ended call is pending or lost. */
  lemma EndBooks(s: Sys, t: Tid, id: CallId, now: int, fault: Fault)
    requires TearInv(s) && BookInv(s) && t !in s.tears
    requires Active(s.rows, id) && fault != FailsUndone
    ensures BookInv(EndCall(s, t, id, now, fault))
  {
    var u := EndCall(s, t, id, now, fault);
    EndTearing(s, t, id, now, fault);
    hide TearInv;
    forall i ensures Booked(u, i) {
      assert Booked(s, i);
      assert Pending(s, i) == Tearing(s, i, Counting) && Pending(u, i) == Tearing(u, i, Counting);
    }
  }

  lemma EndLeg(s: Sys, t: Tid, id: CallId, now: int, fault: Fault)
    requires TearInv(s) && LegInv(s) && t !in s.tears
    requires Active(s.rows, id) && fault != FailsUndone
    ensures LegInv(EndCall(s, t, id, now, fault))
  {
    var u := EndCall(s, t, id, now, fault);
    EndTearing(s, t, id, now, fault);
    hide TearInv, Tearing;
    assert GoodLeg(s, id);
    assert GoodLeg(u, id);
    OneLeg(s, u, id);
  }

  // ---- Teardown

  lemma StageTearing(s: Sys, t: Tid, st: Stage)
    requires TearInv(s) && t in s.tears
    ensures forall i, x :: Tearing(AtStage(s, t, st), i, x) <==>
                           if i == s.tears[t].id then x == st else Tearing(s, i, x)
    ensures forall x :: Tearing(s, s.tears[t].id, x) <==> x == s.tears[t].stage
  {
    var u := AtStage(s, t, st);
    var id := s.tears[t].id;
    assert u.tears[t] == Tear(id, st);
    forall i, x ensures Tearing(u, i, x) <==> if i == id then x == st else Tearing(s, i, x) {
      if i != id && Tearing(s, i, x) {
        var k :| k in s.tears && s.tears[k] == Tear(i, x);
        assert k in u.tears && u.tears[k] == Tear(i, x);
      }
    }
    assert s.tears[t] == Tear(id, s.tears[t].stage);
  }

  /** At most this call is touched. */
  ghost predicate Only(a: set<CallId>, b: set<CallId>, id: CallId) {
    b == a || b == a + {id} || b == a - {id}
  }

  ghost predicate OnlyMore(a: seq<CallId>, b: seq<CallId>, id: CallId) {
    b == a || b == a + [id]
  }

  ghost predicate OnlyLeg(s: Sys, u: Sys, id: CallId) {
    && Only(s.invited, u.invited, id) && Only(s.legs, u.legs, id) && OnlyMore(s.hung, u.hung, id)
    && Only(s.faulted, u.faulted, id) && Only(s.early, u.early, id) && Only(s.backedOut, u.backedOut, id)
  }

  lemma OthersSame(s: Sys, u: Sys, id: CallId)
    requires OnlyLeg(s, u, id) && u.rows == s.rows && u.lost == s.lost && u.cleared == s.cleared
    requires u.dials == s.dials || (id in u.dials && u.dials == s.dials[id := u.dials[id]])
    ensures forall i :: i != id ==> SameLeg(s, u, i)
  {
    hide InState;
  }

  /** The stage of a teardown moves on. */
  lemma StageKeeps(s: Sys, t: Tid, u: Sys, st: Stage)
    requires CallInv(s) && t in s.tears && InState(s.rows, s.tears[t].id, Ended)
    requires u == AtStage(s, t, st).(counted := u.counted, closed := u.closed, retracted := u.retracted, legs := u.legs,
                                     hung := u.hung, early := u.early, mem := u.mem)
    requires var id := s.tears[t].id;
             && (u.closed == s.closed || u.closed == s.closed + {id}) && OnlyLeg(s, u, id)
             && (u.retracted == s.retracted || u.retracted == s.retracted + {id})
             && (Before(st, Retracting) || id in u.closed) && (Before(st, Taking) || id in u.retracted)
             && st != Counting && u.counted == s.counted + if s.tears[t].stage == Counting then [id] else []
    requires (forall x :: Tearing(u, s.tears[t].id, x) <==> x == st) ==> GoodLeg(u, s.tears[t].id)
    ensures CallInv(u)
  {
    var id := s.tears[t].id;
    StageTearing(s, t, st);
    hide InState, GoodLeg, SameLeg, OnlyLeg;
    SameRows(s, u);
    hide RowInv, ClaimInv;
    StageTears(s, t, u, st);
    hide TearInv, Before;
    assert forall i, x :: Tearing(u, i, x) == Tearing(AtStage(s, t, st), i, x);
    StageBooks(s, t, u, st);
    OthersSame(s, u, id);
    hide Tearing;
    OneLeg(s, u, id);
  }

  lemma StageTears(s: Sys, t: Tid, u: Sys, st: Stage)
    requires TearInv(s) && t in s.tears && InState(s.rows, s.tears[t].id, Ended)
    requires u.tears == AtStage(s, t, st).tears && u.rows == s.rows && u.lost == s.lost && u.cleared == s.cleared
    requires var id := s.tears[t].id;
             && (u.closed == s.closed || u.closed == s.closed + {id})
             && (u.retracted == s.retracted || u.retracted == s.retracted + {id})
             && (Before(st, Retracting) || id in u.closed) && (Before(st, Taking) || id in u.retracted)
    ensures TearInv(u)
  {
    hide InState, Before;
  }

  lemma StageBooks(s: Sys, t: Tid, u: Sys, st: Stage)
    requires BookInv(s) && t in s.tears
    requires u.rows == s.rows && u.lost == s.lost && u.cleared == s.cleared
    requires st != Counting && u.counted == s.counted + if s.tears[t].stage == Counting then [s.tears[t].id] else []
    requires forall i, x :: Tearing(u, i, x) <==> if i == s.tears[t].id then x == st else Tearing(s, i, x)
    requires forall x :: Tearing(s, s.tears[t].id, x) <==> x == s.tears[t].stage
    ensures BookInv(u)
  {
    hide InState;
    forall i ensures Booked(u, i) {
      assert Booked(s, i);
      assert Pending(s, i) == Tearing(s, i, Counting) && Pending(u, i) == Tearing(u, i, Counting);
      hide Tearing, Pending;
    }
  }

  lemma TearFacts(s: Sys, t: Tid, st: Stage)
    requires CallInv(s) && t in s.tears
    ensures var id := s.tears[t].id;
            GoodLeg(s, id) && InState(s.rows, id, Ended) && id !in s.lost && id !in s.cleared
    ensures Before(s.tears[t].stage, Retracting) || s.tears[t].id in s.closed
    ensures Before(s.tears[t].stage, Taking) || s.tears[t].id in s.retracted
    ensures forall x :: Tearing(s, s.tears[t].id, x) <==> x == s.tears[t].stage
  {
    StageTearing(s, t, st);
    hide Tearing;
  }

  lemma HungMore(hung: seq<CallId>, id: CallId)
    ensures multiset(hung + [id])[id] == multiset(hung)[id] + 1
  {
  }

  lemma LegFacts(s: Sys, id: CallId)
    requires CallInv(s)
    ensures GoodLeg(s, id)
    ensures id in s.dials ==> id in s.rows && s.rows[id].direction == Outbound
  {
    hide GoodLeg;
  }

  lemma CountKeeps(s: Sys, t: Tid)
    requires CallInv(s) && Enabled(s, ACount(t))
    ensures CallInv(CountCall(s, t))
  {
    hide CallInv, Tearing, InState;
    TearFacts(s, t, Forgetting);
    StageKeeps(s, t, CountCall(s, t), Forgetting);
  }

  lemma ForgetKeeps(s: Sys, t: Tid)
    requires CallInv(s) && Enabled(s, AForget(t))
    ensures CallInv(ForgetMark(s, t))
  {
    hide CallInv, Tearing, InState;
    TearFacts(s, t, Signalling);
    StageKeeps(s, t, ForgetMark(s, t), Signalling);
  }

  lemma SignalKeeps(s: Sys, t: Tid)
    requires CallInv(s) && Enabled(s, ASignal(t))
    ensures CallInv(SignalEnded(s, t))
  {
    hide CallInv, Tearing, InState;
    TearFacts(s, t, Retracting);
    StageKeeps(s, t, SignalEnded(s, t), Retracting);
  }

  lemma RetractKeeps(s: Sys, t: Tid)
    requires CallInv(s) && Enabled(s, ARetract(t))
    ensures CallInv(Retract(s, t))
  {
    hide CallInv, Tearing, InState;
    TearFacts(s, t, Taking);
    StageKeeps(s, t, Retract(s, t), Taking);
  }

  lemma TakeKeeps(s: Sys, t: Tid)
    requires CallInv(s) && Enabled(s, ATake(t))
    ensures CallInv(TakeLeg(s, t))
  {
    var id := s.tears[t].id;
    var u := TakeLeg(s, t);
    var st := if id in s.legs then Hanging else Finishing;
    hide CallInv, Tearing, InState;
    TearFacts(s, t, st);
    TakeGood(s, t, u, st);
    TakeOnly(s, t);
    assert Before(Taking, Hanging) && !Before(Taking, Retracting) && !Before(Taking, Taking);
    hide GoodLeg, OnlyLeg, Before, Enabled, TakeLeg;
    StageKeeps(s, t, u, st);
  }

  lemma TakeOnly(s: Sys, t: Tid)
    requires t in s.tears
    ensures var u := TakeLeg(s, t);
            var st := if s.tears[t].id in s.legs then Hanging else Finishing;
            OnlyLeg(s, u, s.tears[t].id) && u == AtStage(s, t, st).(legs := u.legs, early := u.early)
  {
  }

  lemma TakeGood(s: Sys, t: Tid, u: Sys, st: Stage)
    requires TearAt(s, t, Taking) && u == TakeLeg(s, t) && st == if s.tears[t].id in s.legs then Hanging else Finishing
    requires var id := s.tears[t].id;
             GoodLeg(s, id) && InState(s.rows, id, Ended) && id !in s.lost && id !in s.cleared
    requires forall x :: Tearing(s, s.tears[t].id, x) <==> x == Taking
    ensures (forall x :: Tearing(u, s.tears[t].id, x) <==> x == st) ==> GoodLeg(u, s.tears[t].id)
  {
    hide Tearing, InState;
  }

  lemma HangKeeps(s: Sys, t: Tid)
    requires CallInv(s) && Enabled(s, AHang(t))
    ensures CallInv(HangUp(s, t))
  {
    hide CallInv, Tearing, InState;
    TearFacts(s, t, Finishing);
    HungMore(s.hung, s.tears[t].id);
    StageKeeps(s, t, HangUp(s, t), Finishing);
  }

  lemma FinishKeeps(s: Sys, t: Tid)
    requires CallInv(s) && Enabled(s, AFinish(t))
    ensures CallInv(FinishTear(s, t))
  {
    var u := FinishTear(s, t);
    SameRows(s, u);
    hide RowInv, ClaimInv;
    FinishTearing(s, t);
    hide Tearing, InState, GoodLeg, TearInv;
    assert SameEnded(s, u);
    BookFrame(s, u);
    forall i ensures GoodLeg(u, i) {
      assert GoodLeg(s, i);
      LegFrame(s, u, i);
    }
  }

  lemma FinishTearing(s: Sys, t: Tid)
    requires TearInv(s) && Enabled(s, AFinish(t))
    ensures TearInv(FinishTear(s, t))
    ensures forall i, x :: x != Finishing ==> Tearing(FinishTear(s, t), i, x) == Tearing(s, i, x)
  {
    var u := FinishTear(s, t);
    forall i, x | x != Finishing ensures Tearing(u, i, x) == Tearing(s, i, x) {
      if Tearing(s, i, x) {
        var k :| k in s.tears && s.tears[k] == Tear(i, x);
        assert k in u.tears && u.tears[k] == Tear(i, x);
      }
    }
  }

  // ---- Dialling

  /** A step of the dial thread of one call. */
  lemma DialKeeps(s: Sys, u: Sys, id: CallId)
    requires CallInv(s) && id in s.dials && id in u.dials && OnlyLeg(s, u, id)
    requires u == s.(dials := s.dials[id := u.dials[id]], invited := u.invited, legs := u.legs, hung := u.hung,
                     faulted := u.faulted, backedOut := u.backedOut)
    requires (forall x :: Tearing(u, id, x) == Tearing(s, id, x)) ==> GoodLeg(u, id)
    ensures CallInv(u)
  {
    hide InState, GoodLeg, SameLeg, OnlyLeg;
    assert forall i, x :: Tearing(u, i, x) == Tearing(s, i, x);
    SameRows(s, u);
    hide RowInv, ClaimInv;
    hide Tearing;
    BookFrame(s, u);
    OthersSame(s, u, id);
    OneLeg(s, u, id);
  }

  lemma InviteKeeps(s: Sys, id: CallId, ok: bool)
    requires CallInv(s) && DialAt(s, id, Inviting)
    ensures CallInv(InviteLeg(s, id, ok))
  {
    hide CallInv, Tearing, InState;
    LegFacts(s, id);
    DialKeeps(s, InviteLeg(s, id, ok), id);
  }

  lemma AbandonKeeps(s: Sys, id: CallId)
    requires CallInv(s) && DialAt(s, id, Inviting)
    ensures CallInv(DialTo(s, id, Over))
  {
    InviteKeeps(s, id, false);
  }

  lemma KeepKeeps(s: Sys, id: CallId)
    requires CallInv(s) && Enabled(s, AKeepLeg(id))
    ensures CallInv(KeepLeg(s, id))
  {
    hide CallInv, Tearing, InState;
    LegFacts(s, id);
    DialKeeps(s, KeepLeg(s, id), id);
  }

  lemma DialTakeKeeps(s: Sys, id: CallId)
    requires CallInv(s) && Enabled(s, ADialTake(id))
    ensures CallInv(DialTakeLeg(s, id))
  {
    hide CallInv, Tearing, InState;
    LegFacts(s, id);
    DialKeeps(s, DialTakeLeg(s, id), id);
  }

  lemma DialHangKeeps(s: Sys, id: CallId)
    requires CallInv(s) && Enabled(s, ADialHang(id))
    ensures CallInv(DialHangUp(s, id))
  {
    hide CallInv, Tearing, InState;
    LegFacts(s, id);
    HungMore(s.hung, id);
    DialKeeps(s, DialHangUp(s, id), id);
  }

  lemma OwnerDoneKeeps(s: Sys, id: CallId)
    requires CallInv(s) && Enabled(s, AOwnerDone(id))
    ensures CallInv(DialTo(s, id, Over))
  {
    hide CallInv, Tearing, InState;
    LegFacts(s, id);
    DialKeeps(s, DialTo(s, id, Over), id);
  }

  /** The row that the transition bridges; outbound rows do not touch the claim. */
  lemma BridgeKeeps(s: Sys, id: CallId, now: int)
    requires CallInv(s) && (DialAt(s, id, Owns) || DialAt(s, id, Over))
    ensures CallInv(s.(rows := TransitionRow(s.rows, id, Ringing, Bridged, now)))
  {
    var u := s.(rows := TransitionRow(s.rows, id, Ringing, Bridged, now));
    BridgeRows(s, u, id, now);
    BridgeLeg(s, u, id, now);
    hide LegInv, RowInv, ClaimInv, InState, TransitionRow;
    TearFrame(s, u);
    assert forall i, st :: Tearing(u, i, st) == Tearing(s, i, st);
    BookFrame(s, u);
  }

  lemma BridgeRows(s: Sys, u: Sys, id: CallId, now: int)
    requires RowInv(s) && ClaimInv(s) && id in s.dials
    requires u == s.(rows := TransitionRow(s.rows, id, Ringing, Bridged, now))
    ensures RowInv(u) && ClaimInv(u) && SameEnded(s, u)
  {
    ClaimFrame(s, u);
  }

  lemma BridgeLeg(s: Sys, u: Sys, id: CallId, now: int)
    requires LegInv(s) && (DialAt(s, id, Owns) || DialAt(s, id, Over))
    requires u == s.(rows := TransitionRow(s.rows, id, Ringing, Bridged, now))
    ensures LegInv(u)
  {
    assert forall i, st :: Tearing(u, i, st) == Tearing(s, i, st);
    assert forall i :: InState(u.rows, i, Ended) == InState(s.rows, i, Ended);
    assert forall i :: i != id ==> InState(u.rows, i, Bridged) == InState(s.rows, i, Bridged);
    hide Tearing, InState, TransitionRow;
    assert GoodLeg(s, id);
    assert BeforeTake(u, id) == BeforeTake(s, id);
    OneLeg(s, u, id);
  }

  lemma OwnersKeep(s: Sys, id: CallId)
    requires CallInv(s) && InState(s.rows, id, Bridged)
    ensures CallInv(s.(owners := s.owners + {id}))
  {
    var u := s.(owners := s.owners + {id});
    QuietKeeps(s, u);
    hide TearInv, BookInv, LegInv;
    ClaimFrame(s, u);
  }

  lemma TransitionKeeps(s: Sys, id: CallId, now: int, fault: Fault)
    requires CallInv(s) && DialAt(s, id, Kept)
    ensures CallInv(Transition(s, id, now, fault))
  {
    var won := InState(s.rows, id, Ringing);
    LegFacts(s, id);
    assert !won ==> InState(s.rows, id, Ended);
    assert won ==> !InState(s.rows, id, Ended);
    var v := AfterTransition(s, id, won, fault);
    AfterTransitionKeeps(s, id, won, fault);
    var w := if fault == FailsUndone || !won then v else v.(rows := TransitionRow(s.rows, id, Ringing, Bridged, now));
    assert !won ==> TransitionRow(s.rows, id, Ringing, Bridged, now) == s.rows;
    assert won && fault != FailsUndone ==> InState(w.rows, id, Bridged);
    hide TransitionRow, InState, CallInv, GoodLeg;
    if w != v {
      BridgeKeeps(v, id, now);
    }
    if won && fault == NoFault {
      OwnersKeep(w, id);
    }
  }

  function AfterTransition(s: Sys, id: CallId, won: bool, fault: Fault): Sys {
    if fault != NoFault then DialTo(s, id, Over).(faulted := s.faulted + {id})
    else if won then DialTo(s, id, Owns)
    else DialTo(s, id, Losing).(backedOut := s.backedOut + {id})
  }

  lemma AfterTransitionKeeps(s: Sys, id: CallId, won: bool, fault: Fault)
    requires CallInv(s) && DialAt(s, id, Kept) && (won <==> !InState(s.rows, id, Ended))
    ensures CallInv(AfterTransition(s, id, won, fault))
  {
    hide CallInv, Tearing, InState;
    LegFacts(s, id);
    DialKeeps(s, AfterTransition(s, id, won, fault), id);
  }

  // ---- Restart

  lemma RestartKeeps(s: Sys, now: int)
    requires CallInv(s)
    ensures CallInv(Restart(s, now))
  {
    var u := Restart(s, now);
    assert forall i, c :: !InboundBridged(u, i, c);
    assert forall i, st :: !Tearing(u, i, st);
    forall i ensures Booked(u, i) && GoodLeg(u, i) {
      assert Booked(s, i);
      assert !Pending(u, i);
    }
  }

  lemma TickKeeps(s: Sys, now: int)
    requires CallInv(s)
    ensures CallInv(s.(clock := now))
  {
    var u := s.(clock := now);
    SameRows(s, u);
    hide RowInv, ClaimInv;
    QuietKeeps(s, u);
  }

  // ---- Every step

  lemma EffectKeeps(s: Sys, a: Step)
    requires CallInv(s) && Enabled(s, a)
    ensures CallInv(Effect(s, a))
  {
    hide CallInv, InsertCall, Lock, ReadConference, CommitClaim, Unlock, UpdateCall, EndCall, CountCall,
         ForgetMark, SignalEnded, Retract, TakeLeg, HangUp, FinishTear, InviteLeg, KeepLeg, Transition, DialTakeLeg,
         DialHangUp, DialTo, Restart, IsEffect, Apply, Honest;
    match a
    case AInsert(_, r, fault) => InsertKeeps(s, r, fault);
    case ALock(t, id) => LockKeeps(s, t, id);
    case AReadConference(t) => ReadKeeps(s, t);
    case ACommitClaim(t, user, now, fault) => CommitKeeps(s, t, user, now, fault);
    case AUnlock(_) => UnlockKeeps(s);
    case AUpdate(_, id, participant, now, fault) => UpdateKeeps(s, id, participant, now, fault);
    case AEnd(t, id, _, now, fault) => EndKeeps(s, t, id, now, fault);
    case ACount(t) => CountKeeps(s, t);
    case AForget(t) => ForgetKeeps(s, t);
    case ASignal(t) => SignalKeeps(s, t);
    case ARetract(t) => RetractKeeps(s, t);
    case ATake(t) => TakeKeeps(s, t);
    case AHang(t) => HangKeeps(s, t);
    case AFinish(t) => FinishKeeps(s, t);
    case AInvite(_, id, ok) => InviteKeeps(s, id, ok);
    case AAbandon(id) => AbandonKeeps(s, id);
    case AKeepLeg(id) => KeepKeeps(s, id);
    case ATransition(_, id, now, fault) => TransitionKeeps(s, id, now, fault);
    case ADialTake(id) => DialTakeKeeps(s, id);
    case ADialHang(id) => DialHangKeeps(s, id);
    case AOwnerDone(id) => OwnerDoneKeeps(s, id);
    case AMemory(_, op) => MemoryKeeps(s, op);
    case ANote(_, _) =>
    case ATick(now) => TickKeeps(s, now);
    case ARestart(now) => RestartKeeps(s, now);
  }

  // ---- What is remembered

  lemma LongerTold(did: map<Tid, seq<Event>>, t: Tid, e: Event, id: CallId)
    requires Told(did, id)
    ensures Told(did[t := (if t in did then did[t] else []) + [e]], id)
  {
    var more := did[t := (if t in did then did[t] else []) + [e]];
    var u :| u in did && HasReport(did[u], id);
    assert u in more && HasReport(more[u], id);
  }

  /** A thread notes something more. */
  lemma NoteReported(s: Sys, t: Tid, e: Event)
    requires Reported(s.did, s.mem.seen) && (forall id :: e == DidReadSeen(id, true) ==> id in s.mem.seen)
    ensures Reported(Note(s, t, e).did, s.mem.seen)
  {
    var more := Note(s, t, e).did;
    forall id | Told(s.did, id) ensures Told(more, id) {
      LongerTold(s.did, t, e, id);
    }
    hide Told;
    forall u, id | u in more && DidReadSeen(id, true) in more[u] ensures Told(more, id) {
      assert (u in s.did && DidReadSeen(id, true) in s.did[u]) || e == DidReadSeen(id, true);
    }
  }

  lemma MarkReported(s: Sys, t: Tid, op: MemOp)
    requires MemInv(s) && MayApply(s, t, op)
    ensures MemInv(s.(mem := Apply(s.mem, op)))
  {
    if op.Marks? {
      assert IsReport(s.did[t][|s.did[t]| - 1], op.id) && HasReport(s.did[t], op.id);
    }
    hide Told, IsReport, JustSeen;
  }

  /** The steps that write to the table. */
  predicate Writes(a: Step) {
    a.AInsert? || a.ACommitClaim? || a.AUpdate? || a.AEnd? || a.ATransition? || a.ARestart?
  }

  /** The steps that change what is remembered beside the table. */
  predicate OnMemory(a: Step) {
    a.AMemory? || a.AForget? || a.ASignal? || a.ARetract?
  }

  ghost predicate SameMemory(s: Sys, u: Sys) {
    u.mem == s.mem && u.did == s.did && u.closed == s.closed
  }

  lemma CommitMemory(s: Sys, t: Tid, user: User, now: int, fault: Fault)
    requires Enabled(s, ACommitClaim(t, user, now, fault))
    ensures SameMemory(s, CommitClaim(s, user, now, fault))
  {
    hide ClaimRow, InState;
  }

  lemma TransitionMemory(s: Sys, id: CallId, now: int, fault: Fault)
    ensures SameMemory(s, Transition(s, id, now, fault))
  {
    hide TransitionRow, InState;
  }

  lemma WrittenMemory(s: Sys, a: Step)
    requires Writes(a) && Enabled(s, a) && !a.ARestart?
    ensures SameMemory(s, Effect(s, a))
  {
    hide InsertRow, UpdateRow, EndRow, Active, Restart, Media, DialAt, CommitClaim, Transition, SameMemory;
    match a
    case AInsert(_, r, fault) => InsertMemory(s, r, fault);
    case ACommitClaim(t, user, now, fault) => CommitMemory(s, t, user, now, fault);
    case AUpdate(_, id, participant, now, fault) => UpdateMemory(s, id, participant, now, fault);
    case AEnd(t, id, _, now, fault) => EndMemory(s, t, id, now, fault);
    case ATransition(_, id, now, fault) => TransitionMemory(s, id, now, fault);
  }

  lemma InsertMemory(s: Sys, r: CallRow, fault: Fault)
    ensures SameMemory(s, InsertCall(s, r, fault))
  {
  }

  lemma UpdateMemory(s: Sys, id: CallId, participant: string, now: int, fault: Fault)
    requires id in s.rows
    ensures SameMemory(s, UpdateCall(s, id, participant, now, fault))
  {
  }

  lemma EndMemory(s: Sys, t: Tid, id: CallId, now: int, fault: Fault)
    ensures SameMemory(s, EndCall(s, t, id, now, fault))
  {
  }

  lemma QuietMemory(s: Sys, a: Step)
    requires !Writes(a) && Enabled(s, a) && !OnMemory(a)
    ensures SameMemory(s, Effect(s, a))
  {
    hide Active, AllActive, Restart, DialAt, Honest, MayApply, ConferenceFree, IsEffect;
  }

  lemma EffectDid(s: Sys, a: Step)
    requires Enabled(s, a) && !a.ARestart?
    ensures Effect(s, a).did == s.did && (!OnMemory(a) ==> SameMemory(s, Effect(s, a)))
  {
    if !OnMemory(a) {
      hide Effect, Enabled;
      if Writes(a) {
        WrittenMemory(s, a);
      } else {
        QuietMemory(s, a);
      }
    } else {
      hide MayApply, Apply, CloseEnded, Forget, WithoutNotifies;
    }
  }

  lemma EffectReported(s: Sys, a: Step)
    requires MemInv(s) && Enabled(s, a)
    ensures MemInv(Effect(s, a))
  {
    if a.AMemory? {
      MarkReported(s, a.t, a.op);
    } else if !OnMemory(a) && !a.ARestart? {
      hide Effect, Enabled;
      EffectDid(s, a);
    } else {
      hide Told;
    }
    hide Reported, Apply, MayApply;
  }

  /** What was read as seen had been reported by a thread that was told of it. */
  lemma StepReported(s: Sys, a: Step)
    requires MemInv(s) && Enabled(s, a)
    ensures MemInv(Next(s, a))
  {
    EffectReported(s, a);
    if Logs(a) {
      LoggedSeen(s, a);
      EffectDid(s, a);
      hide Reported, Signals, Effect, Logged, Enabled;
      NoteReported(Effect(s, a), a.t, Logged(s, a));
    }
  }

  lemma LoggedSeen(s: Sys, a: Step)
    requires Enabled(s, a) && Logs(a)
    ensures forall id :: Logged(s, a) == DidReadSeen(id, true) ==> id in Effect(s, a).mem.seen
  {
  }

  lemma StaysRecorded(did: map<Tid, seq<Event>>, rows: Table, u: Table)
    requires Recorded(did, rows) && Forward(rows, u)
    ensures Recorded(did, u)
  {
  }

  lemma NoteRecorded(s: Sys, t: Tid, e: Event)
    requires Recorded(s.did, s.rows)
    requires forall r :: e == DidInsert(r, true) ==> HasTerms(s.rows, r)
    requires forall id, user :: e == DidClaim(id, user, true, true) ==> AnsweredFor(s.rows, id, user)
    ensures Recorded(Note(s, t, e).did, s.rows)
  {
    var more := Note(s, t, e).did;
    forall u, r | u in more && DidInsert(r, true) in more[u] ensures HasTerms(s.rows, r) {
      assert (u in s.did && DidInsert(r, true) in s.did[u]) || e == DidInsert(r, true);
    }
    forall u, id, user | u in more && DidClaim(id, user, true, true) in more[u] ensures AnsweredFor(s.rows, id, user) {
      assert (u in s.did && DidClaim(id, user, true, true) in s.did[u]) || e == DidClaim(id, user, true, true);
    }
  }

  lemma LoggedRecorded(s: Sys, a: Step)
    requires Enabled(s, a) && Logs(a)
    ensures forall r :: Logged(s, a) == DidInsert(r, true) ==> HasTerms(Effect(s, a).rows, r)
    ensures forall id, user ::
      Logged(s, a) == DidClaim(id, user, true, true) ==> AnsweredFor(Effect(s, a).rows, id, user)
  {
    hide Honest, MayApply, Apply;
  }

  /** The table goes on to hold what was logged as inserted, and who was logged to have won his claim. */
  lemma StepRecorded(s: Sys, a: Step)
    requires CallInv(s) && Recorded(s.did, s.rows) && Enabled(s, a)
    ensures Recorded(Next(s, a).did, Next(s, a).rows)
  {
    if !a.ARestart? {
      EffectDid(s, a);
      EffectForward(s, a);
      hide CallInv, Forward, Effect, Logged, Enabled;
      StaysRecorded(s.did, s.rows, Effect(s, a).rows);
      hide Recorded;
      if Logs(a) {
        LoggedRecorded(s, a);
        NoteRecorded(Effect(s, a), a.t, Logged(s, a));
      }
    }
  }

  /** Every step of every thread, and a restart, keep all of it. */
  lemma StepKeeps(s: Sys, a: Step)
    requires Inv(s) && Enabled(s, a)
    ensures Inv(Next(s, a))
  {
    hide CallInv, MemInv, Recorded, Effect, Enabled, Note, Logged, Next;
    StepCalls(s, a);
    StepReported(s, a);
    StepRecorded(s, a);
  }

  lemma StepCalls(s: Sys, a: Step)
    requires CallInv(s) && Enabled(s, a)
    ensures CallInv(Next(s, a))
  {
    hide CallInv, Effect, Enabled, Note, Logged;
    EffectKeeps(s, a);
    if Logs(a) {
      NoteKeeps(Effect(s, a), a.t, Logged(s, a));
    }
  }

  lemma InitKeeps()
    ensures Inv(INIT)
  {
    assert forall i, st :: !Tearing(INIT, i, st);
    assert forall i :: !Pending(INIT, i);
    assert forall i, c :: !InboundBridged(INIT, i, c);
  }

  lemma CommitForward(s: Sys, t: Tid, user: User, now: int, fault: Fault)
    requires Enabled(s, ACommitClaim(t, user, now, fault))
    ensures Forward(s.rows, CommitClaim(s, user, now, fault).rows)
  {
    hide Forward, ClaimRow;
    ForwardSelf(s.rows);
    ClaimForward(s.rows, s.mu.value.id, user, now, true);
  }

  lemma UpdateCallForward(s: Sys, id: CallId, participant: string, now: int, fault: Fault)
    requires RowInv(s) && id in s.owners && id in s.rows
    ensures Forward(s.rows, UpdateCall(s, id, participant, now, fault).rows)
  {
    hide Forward, UpdateRow;
    ForwardSelf(s.rows);
    UpdateForward(s.rows, Media(s, id, participant, now));
  }

  lemma InsertCallForward(s: Sys, r: CallRow, fault: Fault)
    ensures Forward(s.rows, InsertCall(s, r, fault).rows)
  {
    hide Forward, InsertRow;
    ForwardSelf(s.rows);
    InsertForward(s.rows, r);
  }

  lemma EndCallForward(s: Sys, t: Tid, id: CallId, now: int, fault: Fault)
    ensures Forward(s.rows, EndCall(s, t, id, now, fault).rows)
  {
    hide Forward, EndRow;
    ForwardSelf(s.rows);
    EndForward(s.rows, id, now);
  }

  lemma DialForward(s: Sys, id: CallId, now: int, fault: Fault)
    ensures Forward(s.rows, Transition(s, id, now, fault).rows)
  {
    hide Forward, TransitionRow;
    ForwardSelf(s.rows);
    TransitionForward(s.rows, id, now);
  }

  lemma RestartForward(s: Sys, now: int)
    ensures Forward(s.rows, Restart(s, now).rows)
  {
    EndAllForward(s.rows, now);
  }

  /** Rows only move forward, whoever writes late. */
  lemma EffectForward(s: Sys, a: Step)
    requires CallInv(s) && Enabled(s, a)
    ensures Forward(s.rows, Effect(s, a).rows)
  {
    hide CallInv, RowInv, Forward, InsertCall, CommitClaim, UpdateCall, EndCall, Transition, Restart, CountCall,
         ForgetMark, SignalEnded, Retract, TakeLeg, HangUp, FinishTear, InviteLeg, KeepLeg, DialTakeLeg, DialHangUp,
         DialTo, Lock, ReadConference, Unlock, IsEffect, MayApply, Honest;
    RowFacts(s);
    ForwardSelf(s.rows);
    match a
    case AInsert(_, r, fault) => InsertCallForward(s, r, fault);
    case ACommitClaim(t, user, now, fault) => CommitForward(s, t, user, now, fault);
    case AUpdate(_, id, participant, now, fault) => UpdateCallForward(s, id, participant, now, fault);
    case AEnd(t, id, _, now, fault) => EndCallForward(s, t, id, now, fault);
    case ATransition(_, id, now, fault) => DialForward(s, id, now, fault);
    case ARestart(now) => RestartForward(s, now);
    case _ =>
      QuietRows(s, a);
  }

  lemma StepForward(s: Sys, a: Step)
    requires Inv(s) && Enabled(s, a)
    ensures Forward(s.rows, Next(s, a).rows)
  {
    EffectForward(s, a);
    hide CallInv, Effect, Enabled, Logged, Forward;
  }

  /** A row that a step writes bears the time of that step, and one that was there stays as old as it was. */
  lemma StepDates(s: Sys, a: Step)
    requires Enabled(s, a)
    ensures Dated(s.rows, Next(s, a).rows, Next(s, a).clock)
  {
    EffectDates(s, a);
    hide Effect, Enabled, Logged, Dated;
  }

  lemma EffectDates(s: Sys, a: Step)
    requires Enabled(s, a)
    ensures Dated(s.rows, Effect(s, a).rows, Effect(s, a).clock)
  {
    if Writes(a) {
      WrittenDates(s, a);
    } else {
      QuietRows(s, a);
      hide Effect, Enabled;
    }
  }

  lemma CommitDates(s: Sys, t: Tid, user: User, now: int, fault: Fault)
    requires Enabled(s, ACommitClaim(t, user, now, fault))
    ensures Dated(s.rows, CommitClaim(s, user, now, fault).rows, now)
    ensures CommitClaim(s, user, now, fault).clock == s.clock
  {
    hide ClaimRow, Dated, InState;
    ChangeDated(s.rows, s.mu.value.id, user, now);
  }

  lemma TransitionDates(s: Sys, id: CallId, now: int, fault: Fault)
    ensures Dated(s.rows, Transition(s, id, now, fault).rows, now) && Transition(s, id, now, fault).clock == s.clock
  {
    hide TransitionRow, Dated, InState;
    ChangeDated(s.rows, id, NOBODY, now);
  }

  lemma WrittenDates(s: Sys, a: Step)
    requires Writes(a) && Enabled(s, a)
    ensures Dated(s.rows, Effect(s, a).rows, Effect(s, a).clock)
  {
    hide InsertRow, ClaimRow, UpdateRow, EndRow, TransitionRow, EndAllRows, Dated, InState, Active, Pending, AllActive,
         CommitClaim, Transition;
    ChangeDated(s.rows, "", NOBODY, Effect(s, a).clock);
    match a
    case AInsert(_, r, _) => RecordDated(s.rows, r);
    case ACommitClaim(t, user, now, fault) => CommitDates(s, t, user, now, fault);
    case AUpdate(_, id, participant, now, _) => RecordDated(s.rows, Media(s, id, participant, now));
    case AEnd(_, id, _, now, _) => ChangeDated(s.rows, id, NOBODY, now);
    case ATransition(_, id, now, fault) => TransitionDates(s, id, now, fault);
    case ARestart(now) => ChangeDated(s.rows, "", NOBODY, now);
  }

  lemma RowFacts(s: Sys)
    requires CallInv(s)
    ensures RowInv(s)
  {
  }

  lemma QuietRows(s: Sys, a: Step)
    requires Enabled(s, a)
    requires !(a.AInsert? || a.ACommitClaim? || a.AUpdate? || a.AEnd? || a.ATransition? || a.ARestart?)
    ensures Effect(s, a).rows == s.rows
  {
    hide Active, DialAt, Honest, MayApply, ConferenceFree, IsEffect, Apply;
  }
}
