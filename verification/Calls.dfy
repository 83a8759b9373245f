/** pkg/calls/subsystem.go as code: the threads that answer, end and dial calls, with any steps of the others
    between any two statements. */
module Calls {
  import opened Results
  import opened CallTable
  import opened CallMemory
  import opened CallProtocol
  import opened CallThreads
  import opened Transcripts
  import Leg
  import PortalId

  /** What a thread that holds no call of its own gives for one. */
  const NO_CALL: CallId := ""

  /** How much longer than the ring timeout a row may claim to ring, in milliseconds. */
  const RING_SETUP_GRACE := 60_000

  /** database.Call: what a thread knows of a call. */
  class Call {
    const callId: CallId
    const portalId: string
    const room: Room
    const receiver: User
    const direction: Direction
    const conference: string
    const lkRoom: string
    const lkIdentity: string
    var matrixUser: User
    var lkParticipant: string
    var state: CallState
    var createdAt: int
    var updatedAt: int

    constructor (r: CallRow)
      ensures Row() == r
    {
      callId, portalId, room, receiver, direction := r.callId, r.portalId, r.room, r.receiver, r.direction;
      conference, lkRoom, lkIdentity := r.conference, r.lkRoom, r.lkIdentity;
      matrixUser, lkParticipant, state := r.matrixUser, r.lkParticipant, r.state;
      createdAt, updatedAt := r.createdAt, r.updatedAt;
    }

    function Row(): CallRow
      reads this
    {
      CallRow(callId, portalId, room, receiver, matrixUser, direction, conference, lkRoom, lkIdentity, lkParticipant,
              state, createdAt, updatedAt)
    }
  }

  /** How a dial ended: the call is up, it is to be ended, or it was ended while the phone rang. */
  datatype DialOutcome = DialPlaced | DialFailed(reason: string) | DialLost

  /** What releases the thread that holds a ringing leg. */
  datatype Wake = Joined | CallEnded | Declined | LegDone | RingTimeout | ContextDone

  /** mediaFailureReason. */
  function MediaFailureReason(noTrunk: bool): string {
    if noTrunk then NO_ROUTE else COULD_NOT_CONNECT
  }

  /** conferenceFor. */
  function ConferenceFor(prefix: string, portalId: string): string {
    prefix + portalId
  }

  /** portalIDFromConference: the inverse, for a conference of this bridge. */
  function PortalIdOf(prefix: string, conference: string): Option<string> {
    if prefix != "" && prefix < conference then Some(conference[|prefix|..]) else None
  }

  class Subsystem {
    const enabled: bool
    const conferencePrefix: string
    /** Both in milliseconds. */
    const ringTimeout: nat
    const membershipExpiry: nat

    /** LiveKitRoomName. */
    const lkRoomName: Room -> string

    /** How many calls of the last run were still open. */
    const open: nat

    /** The sip_call table. */
    var rows: Table
    /** answerMu, with what the Answer under it has read. */
    var mu: Option<Claim>
    /** The channels by call: whether ended and declined are closed, and what answered holds. */
    var ended: map<CallId, bool>
    var declined: map<CallId, bool>
    var answered: map<CallId, Option<User>>
    var notifies: map<EventId, CallId>
    /** What time.Now gives. */
    var clock: int
    var legs: set<CallId>
    var seen: set<CallId>

    // What has happened: see Sys.
    ghost var owners: set<CallId>
    ghost var tears: map<Tid, Tear>
    ghost var counted: seq<CallId>
    ghost var closed: set<CallId>
    ghost var retracted: set<CallId>
    ghost var lost: set<CallId>
    ghost var cleared: set<CallId>
    ghost var dials: map<CallId, DialPc>
    ghost var invited: set<CallId>
    ghost var hung: seq<CallId>
    ghost var faulted: set<CallId>
    ghost var early: set<CallId>
    ghost var backedOut: set<CallId>
    ghost var did: map<Tid, seq<Event>>

    ghost function View(): Sys
      reads this
    {
      Sys(rows, mu, owners, tears, counted, closed, retracted, lost, cleared, dials, invited, legs, hung, faulted,
          early, backedOut, Mem(), clock, did)
    }

    function Mem(): Memory
      reads this`answered, this`declined, this`ended, this`notifies, this`seen
    {
      Memory(answered, declined, ended, notifies, seen)
    }

    /** What the thread has done so far. Only statements and requests add to it. */
    ghost function Log(t: Tid): seq<Event>
      reads this`did
    {
      if t in did then did[t] else []
    }

    /** New and Start: the maps are empty, and EndAll ends what the last run left open. */
    constructor (enabled: bool, conferencePrefix: string, ringTimeout: nat, membershipExpiry: nat,
                 lkRoomName: Room -> string, table: Table, now: int, ghost last: Sys)
      requires Inv(last) && table == last.rows
      ensures View() == Restart(last, now) && Inv(View())
      ensures AllActive(rows) == {} && open == |AllActive(table)|
    {
      hide Inv, EndAllRows, AllActive, Pending;
      this.enabled, this.conferencePrefix := enabled, conferencePrefix;
      this.ringTimeout, this.membershipExpiry, this.lkRoomName := ringTimeout, membershipExpiry, lkRoomName;
      open := |AllActive(table)|;
      rows, mu, legs, seen := EndAllRows(table, now), None, {}, {};
      ended, declined, answered, notifies := map[], map[], map[], map[];
      ghost var u := Restart(last, now);
      owners, tears, counted, closed, retracted, lost, cleared := {}, map[], last.counted, {}, {}, u.lost, u.cleared;
      dials, invited, hung, faulted, early, backedOut, clock, did := map[], {}, [], {}, {}, {}, now, map[];
      new;
      EndAllEnds(table, now);
      StepKeeps(last, ARestart(now));
    }

    static lemma EndAllEnds(t: Table, now: int)
      ensures AllActive(EndAllRows(t, now)) == {}
    {
    }

    /** A state that the threads' steps lead to from the state from. */
    static ghost predicate Since(from: Sys, s: Sys) {
      Inv(s) && Reaches(from, s) && Grown(from, s)
    }

    /** The bridge is in such a state. */
    ghost predicate On(from: Sys)
      reads this
    {
      Since(from, View())
    }

    lemma OnSince(from: Sys)
      requires On(from)
      ensures Since(from, View())
    {
    }

    /** Every row is found under its own id. */
    lemma RowsKeyed()
      requires Inv(View())
      ensures KeyedById(rows) && owners <= rows.Keys
    {
    }

    /** What the thread t of the call own knows after a step of its own, one that all others leave to it. */
    lemma Took(from: Sys, s: Sys, a: Step, t: Tid, own: CallId)
      requires Since(from, s)
      requires Enabled(s, a) && OwnStep(s, a, t, own) && View() == Next(s, a) && !a.ARestart?
      ensures On(from) && Grown(s, View())
    {
      hide Inv, Reaches, Enabled, Next, Grown, OwnStep, StepBy;
      StepKeeps(s, a);
      StepGrown(s, a);
      OneStep(s, a);
      ReachesMore(from, s, View());
      GrownMore(from, s, View());
    }

    /** The same for a step that the thread takes note of. */
    ghost method TookNote(from: Sys, s: Sys, a: Step, t: Tid, own: CallId)
      requires Since(from, s)
      requires Enabled(s, a) && OwnStep(s, a, t, own) && Logs(a) && a.t == t && View() == Effect(s, a)
      requires did == s.did
      modifies this`did
      ensures On(from) && Log(t) == old(Log(t)) + [Logged(s, a)]
    {
      hide Inv, Reaches, Grown, Enabled, OwnStep, Effect, Logged;
      did := did[t := Log(t) + [Logged(s, a)]];
      Took(from, s, a, t, own);
    }

    /** What was done from here was done from there. */
    lemma Rejoin(from: Sys, here: Sys)
      requires Reaches(from, here) && Grown(from, here) && On(here)
      ensures On(from)
    {
      hide Inv, Reaches, Grown;
      ReachesMore(from, here, View());
      GrownMore(from, here, View());
    }

    predicate Holding(t: Tid)
      reads this`mu
    {
      mu.Some? && mu.value.t == t
    }

    ghost function TearOf(t: Tid): Option<Tear>
      reads this`tears
    {
      if t in tears then Some(tears[t]) else None
    }

    /** The thread holds no mutex and tears no call down. */
    ghost predicate Idle(t: Tid)
      reads this`tears, this`mu
    {
      TearOf(t) == None && !Holding(t)
    }

    /** The row is the one the thread inserted, perhaps answered or ended since. */
    ghost predicate Agrees(call: Call)
      reads this`rows
    {
      && call.callId in rows && rows[call.callId].direction == call.direction
      && rows[call.callId].conference == call.conference && rows[call.callId].lkRoom == call.lkRoom
      && rows[call.callId].lkIdentity == call.lkIdentity
    }

    /** What no claim changes of a row. */
    static predicate SameLeg(r: CallRow, q: CallRow) {
      r.direction == q.direction && r.conference == q.conference && r.lkRoom == q.lkRoom && r.lkIdentity == q.lkIdentity
    }

    /** The thread of the call has not won it. */
    ghost predicate Unclaimed(id: CallId)
      reads this`rows, this`owners
    {
      id !in owners && id in rows && rows[id].state != Bridged
    }

    /** No row of the call is in progress. */
    ghost predicate Gone(id: CallId)
      reads this`rows
    {
      !Active(rows, id)
    }

    ghost function DialOf(id: CallId): Option<DialPc>
      reads this`dials
    {
      if id in dials then Some(dials[id]) else None
    }

    /** What the others leave of the thread's own call: they may end it. */
    twostate predicate OwnKept(own: CallId)
      reads this`rows, this`owners, this`dials
    {
      && MyRow(old(rows), rows, own) && DialOf(own) == old(DialOf(own))
      && (own in owners <==> own in old(owners))
    }

    /** Any steps of the other threads. Nothing more than this contract is known of them. */
    method Others(ghost from: Sys, t: Tid, id: CallId)
      requires On(from)
      modifies this
      ensures On(from) && Interleaved(old(View()), View(), t, id) && Grown(old(View()), View())
      ensures OwnKept(id) && TearOf(t) == old(TearOf(t)) && Log(t) == old(Log(t))
      ensures (old(Gone(id)) ==> Gone(id)) && (old(Idle(t)) ==> Idle(t)) && (id in rows <==> id in old(rows))
      ensures if old(Holding(t)) then mu == old(mu) else !Holding(t)
    {
      hide Inv, Grown;
      assert OthersPath(View(), [], View(), t, id);
      Rely(View(), View(), t, id);
    }

    /** Any steps of the other threads after which the mutex is free. */
    method WaitForMutex(ghost from: Sys, t: Tid, id: CallId)
      requires On(from) && Idle(t)
      modifies this
      ensures On(from) && Interleaved(old(View()), View(), t, id)
      ensures OwnKept(id) && Idle(t) && mu == None && Log(t) == old(Log(t))
    {
      hide Grown, Reaches, MyRow;
      ghost var s := View();
      if mu.Some? {
        mu := None;
        assert OthersPath(s, [AUnlock(s.mu.value.t)], View(), t, id) by {
          assert [AUnlock(s.mu.value.t)][1..] == [];
        }
      } else {
        assert OthersPath(s, [], s, t, id);
      }
      hide Inv;
      Rely(s, View(), t, id);
      ReachesMore(from, s, View());
      GrownMore(from, s, View());
    }

    /** Any steps of the other threads, for a thread that holds a call. */
    method Meanwhile(ghost from: Sys, t: Tid, call: Call)
      requires On(from) && Idle(t) && Agrees(call)
      modifies this
      ensures On(from) && Idle(t) && Agrees(call) && Log(t) == old(Log(t))
      ensures (call.callId in owners <==> call.callId in old(owners)) && DialOf(call.callId) == old(DialOf(call.callId))
      ensures old(Unclaimed(call.callId)) ==> Unclaimed(call.callId)
      ensures MyRow(old(rows), rows, call.callId) && (old(Gone(call.callId)) ==> Gone(call.callId))
    {
      hide On, Interleaved, Grown, View, Log, DialOf, TearOf;
      Others(from, t, call.callId);
    }

    /** Notes what the thread has asked or read. */
    ghost method Note(from: Sys, t: Tid, e: Event)
      requires On(from) && !IsEffect(e) && Honest(View(), e)
      modifies this`did
      ensures On(from) && Log(t) == old(Log(t)) + [e]
    {
      hide Inv, Reaches, Grown, Effect, Logged, Enabled, OwnStep;
      var s := View();
      OwnNote(s, t, e);
      TookNote(from, s, ANote(t, e), t, NO_CALL);
    }

    /** A request to Matrix, the SIP server or LiveKit. */
    method Ask(ghost from: Sys, ghost t: Tid, ghost what: Request) returns (ok: bool)
      requires On(from) && what != AskInvite
      modifies this`did
      ensures On(from) && Log(t) == old(Log(t)) + [DidRequest(what, ok)]
    {
      hide On;
      ok := *;
      Note(from, t, DidRequest(what, ok));
    }

    /** time.Now. */
    method ReadClock(ghost from: Sys, ghost t: Tid) returns (now: int)
      requires On(from)
      modifies this`did
      ensures On(from) && Log(t) == old(Log(t)) + [DidReadClock(now)] && now == clock
    {
      hide On;
      now := clock;
      Note(from, t, DidReadClock(now));
    }

    // ---- database/call.go

    /** The INSERT. */
    method RunInsert(r: CallRow, fault: Fault)
      modifies this`rows, this`dials
      ensures View() == InsertCall(old(View()), r, fault)
      ensures rows == old(rows) || rows == old(rows)[r.callId := r]
      ensures if r.callId in old(rows) then rows == old(rows) else fault == NoFault ==> rows == old(rows)[r.callId := r]
      ensures forall id :: id != r.callId ==> DialOf(id) == old(DialOf(id))
      ensures if fault == NoFault && r.callId !in old(rows) && r.direction == Outbound
              then DialOf(r.callId) == Some(Inviting)
              else DialOf(r.callId) == old(DialOf(r.callId)) || DialOf(r.callId) == Some(Over)
    {
      if fault != FailsUndone && r.callId !in rows {
        rows := InsertRow(rows, r);
        if r.direction == Outbound {
          dials := dials[r.callId := if fault == NoFault then Inviting else Over];
        }
      }
    }

    method InsertRecord(ghost from: Sys, ghost t: Tid, r: CallRow) returns (ok: bool)
      requires On(from) && r.state == Ringing && r.updatedAt == clock
      modifies this`rows, this`dials, this`did
      ensures On(from) && Log(t) == old(Log(t)) + [DidInsert(r, ok)]
      ensures r.callId in old(rows) ==> !ok && rows == old(rows)
      ensures ok ==> rows == old(rows)[r.callId := r]
      ensures !ok ==> rows == old(rows) || rows == old(rows)[r.callId := r]
      ensures if ok && r.direction == Outbound then DialOf(r.callId) == Some(Inviting)
              else DialOf(r.callId) == old(DialOf(r.callId)) || DialOf(r.callId) == Some(Over)
    {
      hide On, Since, Effect, Logged, Enabled, OwnStep, InsertCall;
      ghost var s := View();
      OnSince(from);
      var fault: Fault := *;
      ok := fault == NoFault && r.callId !in rows;
      OwnInsert(s, t, r, fault);
      RunInsert(r, fault);
      TookNote(from, s, AInsert(t, r, fault), t, r.callId);
    }

    /** Stores a new call. It is as old as it says, or new. */
    method Insert(ghost from: Sys, ghost t: Tid, call: Call) returns (ok: bool)
      requires On(from) && call.state == Ringing
      modifies this`rows, this`dials, this`did, call`createdAt, call`updatedAt
      ensures call.Row() == old(call.Row()).(createdAt := call.createdAt, updatedAt := clock)
      ensures call.createdAt == if old(call.createdAt) == 0 then clock else old(call.createdAt)
      ensures On(from) && Log(t) == old(Log(t)) + [DidInsert(call.Row(), ok)]
      ensures call.callId in old(rows) ==> !ok && rows == old(rows)
      ensures ok ==> rows == old(rows)[call.callId := call.Row()]
      ensures !ok ==> rows == old(rows) || rows == old(rows)[call.callId := call.Row()]
      ensures if ok && call.direction == Outbound then DialOf(call.callId) == Some(Inviting)
              else DialOf(call.callId) == old(DialOf(call.callId)) || DialOf(call.callId) == Some(Over)
    {
      hide On, View, Log, DialOf;
      var now := clock;
      if call.createdAt == 0 {
        call.createdAt := now;
      }
      call.updatedAt := now;
      ok := InsertRecord(from, t, call.Row());
    }

    method LockAnswer(ghost from: Sys, t: Tid, id: CallId)
      requires On(from) && mu == None && id in rows && rows[id].direction == Inbound
      modifies this`mu
      ensures On(from) && mu == Some(Claim(t, id, None))
    {
      hide Inv, Reaches, Grown;
      ghost var s := View();
      mu := Some(Claim(t, id, None));
      OwnLock(s, t, id);
      hide Next, Enabled, OwnStep;
      Took(from, s, ALock(t, id), t, id);
    }

    /** The NOT EXISTS of the statement, on the rows committed so far. */
    method ReadForAnswer(ghost from: Sys, t: Tid, id: CallId)
      requires On(from) && mu == Some(Claim(t, id, None)) && id in rows
      modifies this`mu
      ensures On(from) && mu.Some? && mu.value.t == t && mu.value.id == id && mu.value.free.Some?
    {
      hide Inv, Reaches, Grown;
      ghost var s := View();
      mu := Some(Claim(t, id, Some(ConferenceFree(rows, rows[id].conference))));
      OwnRead(s, t);
      hide Next, Enabled, OwnStep, ConferenceFree;
      Took(from, s, AReadConference(t), t, id);
    }

    /** The write of the statement. */
    method RunCommit(t: Tid, id: CallId, free: bool, user: User, now: int, fault: Fault)
      requires mu == Some(Claim(t, id, Some(free))) && Unclaimed(id)
      modifies this`rows, this`mu, this`owners
      ensures View() == CommitClaim(old(View()), user, now, fault) && mu == Some(Claim(t, id, None))
      ensures id in rows && SameLeg(old(rows)[id], rows[id])
      ensures var won := fault == NoFault && free && InState(old(rows), id, Ringing);
              if won then id in owners && rows[id].matrixUser == user && rows[id].updatedAt == now else id !in owners
      ensures fault == NoFault && !(free && InState(old(rows), id, Ringing)) ==> Unclaimed(id)
    {
      mu := Some(Claim(t, id, None));
      if fault != FailsUndone && free && InState(rows, id, Ringing) {
        rows := ClaimRow(rows, id, user, now, true);
        if fault == NoFault {
          owners := owners + {id};
        }
      }
    }

    /** Commits the statement, and notes what swap and Answer note in the call. */
    method CommitAnswer(ghost from: Sys, t: Tid, call: Call, user: User) returns (won: bool, ok: bool)
      requires On(from) && mu.Some? && mu.value.t == t && mu.value.id == call.callId && mu.value.free.Some?
      requires Agrees(call) && Unclaimed(call.callId)
      modifies this`rows, this`mu, this`owners, this`did, call`state, call`matrixUser, call`updatedAt
      ensures On(from) && mu == Some(Claim(t, call.callId, None)) && Agrees(call)
      ensures Log(t) == old(Log(t)) + [DidClaim(call.callId, user, won, ok)]
      ensures won ==> ok && call.callId in owners && call.state == Bridged && call.matrixUser == user
      ensures won ==> old(mu.value.free) == Some(true) && rows[call.callId].matrixUser == user
      ensures won ==> rows[call.callId].updatedAt == clock && call.updatedAt == clock
      ensures !won ==> call.callId !in owners && call.Row() == old(call.Row())
      ensures ok && !won ==> Unclaimed(call.callId)
    {
      hide On, Since, Effect, Logged, Enabled, OwnStep, CommitClaim;
      ghost var s := View();
      OnSince(from);
      var now := clock;
      var fault: Fault := *;
      var id, free := call.callId, mu.value.free.value;
      ok := fault == NoFault;
      won := ok && free && InState(rows, id, Ringing);
      OwnCommit(s, t, user, now, fault);
      RunCommit(t, id, free, user, now, fault);
      TookNote(from, s, ACommitClaim(t, user, now, fault), t, id);
      if won {
        call.state, call.updatedAt, call.matrixUser := Bridged, now, user;
      }
    }

    method UnlockAnswer(ghost from: Sys, t: Tid)
      requires On(from) && Holding(t)
      modifies this`mu
      ensures On(from) && mu == None
    {
      hide Inv, Reaches, Grown;
      ghost var s := View();
      mu := None;
      OwnUnlock(s, t);
      hide Next, Enabled, OwnStep;
      Took(from, s, AUnlock(t), t, NO_CALL);
    }

    /** The claim on a conference, under the mutex that keeps the claims of other legs apart. */
    method Answer(ghost from: Sys, t: Tid, call: Call, user: User) returns (won: bool, ok: bool)
      requires On(from) && Idle(t) && Agrees(call) && call.direction == Inbound && Unclaimed(call.callId)
      modifies this, call`state, call`matrixUser, call`updatedAt
      ensures On(from) && Idle(t) && Agrees(call) && Log(t) == old(Log(t)) + [DidClaim(call.callId, user, won, ok)]
      ensures won ==> ok && call.callId in owners && call.state == Bridged && call.matrixUser == user
      ensures won ==> rows[call.callId].matrixUser == user
      ensures !won ==> call.callId !in owners && call.Row() == old(call.Row())
      ensures ok && !won ==> Unclaimed(call.callId)
    {
      hide On, Interleaved, Grown, View, Log, DialOf, TearOf, Gone;
      var id := call.callId;
      WaitForMutex(from, t, id);
      LockAnswer(from, t, id);
      Others(from, t, id);
      ReadForAnswer(from, t, id);
      Others(from, t, id);
      won, ok := CommitAnswer(from, t, call, user);
      Others(from, t, id);
      UnlockAnswer(from, t);
      Meanwhile(from, t, call);
    }

    method GetByCallID(ghost from: Sys, ghost t: Tid, id: CallId) returns (row: Option<CallRow>, ok: bool)
      requires On(from)
      modifies this`did
      ensures On(from) && Log(t) == old(Log(t)) + [DidFind(row, ok)]
      ensures row == if ok && id in rows then Some(rows[id]) else None
      ensures row.Some? ==> row.value.callId == id
    {
      OnSince(from);
      RowsKeyed();
      hide On, Since;
      ok := *;
      row := if ok && id in rows then Some(rows[id]) else None;
      Note(from, t, DidFind(row, ok));
    }

    /** The UPDATE of End. */
    method RunEnd(ghost t: Tid, id: CallId, now: int, fault: Fault)
      modifies this`rows, this`tears, this`lost
      ensures View() == EndCall(old(View()), t, id, now, fault)
      ensures forall i :: MyRow(old(rows), rows, i)
      ensures fault == NoFault ==> Gone(id)
      ensures fault == NoFault && !old(Gone(id)) ==> id in rows && rows[id].updatedAt == now
      ensures TearOf(t) == if fault == NoFault && !old(Gone(id)) then Some(Tear(id, Counting)) else old(TearOf(t))
    {
      if fault != FailsUndone && Active(rows, id) {
        rows := EndRow(rows, id, now);
        if fault == NoFault {
          tears := tears[t := Tear(id, Counting)];
        } else {
          lost := lost + {id};
        }
      }
    }

    method EndRecord(ghost from: Sys, t: Tid, id: CallId, ghost why: Why) returns (mine: bool, ok: bool)
      requires On(from) && TearOf(t) == None
      modifies this`rows, this`tears, this`lost, this`did
      ensures On(from) && Log(t) == old(Log(t)) + [DidEnd(id, why, mine, ok)]
      ensures forall i :: MyRow(old(rows), rows, i)
      ensures TearOf(t) == if mine then Some(Tear(id, Counting)) else None
      ensures ok ==> Gone(id)
      ensures mine ==> id in rows && rows[id].updatedAt == clock
      ensures mine == (ok && !old(Gone(id)))
    {
      hide On, Since, Effect, Logged, Enabled, OwnStep, EndCall, MyRow, Log;
      ghost var s := View();
      OnSince(from);
      var now := clock;
      var fault: Fault := *;
      ok := fault == NoFault;
      mine := ok && Active(rows, id);
      OwnEnd(s, t, id, why, now, fault);
      RunEnd(t, id, now, fault);
      TookNote(from, s, AEnd(t, id, why, now, fault), t, NO_CALL);
    }

    /** Marks the call ended, and reports whether this thread is the one that ended it. */
    method End(ghost from: Sys, t: Tid, call: Call, ghost why: Why) returns (mine: bool, ok: bool)
      requires On(from) && TearOf(t) == None
      modifies this`rows, this`tears, this`lost, this`did, call`state, call`updatedAt
      ensures On(from) && Log(t) == old(Log(t)) + [DidEnd(call.callId, why, mine, ok)]
      ensures forall id :: MyRow(old(rows), rows, id)
      ensures TearOf(t) == if mine then Some(Tear(call.callId, Counting)) else None
      ensures call.Row() == if mine then old(call.Row()).(state := Ended, updatedAt := clock) else old(call.Row())
      ensures ok ==> Gone(call.callId)
      ensures mine ==> call.callId in rows && rows[call.callId].updatedAt == clock
      ensures mine == (ok && !old(Gone(call.callId)))
    {
      hide On, View, Log, TearOf, Gone, MyRow;
      var now := clock;
      mine, ok := EndRecord(from, t, call.callId, why);
      if mine {
        call.state, call.updatedAt := Ended, now;
      }
    }

    /** The row of a bridged call names its SIP participant. */
    ghost predicate MediaRecorded(call: Call)
      reads this`rows, call`lkParticipant
    {
      InState(rows, call.callId, Bridged) && rows[call.callId].lkParticipant == call.lkParticipant
    }

    /** Writes back the mutable fields, unless the call has ended. */
    method Update(ghost from: Sys, ghost t: Tid, call: Call) returns (ok: bool)
      requires On(from) && Agrees(call) && call.callId in owners && call.state == Bridged
      modifies this`rows, this`did, call`updatedAt
      ensures On(from) && Agrees(call) && Log(t) == old(Log(t)) + [DidUpdate(call.callId, call.lkParticipant, ok)]
      ensures (ok ==> Gone(call.callId) || MediaRecorded(call)) && call.updatedAt == clock
      ensures InState(old(rows), call.callId, Ended) ==> rows == old(rows)
    {
      hide Inv, Reaches, Grown, Effect, Logged, Enabled, OwnStep;
      OnSince(from);
      RowsKeyed();
      ghost var s := View();
      var now := clock;
      var fault: Fault := *;
      ok := fault == NoFault;
      call.updatedAt := now;
      if fault != FailsUndone {
        rows := UpdateRow(rows, call.Row());
      }
      OwnUpdate(s, t, call.callId, call.lkParticipant, now, fault);
      TookNote(from, s, AUpdate(t, call.callId, call.lkParticipant, now, fault), t, call.callId);
    }

    // ---- endCallAs

    /** A call at the end of its teardown is counted, and its channel closed. */
    lemma TornDown(t: Tid)
      requires Inv(View()) && t in tears && tears[t].stage == Finishing
      ensures Gone(tears[t].id) && tears[t].id in rows && tears[t].id in counted && tears[t].id in closed
      ensures tears[t].id in retracted
    {
      var id := tears[t].id;
      assert Booked(View(), id);
      assert !Pending(View(), id);
      assert multiset(counted)[id] > 0;
    }

    /** The finished-calls metric. */
    method CountFinished(ghost from: Sys, ghost t: Tid, ghost id: CallId)
      requires On(from) && TearOf(t) == Some(Tear(id, Counting))
      modifies this`tears, this`counted
      ensures On(from) && TearOf(t) == Some(Tear(id, Forgetting)) && counted == old(counted) + [id]
    {
      hide Inv, Reaches, Grown;
      ghost var s := View();
      tears := tears[t := Tear(id, Forgetting)];
      counted := counted + [id];
      OwnTear(s, ACount(t), t);
      hide Next, Enabled, OwnStep;
      Took(from, s, ACount(t), t, NO_CALL);
    }

    method ForgetSeen(ghost from: Sys, ghost t: Tid, id: CallId)
      requires On(from) && TearOf(t) == Some(Tear(id, Forgetting))
      modifies this`tears, this`seen
      ensures On(from) && TearOf(t) == Some(Tear(id, Signalling)) && seen == old(seen) - {id}
    {
      hide Inv, Reaches, Grown;
      ghost var s := View();
      tears := tears[t := Tear(id, Signalling)];
      seen := seen - {id};
      OwnTear(s, AForget(t), t);
      hide Next, Enabled, OwnStep;
      Took(from, s, AForget(t), t, NO_CALL);
    }

    method RunSignal(ghost t: Tid, id: CallId)
      requires TearOf(t) == Some(Tear(id, Signalling))
      modifies this`tears, this`closed, this`ended
      ensures View() == CallProtocol.SignalEnded(old(View()), t) && TearOf(t) == Some(Tear(id, Retracting))
      ensures ended == if id in old(ended) then old(ended)[id := true] else old(ended)
    {
      tears := tears[t := Tear(id, Retracting)];
      closed := closed + {id};
      if id in ended {
        ended := ended[id := true];
      }
    }

    /** Closes the ended channel of the call, if it has one that is open. */
    method SignalEnded(ghost from: Sys, ghost t: Tid, id: CallId)
      requires On(from) && TearOf(t) == Some(Tear(id, Signalling))
      modifies this`tears, this`closed, this`ended
      ensures On(from) && TearOf(t) == Some(Tear(id, Retracting))
      ensures ended == if id in old(ended) then old(ended)[id := true] else old(ended)
    {
      hide Inv, Reaches, Grown, CallProtocol.SignalEnded;
      ghost var s := View();
      OwnTear(s, ASignal(t), t);
      RunSignal(t, id);
      hide Next, Enabled, OwnStep;
      Took(from, s, ASignal(t), t, NO_CALL);
    }

    method RunTakeLeg(ghost t: Tid, id: CallId) returns (has: bool)
      requires TearOf(t) == Some(Tear(id, Taking))
      modifies this`tears, this`legs, this`early
      ensures View() == CallProtocol.TakeLeg(old(View()), t)
      ensures TearOf(t) == Some(Tear(id, if has then Hanging else Finishing))
      ensures has == (id in old(legs)) && legs == old(legs) - {id}
    {
      hide Mem;
      ghost var s := View();
      has := id in legs;
      legs := legs - {id};
      tears := tears[t := Tear(id, if has then Hanging else Finishing)];
      early := CallProtocol.TakeLeg(s, t).early;
      assert !has ==> legs == s.legs;
    }

    /** takeLeg: removes the control leg of the call and says whether there was one. */
    method TakeLeg(ghost from: Sys, ghost t: Tid, id: CallId) returns (has: bool)
      requires On(from) && TearOf(t) == Some(Tear(id, Taking))
      modifies this`tears, this`legs, this`early
      ensures On(from) && TearOf(t) == Some(Tear(id, if has then Hanging else Finishing))
      ensures has == (id in old(legs)) && legs == old(legs) - {id}
    {
      hide Inv, Reaches, Grown, CallProtocol.TakeLeg;
      ghost var s := View();
      OwnTear(s, ATake(t), t);
      has := RunTakeLeg(t, id);
      hide Next, Enabled, OwnStep;
      Took(from, s, ATake(t), t, NO_CALL);
    }

    method HangUp(ghost from: Sys, ghost t: Tid, ghost id: CallId)
      requires On(from) && TearOf(t) == Some(Tear(id, Hanging))
      modifies this`tears, this`hung
      ensures On(from) && TearOf(t) == Some(Tear(id, Finishing)) && hung == old(hung) + [id]
    {
      hide Inv, Reaches, Grown;
      ghost var s := View();
      tears := tears[t := Tear(id, Finishing)];
      hung := hung + [id];
      OwnTear(s, AHang(t), t);
      hide Next, Enabled, OwnStep;
      Took(from, s, AHang(t), t, NO_CALL);
    }

    method FinishTear(ghost from: Sys, ghost t: Tid, ghost id: CallId)
      requires On(from) && TearOf(t) == Some(Tear(id, Finishing))
      modifies this`tears
      ensures On(from) && TearOf(t) == None && Gone(id) && id in counted && id in closed && id in retracted
    {
      TornDown(t);
      hide Inv, Reaches, Grown;
      ghost var s := View();
      tears := tears - {t};
      OwnTear(s, AFinish(t), t);
      hide Next, Enabled, OwnStep;
      Took(from, s, AFinish(t), t, NO_CALL);
    }

    /** The participant of the call is there, as the thread has just been told. */
    method MarkSeen(ghost from: Sys, ghost t: Tid, id: CallId)
      requires On(from) && JustSeen(Log(t), id)
      modifies this`seen, this`did
      ensures On(from) && Log(t) == old(Log(t)) + [DidMark(id)] && seen == old(seen) + {id}
    {
      hide Inv, Reaches, Grown, JustSeen, Enabled, OwnStep, Effect, Logged;
      ghost var s := View();
      seen := seen + {id};
      OwnMemory(s, t, Marks(id), NO_CALL);
      TookNote(from, s, AMemory(t, Marks(id)), t, NO_CALL);
    }

    method WasSeen(ghost from: Sys, ghost t: Tid, id: CallId) returns (was: bool)
      requires On(from)
      modifies this`did
      ensures On(from) && was == (id in seen) && Log(t) == old(Log(t)) + [DidReadSeen(id, was)]
    {
      hide On, Log;
      was := id in seen;
      Note(from, t, DidReadSeen(id, was));
    }

    lemma SeenTold(from: Sys, t: Tid, id: CallId)
      requires On(from) && DidReadSeen(id, true) in Log(t)
      ensures Told(did, id)
    {
      hide CallInv, Reaches, Grown, Signals;
    }

    /** takeNotifications: removes and returns the ring notifications that the call sent. */
    method TakeNotifications(ghost from: Sys, ghost t: Tid, id: CallId) returns (taken: set<EventId>)
      requires On(from) && TearOf(t) == Some(Tear(id, Retracting))
      modifies this`tears, this`notifies, this`retracted
      ensures On(from) && TearOf(t) == Some(Tear(id, Taking)) && notifies == old(notifies) - taken
      ensures forall e :: e in taken <==> e in old(notifies) && old(notifies)[e] == id
    {
      hide Inv, Reaches, Grown, Retract;
      ghost var s := View();
      OwnTear(s, ARetract(t), t);
      taken := RunRetract(t, id);
      hide Next, Enabled, OwnStep;
      Took(from, s, ARetract(t), t, NO_CALL);
    }

    method RunRetract(ghost t: Tid, id: CallId) returns (taken: set<EventId>)
      requires TearOf(t) == Some(Tear(id, Retracting))
      modifies this`tears, this`notifies, this`retracted
      ensures View() == Retract(old(View()), t) && TearOf(t) == Some(Tear(id, Taking))
      ensures notifies == old(notifies) - taken
      ensures forall e :: e in taken <==> e in old(notifies) && old(notifies)[e] == id
    {
      taken := RunTake(id);
      tears := tears[t := Tear(id, Taking)];
      retracted := retracted + {id};
    }

    method RunTake(id: CallId) returns (taken: set<EventId>)
      modifies this`notifies
      ensures notifies == old(notifies) - taken && notifies == WithoutNotifies(old(Mem()), id).notifies
      ensures forall e :: e in taken <==> e in old(notifies) && old(notifies)[e] == id
    {
      taken := {};
      var rest := notifies.Keys;
      while rest != {}
        invariant rest <= old(notifies).Keys && notifies == old(notifies) - taken
        invariant forall e :: e in taken <==> e in old(notifies) && old(notifies)[e] == id && e !in rest
      {
        var e :| e in rest;
        rest := rest - {e};
        if notifies[e] == id {
          taken := taken + {e};
          notifies := notifies - {e};
        }
      }
    }

    /** Ends a call and, if this thread is the one that ended it, tears it down. own is the call that the thread
        holds itself. When it succeeds, the call has ended; when it was this thread that ended it, the call is also
        counted and whoever waits for its end is released. */
    method EndCallAs(ghost from: Sys, t: Tid, own: CallId, call: Call, ghost why: Why) returns (mine: bool, ok: bool)
      requires On(from) && Idle(t)
      modifies this, call`state, call`updatedAt
      ensures On(from) && Idle(t) && OwnKept(own)
      ensures Log(t) == old(Log(t)) + [DidEnd(call.callId, why, mine, ok)]
      ensures ok ==> Gone(call.callId)
      ensures mine == (ok && !old(Gone(call.callId)))
      ensures mine ==> call.callId in counted && call.callId in closed && call.callId in retracted
      ensures call.state == if mine then Ended else old(call.state)
    {
      hide On, Grown, Interleaved, View, Log, DialOf, TearOf, Gone;
      mine, ok := End(from, t, call, why);
      assert MyRow(old(rows), rows, own);
      if mine {
        TearDown(from, t, own, call.callId);
      }
    }

    /** The teardown of a call by the thread that ended it. */
    method TearDown(ghost from: Sys, t: Tid, own: CallId, id: CallId)
      requires On(from) && TearOf(t) == Some(Tear(id, Counting)) && !Holding(t)
      modifies this
      ensures On(from) && Idle(t) && OwnKept(own) && Log(t) == old(Log(t))
      ensures Gone(id) && id in counted && id in closed && id in retracted
    {
      hide On, Grown, Interleaved, View, Log, DialOf, TearOf, Gone;
      CountAndForget(from, t, own, id);
      Others(from, t, own);
      SignalEnded(from, t, id);
      Others(from, t, own);
      var taken := TakeNotifications(from, t, id);
      HangUpControlLeg(from, t, own, id);
      // The membership is retracted and the record posted.
      Others(from, t, own);
      FinishTear(from, t, id);
    }

    /** The metric, and that the participant was seen. */
    method CountAndForget(ghost from: Sys, t: Tid, own: CallId, id: CallId)
      requires On(from) && TearOf(t) == Some(Tear(id, Counting)) && !Holding(t)
      modifies this
      ensures On(from) && TearOf(t) == Some(Tear(id, Signalling)) && !Holding(t)
      ensures OwnKept(own) && Log(t) == old(Log(t))
    {
      hide On, Grown, Interleaved, View, Log, DialOf, TearOf, Gone;
      Others(from, t, own);
      CountFinished(from, t, id);
      Others(from, t, own);
      ForgetSeen(from, t, id);
    }

    /** The SIP participant is removed, then the control leg hung up. */
    method HangUpControlLeg(ghost from: Sys, t: Tid, own: CallId, id: CallId)
      requires On(from) && TearOf(t) == Some(Tear(id, Taking)) && !Holding(t)
      modifies this
      ensures On(from) && TearOf(t) == Some(Tear(id, Finishing)) && !Holding(t)
      ensures OwnKept(own) && Log(t) == old(Log(t))
    {
      hide On, Grown, Interleaved, View, Log, DialOf, TearOf;
      Others(from, t, own);
      var has := TakeLeg(from, t, id);
      if has {
        Others(from, t, own);
        HangUp(from, t, id);
      }
    }

    // ---- bridgeMedia

    /** CreateSIPParticipant, which names the participant it has made. */
    method AskForParticipant(ghost from: Sys, ghost t: Tid, ghost id: CallId) returns (ok: bool, participant: string)
      requires On(from)
      modifies this`did
      ensures On(from) && Log(t) == old(Log(t)) + [DidRequest(AskParticipant(id, participant), ok)]
    {
      hide On;
      ok, participant := *, "";
      if ok {
        participant := *;
      }
      Note(from, t, DidRequest(AskParticipant(id, participant), ok));
    }

    /** Has livekit-sip join the conference and the LiveKit room, request by request up to the first error. */
    method CreateParticipant(ghost from: Sys, t: Tid, call: Call)
      returns (ok: bool, noTrunk: bool, participant: string, ghost evs: seq<Event>)
      requires On(from) && Idle(t) && Agrees(call) && call.callId in owners
      modifies this
      ensures On(from) && Idle(t) && Agrees(call) && call.callId in owners
              && DialOf(call.callId) == old(DialOf(call.callId))
      ensures Log(t) == old(Log(t)) + evs && Follows(MediaRequests(call.callId, participant), evs)
      ensures ok <==> evs == MediaRequests(call.callId, participant)
      ensures ok ==> JustSeen(Log(t), call.callId)
      ensures evs != [] && noTrunk == (!ok && NoRoute(evs))
    {
      hide On, View, Log, DialOf, Idle, Agrees, MyRow, Gone, Unclaimed, Follows;
      participant := "";
      MediaStops(call.callId, participant, false);
      ok := Ask(from, t, AskTrunk);
      evs, noTrunk := [DidRequest(AskTrunk, ok)], !ok;
      if !ok {
        return;
      }
      Meanwhile(from, t, call);
      ok := Ask(from, t, AskRoom);
      evs := [DidRequest(AskTrunk, true), DidRequest(AskRoom, ok)];
      if !ok {
        return;
      }
      Meanwhile(from, t, call);
      ok, participant := AskForParticipant(from, t, call.callId);
      MediaStops(call.callId, participant, ok);
      ghost var joins := DidRequest(AskParticipant(call.callId, participant), ok);
      evs := [DidRequest(AskTrunk, true), DidRequest(AskRoom, true), joins];
    }

    /** bridgeMedia: the requests, then what came of them is written back to the row. */
    method BridgeMedia(ghost from: Sys, t: Tid, call: Call)
      returns (ok: bool, noTrunk: bool, ghost joined: string, ghost evs: seq<Event>)
      requires On(from) && Idle(t) && Agrees(call) && call.callId in owners && call.state == Bridged
      modifies this, call`lkParticipant, call`updatedAt
      ensures On(from) && Idle(t) && Agrees(call) && call.callId in owners
              && DialOf(call.callId) == old(DialOf(call.callId))
      ensures Log(t) == old(Log(t)) + evs && Follows(MediaPlan(call.callId, joined), evs)
      ensures ok <==> evs == MediaPlan(call.callId, joined)
      ensures ok ==> call.lkParticipant == joined && (Gone(call.callId) || MediaRecorded(call))
      ensures evs != [] && (!ok ==> noTrunk == NoRoute(evs))
    {
      hide On, View, Log, DialOf, Idle, Agrees, MyRow, Gone, Unclaimed, Follows, MediaRecorded;
      var id, participant := call.callId, "";
      ok, noTrunk, participant, evs := CreateParticipant(from, t, call);
      joined := participant;
      if !ok {
        FollowsStop(MediaRequests(id, joined), evs, [DidMark(id), DidUpdate(id, joined, true)]);
        return;
      }
      call.lkParticipant := participant;
      MarkSeen(from, t, id);
      evs := MediaRequests(id, joined) + [DidMark(id)];
      Meanwhile(from, t, call);
      ok := Update(from, t, call);
      OneStepOf(evs, DidUpdate(id, joined, true), DidUpdate(id, joined, ok));
      assert evs + [DidUpdate(id, joined, true)] == MediaPlan(id, joined);
      evs := evs + [DidUpdate(id, joined, ok)];
    }

    // ---- answerInbound

    /** Answers the leg for a Matrix user who joined: claim, media, 200. An answer that is over leaves the row ended,
        unless a statement failed. A won claim gets the leg its final response, unless it is gone. */
    method AnswerInbound(ghost from: Sys, t: Tid, call: Call, leg: Leg.InboundCall, lt: Tid, joiner: User)
      returns (outcome: AnswerOutcome, ghost tr: AnswerTrace)
      requires On(from) && Idle(t) && Agrees(call) && call.direction == Inbound && Unclaimed(call.callId)
      requires leg.Valid() && lt !in leg.inside
      modifies this, call`state, call`matrixUser, call`updatedAt, call`lkParticipant, leg
      ensures On(from) && Idle(t) && leg.Valid() && lt !in leg.inside && Leg.Onward(old(leg.View()), leg.View())
      ensures Log(t) == old(Log(t)) + tr.All() && tr.Fits(call.callId, joiner, outcome)
      ensures outcome == AnswerWon ==> call.callId in owners && leg.accepted && call.lkParticipant == tr.participant
      ensures outcome == AnswerLost ==> Agrees(call) && Unclaimed(call.callId)
      ensures outcome == AnswerOver && StatementsWent(tr.All()) ==> Gone(call.callId)
      ensures leg.answers == old(leg.answers) + One(Asked(tr.up, AskAnswer))
      ensures leg.answers + leg.rejects <= old(leg.answers + leg.rejects) + One(tr.claim.won)
      ensures tr.claim.won ==> leg.answers + leg.rejects == old(leg.answers + leg.rejects) + 1 || leg.closed
    {
      hide On, View, Log, DialOf, Agrees, MyRow, Gone, Unclaimed, Follows, MediaRecorded, Leg.Inv, StatementsWent;
      var id := call.callId;
      var won, ok, mine;
      won, ok := Answer(from, t, call, joiner);
      ghost var claim := DidClaim(id, joiner, won, ok);
      if !ok {
        mine, ok := EndCallAs(from, t, id, call, Failure(COULD_NOT_CONNECT));
        tr := AnswerTrace(claim, "", [], [DidEnd(id, Failure(COULD_NOT_CONNECT), mine, ok)]);
        OneWent(tr.tail[0]);
        outcome := AnswerOver;
      } else if !won {
        var row;
        row, ok := GetByCallID(from, t, id);
        outcome := if row.Some? && row.value.state == Ringing then AnswerLost else AnswerOver;
        tr := AnswerTrace(claim, "", [DidFind(row, ok)], []);
        OneWent(DidFind(row, ok));
        FoundOver(id, row);
      } else {
        ghost var joined, up, tail;
        outcome, joined, up, tail := BringUp(from, t, call, leg, lt);
        tr := AnswerTrace(claim, joined, up, tail);
      }
      tr.PartsWent();
    }

    /** A row that was not won, and does not ring any more. */
    lemma FoundOver(id: CallId, row: Option<CallRow>)
      requires Unclaimed(id)
      ensures id in rows && (row == Some(rows[id]) && row.value.state != Ringing ==> Gone(id))
    {
    }

    /** What follows a won claim: media, then 200. The first error ends the call. */
    method BringUp(ghost from: Sys, t: Tid, call: Call, leg: Leg.InboundCall, lt: Tid)
      returns (outcome: AnswerOutcome, ghost joined: string, ghost up: seq<Event>, ghost tail: seq<Event>)
      requires On(from) && Idle(t) && Agrees(call) && call.callId in owners && call.state == Bridged
      requires leg.Valid() && lt !in leg.inside
      modifies this, call`state, call`updatedAt, call`lkParticipant, leg
      ensures On(from) && Idle(t) && leg.Valid() && lt !in leg.inside && Leg.Onward(old(leg.View()), leg.View())
      ensures Log(t) == old(Log(t)) + up + tail && Follows(AnswerPlan(call.callId, joined), up)
      ensures AnswerTrace(DidClaim(call.callId, NOBODY, true, true), joined, up, tail).Ends(call.callId, outcome)
      ensures outcome == AnswerWon ==> call.callId in owners && leg.accepted && call.lkParticipant == joined
      ensures outcome == AnswerOver && StatementsWent(tail) ==> Gone(call.callId)
      ensures leg.answers == old(leg.answers) + One(Asked(up, AskAnswer))
      ensures leg.answers + leg.rejects <= old(leg.answers + leg.rejects) + 1
      ensures leg.answers + leg.rejects == old(leg.answers + leg.rejects) + 1 || leg.closed
    {
      hide On, View, Log, DialOf, Idle, Agrees, MyRow, Gone, Unclaimed, Follows, MediaRecorded, Leg.Inv, AnswerPlan,
           MediaPlan, Asked;
      var id, ok := call.callId, true;
      var noTrunk;
      ok, noTrunk, joined, up := BridgeMedia(from, t, call);
      if !ok {
        MediaStopped(id, joined, up);
        Meanwhile(from, t, call);
        tail := FailMedia(from, t, call, leg, lt, MediaFailureReason(noTrunk));
        return AnswerOver, joined, up, tail;
      }
      Meanwhile(from, t, call);
      ok := GiveAnswer(from, t, leg, lt);
      up := MediaPlan(id, joined) + [DidRequest(AskAnswer, ok)];
      MediaAnswered(id, joined, ok);
      if ok {
        return AnswerWon, joined, up, [];
      }
      Meanwhile(from, t, call);
      var mine;
      mine, ok := EndCallAs(from, t, id, call, Failure(COULD_NOT_CONNECT));
      tail := [DidEnd(id, Failure(COULD_NOT_CONNECT), mine, ok)];
      OneWent(tail[0]);
      outcome := AnswerOver;
    }

    method GiveAnswer(ghost from: Sys, ghost t: Tid, leg: Leg.InboundCall, lt: Tid) returns (ok: bool)
      requires On(from) && leg.Valid() && lt !in leg.inside
      modifies this`did, leg
      ensures On(from) && leg.Valid() && lt !in leg.inside && Leg.Onward(old(leg.View()), leg.View())
      ensures Log(t) == old(Log(t)) + [DidRequest(AskAnswer, ok)]
      ensures leg.answers == old(leg.answers) + 1 && leg.rejects == old(leg.rejects) && (ok ==> leg.accepted)
    {
      hide On, View, Log, Leg.Inv;
      leg.Others(lt);
      ok := leg.Answer(lt);
      Note(from, t, DidRequest(AskAnswer, ok));
    }

    /** A leg that is not over is refused. It may be over by the time that it is. */
    method RejectUnfinished(leg: Leg.InboundCall, lt: Tid, status: nat) returns (finished: bool)
      requires leg.Valid() && lt !in leg.inside
      modifies leg
      ensures leg.Valid() && lt !in leg.inside && Leg.Onward(old(leg.View()), leg.View())
      ensures finished == old(leg.closed) && leg.closed && leg.answers == old(leg.answers)
      ensures leg.rejects == old(leg.rejects) + One(!finished) && (!finished ==> leg.code == status)
      ensures !finished && old(leg.cancelled) ==> leg.base
    {
      finished := leg.Finished();
      if !finished {
        leg.Others(lt);
        leg.Reject(lt, status);
      }
    }

    /** Media that failed, because of the caller's hangup or for another reason. */
    method FailMedia(ghost from: Sys, t: Tid, call: Call, leg: Leg.InboundCall, lt: Tid, ghost reason: string)
      returns (ghost tail: seq<Event>)
      requires On(from) && Idle(t) && leg.Valid() && lt !in leg.inside
      modifies this, call`state, call`updatedAt, leg
      ensures On(from) && Idle(t) && leg.Valid() && lt !in leg.inside && Leg.Onward(old(leg.View()), leg.View())
      ensures Log(t) == old(Log(t)) + tail && leg.closed && leg.answers == old(leg.answers)
      ensures if leg.rejects == old(leg.rejects) then OneEnd(tail, call.callId, Plain)
              else OneEnd(tail, call.callId, Failure(reason)) && leg.rejects == old(leg.rejects) + 1
                   && leg.code == 503
      ensures StatementsWent(tail) ==> Gone(call.callId)
    {
      hide On, View, Log, Gone, Leg.Inv;
      leg.Others(lt);
      var finished := RejectUnfinished(leg, lt, 503);
      ghost var why := if finished then Plain else Failure(reason);
      var mine, ok := EndCallAs(from, t, call.callId, call, why);
      tail := [DidEnd(call.callId, why, mine, ok)];
      OneWent(tail[0]);
    }

    // ---- waitForMatrix

    lemma ClosedEnded(id: CallId)
      requires Inv(View()) && id in ended && ended[id]
      ensures Gone(id)
    {
    }

    /** The wake-up is a ready one. */
    predicate Ready(e: Wake, listening: bool, id: CallId, leg: Leg.InboundCall)
      reads this`answered, this`ended, this`declined, leg
    {
      match e
      case Joined => listening && id in answered && answered[id].Some?
      case CallEnded => id in ended && ended[id]
      case Declined => id in declined && declined[id]
      case LegDone => leg.dones > 0
      case RingTimeout => true
      case ContextDone => leg.cancelled || leg.base
    }

    /** The select: any that is ready may be picked. */
    method Select(listening: bool, id: CallId, leg: Leg.InboundCall) returns (e: Wake)
      ensures Ready(e, listening, id, leg)
    {
      e := *;
      if !Ready(e, listening, id, leg) {
        e := RingTimeout;
      }
    }

    /** The ways a ringing call ends without an answer, each with its status for the caller and its word for the room.
        It is recorded as interrupted by a restart only if the transport went away. */
    method GiveUp(ghost from: Sys, t: Tid, call: Call, leg: Leg.InboundCall, lt: Tid, e: Wake)
      returns (ghost evs: seq<Event>)
      requires On(from) && Idle(t) && leg.Valid() && lt !in leg.inside
      requires !e.Joined? && Ready(e, false, call.callId, leg)
      modifies this, call`state, call`updatedAt, leg
      ensures On(from) && Idle(t) && leg.Valid() && leg.closed && Log(t) == old(Log(t)) + evs
      ensures StatementsWent(evs) ==> Gone(call.callId)
      ensures leg.answers == old(leg.answers)
      ensures
        match e
        case CallEnded =>
          Gone(call.callId) && evs == [] && leg.rejects == old(leg.rejects) + One(!old(leg.closed))
          && (!old(leg.closed) ==> leg.code == 480)
        case Declined =>
          OneEnd(evs, call.callId, Why.Declined) && leg.rejects == old(leg.rejects) + 1 && leg.code == 486
        case LegDone =>
          OneEnd(evs, call.callId, Plain) && leg.rejects == old(leg.rejects)
        case RingTimeout =>
          OneEnd(evs, call.callId, Plain) && leg.rejects == old(leg.rejects) + 1 && leg.code == 480
        case ContextDone =>
          if leg.rejects == old(leg.rejects) then OneEnd(evs, call.callId, Plain)
          else OneEnd(evs, call.callId, Failure(BRIDGE_RESTARTED)) && leg.base && leg.rejects == old(leg.rejects) + 1
               && leg.code == 503
    {
      GivingUp(leg);
      match e {
        case CallEnded =>
          OnSince(from);
          ClosedEnded(call.callId);
          hide On, Gone, View, Log, Leg.Inv;
          var _ := RejectUnfinished(leg, lt, 480);
          evs := [];
        case Declined =>
          leg.Reject(lt, 486);
          evs := EndWaiting(from, t, call, Why.Declined);
        case LegDone =>
          evs := EndWaiting(from, t, call, Plain);
        case RingTimeout =>
          leg.Reject(lt, 480);
          evs := EndWaiting(from, t, call, Plain);
        case ContextDone =>
          leg.Others(lt);
          var finished := RejectUnfinished(leg, lt, 503);
          evs := EndWaiting(from, t, call, if finished then Plain else Failure(BRIDGE_RESTARTED));
      }
    }

    method EndWaiting(ghost from: Sys, t: Tid, call: Call, ghost why: Why) returns (ghost evs: seq<Event>)
      requires On(from) && Idle(t)
      modifies this, call`state, call`updatedAt
      ensures On(from) && Idle(t) && Log(t) == old(Log(t)) + evs && OneEnd(evs, call.callId, why)
      ensures StatementsWent(evs) ==> Gone(call.callId)
    {
      hide On, View, Log, Gone;
      Others(from, t, call.callId);
      var mine, ok := EndCallAs(from, t, call.callId, call, why);
      evs := [DidEnd(call.callId, why, mine, ok)];
      OneWent(evs[0]);
    }

    /** A leg that cancelled the context or closed done is finished. */
    static lemma GivingUp(leg: Leg.InboundCall)
      requires leg.Valid()
      ensures leg.cancelled || leg.dones > 0 ==> leg.closed
    {
    }

    /** What is so of the call and its leg after the thread that held the leg has returned. */
    ghost predicate Settles(id: CallId, tr: WaitTrace, leg: Leg.InboundCall)
      reads this`rows, leg
    {
      SettlesIn(rows, id, tr, leg)
    }

    static ghost predicate SettlesIn(t: Table, id: CallId, tr: WaitTrace, leg: Leg.InboundCall)
      reads leg
    {
      && (StatementsWent(tr.All()) ==> !Active(t, id) || (InState(t, id, Bridged) && leg.accepted))
      && leg.answers + leg.rejects <= 1 && leg.answers == One(Asked(tr.All(), AskAnswer))
      && (leg.answers + leg.rejects == 1 || leg.closed || tr.NeverClaimed())
      && (tr.taken.None? && tr.leave == [] ==> !Active(t, id))
      && (OneEnd(tr.leave, id, Why.Declined) ==> leg.rejects == 1 && leg.code == 486)
      && (OneEnd(tr.leave, id, Failure(BRIDGE_RESTARTED)) ==> leg.rejects == 1 && leg.code == 503 && leg.base)
      && WonBy(tr, t, id)
    }

    lemma OwnerBridged(id: CallId)
      requires Inv(View()) && id in owners
      ensures Gone(id) || InState(rows, id, Bridged)
    {
    }

    /** A join is read off its channel. */
    method TakeJoin(ghost from: Sys, ghost t: Tid, id: CallId) returns (joiner: User)
      requires On(from) && id in answered && answered[id].Some?
      modifies this`answered, this`did
      ensures On(from) && Log(t) == old(Log(t)) + [DidReadJoin(id, joiner)]
      ensures Some(joiner) == old(answered)[id] && answered == old(answered)[id := None]
    {
      hide Inv, Reaches, Grown, Enabled, OwnStep, Effect, Logged;
      ghost var s := View();
      joiner := answered[id].value;
      answered := answered[id := None];
      OwnMemory(s, t, TakesJoin(id), id);
      TookNote(from, s, AMemory(t, TakesJoin(id)), t, id);
    }

    /** Who has won a call is the user on it. */
    lemma WinnerStays(from: Sys, t: Tid, id: CallId, user: User)
      requires On(from) && DidClaim(id, user, true, true) in Log(t)
      ensures AnsweredFor(rows, id, user)
    {
      hide CallInv, MemInv, Reaches, Grown;
    }

    /** Gives up, perhaps after a lost claim. */
    method Leave(ghost from: Sys, t: Tid, call: Call, leg: Leg.InboundCall, lt: Tid, e: Wake,
                 ghost lost: Option<JoinTrace>)
      returns (ghost tr: WaitTrace)
      requires On(from) && Idle(t) && leg.Valid() && lt !in leg.inside && leg.answers == 0 && leg.rejects == 0
      requires !e.Joined? && Ready(e, false, call.callId, leg) && WaitTrace(lost, None, []).Fits(call.callId)
      modifies this, call`state, call`updatedAt, leg
      ensures On(from) && Idle(t) && leg.Valid() && Log(t) == old(Log(t)) + tr.leave && tr.Fits(call.callId)
      ensures tr == WaitTrace(lost, None, tr.leave) && Settles(call.callId, tr, leg)
    {
      hide On, View, Log, Idle, Leg.Inv, AnswerTrace.Fits, AnswerTrace.All, StatementsWent, Asked, Ready;
      ghost var evs := GiveUp(from, t, call, leg, lt, e);
      tr := WaitTrace(lost, None, evs);
      tr.Asks(call.callId, AskAnswer);
      if StatementsWent(tr.All()) {
        tr.PartsWent();
      }
    }

    /** The answer was the end of it. */
    lemma AnswerSettles(from: Sys, t: Tid, id: CallId, tr: WaitTrace, outcome: AnswerOutcome, leg: Leg.InboundCall)
      requires On(from) && tr.Fits(id) && tr.taken.Some? && tr.leave == []
      requires tr.taken.value.Fits(id, outcome) && outcome != AnswerLost
      requires outcome == AnswerWon ==> id in owners && leg.accepted
      requires outcome == AnswerOver && StatementsWent(tr.taken.value.answer.All()) ==> Gone(id)
      requires var a := tr.taken.value.answer;
               && leg.answers == One(Asked(a.up, AskAnswer)) && a.claim in Log(t)
               && leg.answers + leg.rejects <= One(a.claim.won)
               && (a.claim.won ==> leg.answers + leg.rejects == 1 || leg.closed)
      ensures Settles(id, tr, leg)
    {
      var a := tr.taken.value.answer;
      if a.claim.won {
        assert a.claim == DidClaim(id, tr.taken.value.joiner, true, true);
        WinnerStays(from, t, id, tr.taken.value.joiner);
      }
      if outcome == AnswerWon {
        OnSince(from);
        OwnerBridged(id);
      }
      hide On, Log, AnswerTrace.Fits, AnswerTrace.All, JoinTrace.All, StatementsWent, Asked;
      tr.Asks(id, AskAnswer);
      if StatementsWent(tr.All()) {
        tr.PartsWent();
      }
    }

    /** A join is read off its channel and answered. */
    method TakeUp(ghost from: Sys, t: Tid, call: Call, leg: Leg.InboundCall, lt: Tid)
      returns (outcome: AnswerOutcome, ghost j: JoinTrace)
      requires On(from) && Idle(t) && Agrees(call) && call.direction == Inbound && Unclaimed(call.callId)
      requires leg.Valid() && lt !in leg.inside && leg.answers == 0 && leg.rejects == 0
      requires call.callId in answered && answered[call.callId].Some?
      modifies this, call`state, call`matrixUser, call`updatedAt, call`lkParticipant, leg
      ensures On(from) && Idle(t) && leg.Valid() && lt !in leg.inside && j.Fits(call.callId, outcome)
      ensures Log(t) == old(Log(t)) + j.All() && Some(j.joiner) == old(answered)[call.callId]
      ensures if outcome == AnswerLost
              then Agrees(call) && Unclaimed(call.callId) && leg.answers == 0 && leg.rejects == 0
              else Settles(call.callId, WaitTrace(None, Some(j), []), leg)
    {
      hide On, View, Log, DialOf, MyRow, Agrees, Unclaimed, Gone, Leg.Inv, AnswerTrace.Fits, Settles, StatementsWent,
           Asked;
      var id := call.callId;
      var joiner := TakeJoin(from, t, id);
      ghost var a;
      outcome, a := AnswerInbound(from, t, call, leg, lt, joiner);
      j := JoinTrace(id, joiner, a);
      assert Log(t) == old(Log(t)) + j.All();
      assert a.claim in j.All();
      hide AnswerTrace.All, JoinTrace.All;
      j.Asks(outcome, AskAnswer);
      if outcome != AnswerLost {
        Others(from, t, id);
        AnswerSettles(from, t, id, WaitTrace(None, Some(j), []), outcome, leg);
      }
    }

    /** Holds the leg until a Matrix user joins and wins the conference, the caller gives up, the user declines or the
        ring times out. When it returns and no statement failed, the row is not ringing, and bridged only if the leg was
        answered. The leg gets one response at most, and at least one unless it is gone or its claim came to nothing. */
    method WaitForMatrix(ghost from: Sys, t: Tid, call: Call, leg: Leg.InboundCall, lt: Tid)
      returns (ghost tr: WaitTrace)
      requires On(from) && Idle(t) && Agrees(call) && call.direction == Inbound && Unclaimed(call.callId)
      requires leg.Valid() && lt !in leg.inside && leg.answers == 0 && leg.rejects == 0
      modifies this, call`state, call`matrixUser, call`updatedAt, call`lkParticipant, leg
      ensures On(from) && Idle(t) && leg.Valid() && Log(t) == old(Log(t)) + tr.All() && tr.Fits(call.callId)
      ensures Settles(call.callId, tr, leg)
    {
      hide On, View, Log, DialOf, MyRow, Agrees, Unclaimed, Gone, Leg.Inv, AnswerTrace.Fits, JoinTrace.Fits,
           JoinTrace.All, Settles, StatementsWent, Asked;
      var id := call.callId;
      var listening := true;
      ghost var lost: Option<JoinTrace> := None;
      while true
        invariant On(from) && Idle(t) && Agrees(call) && Unclaimed(id)
        invariant leg.Valid() && lt !in leg.inside && leg.answers == 0 && leg.rejects == 0
        invariant listening == lost.None? && WaitTrace(lost, None, []).Fits(id)
        invariant Log(t) == old(Log(t)) + WaitTrace(lost, None, []).All()
        decreases listening
      {
        Meanwhile(from, t, call);
        leg.Others(lt);
        var e := Select(listening, id, leg);
        if !e.Joined? {
          tr := Leave(from, t, call, leg, lt, e, lost);
          return;
        }
        var outcome;
        ghost var j;
        outcome, j := TakeUp(from, t, call, leg, lt);
        if outcome != AnswerLost {
          tr := WaitTrace(None, Some(j), []);
          return;
        }
        listening, lost := false, Some(j);
      }
    }

    // ---- Stale calls

    /** Nothing rings for longer than the ring timeout and its setup; a bridged call is given up on only when
        clients stop believing in it. */
    predicate IsStale(r: CallRow, now: int) {
      match r.state
      case Ringing => now - r.createdAt > ringTimeout + RING_SETUP_GRACE
      case Bridged => now - r.updatedAt > membershipExpiry
      case Ended => false
    }

    /** By the row's own times it cannot still be in progress: it rings for more than a minute longer than the ring
        timeout, or is bridged and was last written to longer ago than clients believe in a membership. */
    predicate Overdue(r: CallRow, now: int) {
      || (r.state == Ringing && r.createdAt + ringTimeout + 60_000 < now)
      || (r.state == Bridged && r.updatedAt + membershipExpiry < now)
    }

    /** The clock is read, and a row that is overdue by it gets ended, quietly. */
    predicate EndsStale(evs: seq<Event>, r: CallRow) {
      && evs != [] && evs[0].DidReadClock?
      && if Overdue(r, evs[0].now) then OneEnd(evs[1..], r.callId, Quiet) else |evs| == 1
    }

    /** The two ways to say it agree. */
    lemma StaleIsOverdue(r: CallRow, now: int)
      ensures IsStale(r, now) <==> Overdue(r, now)
    {
    }

    /** Ends a row that claims to be in progress but cannot be. */
    method EndIfStale(ghost from: Sys, t: Tid, own: CallId, call: Call)
      returns (stale: bool, ok: bool, ghost evs: seq<Event>)
      requires On(from) && Idle(t)
      modifies this, call`state, call`updatedAt
      ensures On(from) && Idle(t) && OwnKept(own)
      ensures Log(t) == old(Log(t)) + evs && EndsStale(evs, old(call.Row()))
      ensures stale == (|evs| == 2) && ok == StatementsWent(evs)
      ensures stale && ok ==> Gone(call.callId)
      ensures !stale ==> ok && call.Row() == old(call.Row()) && rows == old(rows) && seen == old(seen)
    {
      hide On, View, Log, DialOf, Idle, Gone, IsStale, Overdue;
      var now := ReadClock(from, t);
      StaleIsOverdue(call.Row(), now);
      evs := [DidReadClock(now)];
      stale := IsStale(call.Row(), now);
      ok := true;
      if stale {
        Others(from, t, own);
        var mine;
        mine, ok := EndCallAs(from, t, own, call, Quiet);
        ghost var e := DidEnd(call.callId, Quiet, mine, ok);
        WentJoin(evs, [e]);
        OneWent(e);
        evs := evs + [e];
        assert evs[1..] == [e];
      }
    }

    /** A lookup of the call in progress, and what it comes to if the newest one is stale. */
    predicate LooksUp(evs: seq<Event>) {
      && evs != [] && evs[0].DidFind?
      && if evs[0].ok && evs[0].row.Some? then EndsStale(evs[1..], evs[0].row.value) else |evs| == 1
    }

    /** The query, which finds the newest row there is. */
    method Find(ghost from: Sys, ghost t: Tid, found: set<CallId>) returns (row: Option<CallRow>, ok: bool)
      requires On(from) && found <= rows.Keys
      modifies this`did
      ensures On(from) && Log(t) == old(Log(t)) + [DidFind(row, ok)]
      ensures if ok then IsNewest(rows, found, row) else row == None
    {
      OnSince(from);
      RowsKeyed();
      hide On, Since;
      ok := *;
      row := None;
      if ok {
        row := PickNewest(rows, found);
      }
      Note(from, t, DidFind(row, ok));
    }

    /** The newest call in progress among those found, unless it is stale and so ended. */
    method DiscardIfStale(ghost from: Sys, t: Tid, own: CallId, found: set<CallId>)
      returns (existing: Option<CallRow>, ok: bool, ghost evs: seq<Event>)
      requires On(from) && Idle(t) && found <= rows.Keys
      modifies this
      ensures On(from) && Idle(t) && OwnKept(own)
      ensures Log(t) == old(Log(t)) + evs && LooksUp(evs) && ok == StatementsWent(evs)
      ensures if evs[0].ok then IsNewest(old(rows), found, evs[0].row) else evs[0].row == None
      ensures existing == (if |evs| == 2 then evs[0].row else None) && (existing.Some? ==> ok)
    {
      hide On, View, Log, DialOf, Idle, Gone, IsNewest, StatementsWent, EndsStale;
      var row;
      row, ok := Find(from, t, found);
      ghost var e := DidFind(row, ok);
      evs, existing := [e], None;
      OneWent(e);
      if row.Some? {
        Others(from, t, own);
        var call := new Call(row.value);
        var stale;
        ghost var more;
        stale, ok, more := EndIfStale(from, t, own, call);
        evs := [e] + more;
        WentJoin([e], more);
        Length(more, row.value);
        assert evs[1..] == more;
        existing := if stale then None else row;
      }
    }

    lemma Length(evs: seq<Event>, r: CallRow)
      requires EndsStale(evs, r)
      ensures |evs| == 1 || |evs| == 2
    {
    }

    // ---- HandleInboundCall

    /** What beginInboundCall did once no call was in progress: the setup, then the ring notification, which may fail
        without harm, or, if the row is there but cannot ring, its end. */
    predicate Begins(ring: seq<Event>, tail: seq<Event>, r: CallRow) {
      && Follows(RingPlan(r), ring)
      && if ring == RingPlan(r) then Notified(tail, r.callId)
         else if |ring| == 4 then OneEnd(tail, r.callId, Failure(COULD_NOT_CONNECT))
         else tail == []
    }

    /** The row of an inbound leg: which conversation it is for, in whose room, and the conference that it shares with
        the other legs of the phone call. */
    predicate LegRow(r: CallRow, id: CallId, portalId: string, conference: string, owner: User) {
      && r.callId == id && r.portalId == portalId && r.conference == conference && r.receiver == owner
      && r.direction == Inbound && r.state == Ringing && r.matrixUser == NOBODY && r.lkRoom == lkRoomName(r.room)
      && r.lkParticipant == "" && r.createdAt == r.updatedAt
    }

    /** Any steps of the others, for a thread that has no row yet. */
    method BeforeRow(ghost from: Sys, t: Tid, id: CallId)
      requires On(from) && Idle(t) && id !in rows
      modifies this
      ensures On(from) && Idle(t) && id !in rows && Log(t) == old(Log(t))
    {
      hide On, View, Log, DialOf, Idle, OwnKept, Gone, Interleaved, Grown;
      Others(from, t, id);
    }

    /** The portal's room and its ghost. */
    method FindRoom(ghost from: Sys, t: Tid, id: CallId, portalId: string, owner: User)
      returns (ok: bool, room: Room, ghost evs: seq<Event>)
      requires On(from) && Idle(t) && id !in rows
      modifies this
      ensures On(from) && Idle(t) && id !in rows && Log(t) == old(Log(t)) + evs
      ensures Follows(RoomRequests(portalId, owner, room), evs) && (ok <==> evs == RoomRequests(portalId, owner, room))
    {
      hide On, View, Log, DialOf, Idle, Follows, OwnKept, Gone;
      BeforeRow(from, t, id);
      ok, room := AskPortal(from, t, portalId, owner);
      evs := [DidFindRoom(portalId, owner, room, ok)];
      ghost var plan := RoomRequests(portalId, owner, room);
      TwoSteps(plan[0], plan[1], evs[0], evs[0]);
      if ok {
        BeforeRow(from, t, id);
        ok := Ask(from, t, AskGhost);
        evs := [plan[0], DidRequest(AskGhost, ok)];
        TwoSteps(plan[0], plan[1], evs[1], evs[1]);
        BeforeRow(from, t, id);
      }
    }

    /** The room of the conversation, which is made for the owner if there is none. */
    method AskPortal(ghost from: Sys, ghost t: Tid, ghost portalId: string, ghost owner: User)
      returns (ok: bool, room: Room)
      requires On(from)
      modifies this`did
      ensures On(from) && Log(t) == old(Log(t)) + [DidFindRoom(portalId, owner, room, ok)] && (ok <==> room != "")
    {
      hide On, Log;
      room := *;
      ok := room != "";
      Note(from, t, DidFindRoom(portalId, owner, room, ok));
    }

    /** Creates the call row and rings Matrix. The row is that of a leg of the conference for the owner's room. Without
        a call in the end, and with no statement failed, there is no row in progress for it either. */
    method BeginInboundCall(ghost from: Sys, t: Tid, id: CallId, portalId: string, conference: string, owner: User)
      returns (call: Call?, ghost row: CallRow, ghost look: seq<Event>, ghost ring: seq<Event>, ghost tail: seq<Event>)
      requires On(from) && Idle(t) && id !in rows
      modifies this
      ensures On(from) && Idle(t) && Log(t) == old(Log(t)) + look + ring + tail && LooksUp(look)
      ensures look[0].ok ==> LatestLeg(old(rows), conference, owner, look[0].row)
      ensures if Clear(look) then Begins(ring, tail, row) else ring == [] && tail == []
      ensures LegRow(row, id, portalId, conference, owner)
      ensures call != null <==> ring == RingPlan(row)
      ensures call != null ==> call.callId == id && call.direction == Inbound
      ensures call != null ==> fresh(call) && call.Row() == row && Agrees(call) && Unclaimed(id)
      ensures call == null && StatementsWent(ring + tail) ==> Gone(id)
    {
      hide On, View, Log, DialOf, Idle, IsNewest, StatementsWent, Follows, EndsStale, Agrees, Unclaimed, LatestLeg,
           ActiveByConference, Notified;
      FoundInTable(conference, owner);
      ghost var before := rows;
      var existing, ok, room;
      call, ring, tail := null, [], [];
      row := NO_ROW.(callId := id, portalId := portalId, receiver := owner, conference := conference,
                     lkRoom := lkRoomName(""));
      existing, ok, look := DiscardIfStale(from, t, id, ActiveByConference(rows, conference, owner));
      if look[0].ok {
        LegLookup(before, conference, owner, look[0].row);
      }
      if !ok || existing.Some? {
        return;
      }
      ok, room, ring := FindRoom(from, t, id, portalId, owner);
      if !ok {
        row := row.(room := room, lkRoom := lkRoomName(room));
        FollowsStop(RoomRequests(portalId, owner, room), ring, AnnouncePlan(row));
        return;
      }
      ghost var asks, more := ring, [];
      call, row, more, tail := RingMatrix(from, t, id, portalId, room, conference, owner);
      ring := asks + more;
      FollowsOn(asks, AnnouncePlan(row), more);
      SameRest(asks, more, AnnouncePlan(row));
      Assoc(asks, more, tail);
      WentJoin(asks, more + tail);
    }

    /** No call is in progress, and no statement failed. */
    predicate Clear(look: seq<Event>) {
      StatementsWent(look) && |look| != 2
    }

    lemma FoundInTable(conference: string, owner: User)
      ensures ActiveByConference(rows, conference, owner) <= rows.Keys
    {
    }

    /** The row, the ghost's membership and the ring notification. */
    method RingMatrix(ghost from: Sys, t: Tid, id: CallId, portalId: string, room: Room, conference: string,
                      owner: User)
      returns (call: Call?, ghost row: CallRow, ghost ring: seq<Event>, ghost tail: seq<Event>)
      requires On(from) && Idle(t) && id !in rows
      modifies this
      ensures On(from) && Idle(t) && Log(t) == old(Log(t)) + ring + tail && Follows(AnnouncePlan(row), ring)
      ensures LegRow(row, id, portalId, conference, owner) && row.room == room
      ensures if ring == AnnouncePlan(row) then Notified(tail, id)
              else if |ring| == 2 then OneEnd(tail, id, Failure(COULD_NOT_CONNECT))
              else tail == []
      ensures call != null <==> ring == AnnouncePlan(row)
      ensures call != null ==> fresh(call) && call.Row() == row && Agrees(call) && Unclaimed(id)
      ensures call == null && StatementsWent(ring + tail) ==> Gone(id)
    {
      hide On, View, Log, DialOf, Idle, Follows, StatementsWent, Gone, Agrees, Unclaimed, MyRow, Notified;
      var c, ok := InsertInbound(from, t, id, portalId, room, conference, owner);
      row, call, tail := c.Row(), null, [];
      ring := [DidInsert(row, ok)];
      TwoSteps(DidInsert(row, true), DidRequest(AskMembership, true), ring[0], ring[0]);
      if !ok {
        OneWent(ring[0]);
        assert ring + tail == ring;
        return;
      }
      ok := Ask(from, t, AskMembership);
      ring := [DidInsert(row, true), DidRequest(AskMembership, ok)];
      TwoSteps(DidInsert(row, true), DidRequest(AskMembership, true), ring[1], ring[1]);
      Meanwhile(from, t, c);
      if ok {
        tail := Notify(from, t, c);
        call := c;
      } else {
        tail := RollBack(from, t, c);
        WentJoin(ring, tail);
      }
    }

    method InsertInbound(ghost from: Sys, t: Tid, id: CallId, portalId: string, room: Room, conference: string,
                         owner: User)
      returns (call: Call, ok: bool)
      requires On(from) && Idle(t) && id !in rows
      modifies this
      ensures On(from) && Idle(t) && Log(t) == old(Log(t)) + [DidInsert(call.Row(), ok)]
      ensures fresh(call) && LegRow(call.Row(), id, portalId, conference, owner) && call.room == room
      ensures ok ==> Agrees(call) && Unclaimed(id)
    {
      var lkIdentity: string := *;
      call := new Call(CallRow(id, portalId, room, owner, NOBODY, Inbound, conference, lkRoomName(room), lkIdentity, "",
                               Ringing, 0, 0));
      OnSince(from);
      RowsKeyed();
      hide On, View, Log, DialOf, Since;
      ok := Insert(from, t, call);
      if ok {
        Meanwhile(from, t, call);
      }
    }

    /** The ring notification, which may fail without harm. */
    method Notify(ghost from: Sys, t: Tid, call: Call) returns (ghost tail: seq<Event>)
      requires On(from) && Idle(t) && Agrees(call) && Unclaimed(call.callId)
      modifies this
      ensures On(from) && Idle(t) && Agrees(call) && Unclaimed(call.callId) && Log(t) == old(Log(t)) + tail
      ensures Notified(tail, call.callId) && DialOf(call.callId) == old(DialOf(call.callId))
    {
      hide On, View, Log, DialOf, Idle, Agrees, Unclaimed;
      var ok := Ask(from, t, AskNotify);
      tail := [DidRequest(AskNotify, ok)];
      if ok {
        var notify: EventId := *;
        RememberNotification(from, t, notify, call.callId);
        tail := tail + [DidRemember(notify, call.callId)];
      }
      Meanwhile(from, t, call);
    }

    method RememberNotification(ghost from: Sys, ghost t: Tid, notify: EventId, id: CallId)
      requires On(from)
      modifies this`notifies, this`did
      ensures On(from) && Log(t) == old(Log(t)) + [DidRemember(notify, id)] && notifies == old(notifies)[notify := id]
    {
      hide Inv, Reaches, Grown, Enabled, OwnStep, Effect, Logged;
      ghost var s := View();
      notifies := notifies[notify := id];
      OwnMemory(s, t, Remembers(notify, id), NO_CALL);
      TookNote(from, s, AMemory(t, Remembers(notify, id)), t, NO_CALL);
    }

    /** A call that could not be set up. */
    method RollBack(ghost from: Sys, t: Tid, call: Call) returns (ghost tail: seq<Event>)
      requires On(from) && Idle(t)
      modifies this, call`state, call`updatedAt
      ensures On(from) && Idle(t) && Log(t) == old(Log(t)) + tail
      ensures OneEnd(tail, call.callId, Failure(COULD_NOT_CONNECT)) && (StatementsWent(tail) ==> Gone(call.callId))
    {
      hide On, View, Log, Idle, Gone;
      var mine, ok := EndCallAs(from, t, call.callId, call, Failure(COULD_NOT_CONNECT));
      tail := [DidEnd(call.callId, Failure(COULD_NOT_CONNECT), mine, ok)];
      OneWent(tail[0]);
    }

    predicate Has(c: Channel, id: CallId)
      reads this`answered, this`declined, this`ended
    {
      match c
      case AnswerChannel => id in answered
      case DeclineChannel => id in declined
      case EndedChannel => id in ended
    }

    /** Nobody waits for anything of the call. */
    predicate Unwaited(id: CallId)
      reads this`answered, this`declined, this`ended
    {
      !Has(AnswerChannel, id) && !Has(DeclineChannel, id) && !Has(EndedChannel, id)
    }

    /** answerChannel, declineChannel and endedChannel. */
    method MakeChannel(ghost from: Sys, ghost t: Tid, c: Channel, id: CallId)
      requires On(from)
      modifies this`answered, this`declined, this`ended, this`did
      ensures Log(t) == old(Log(t)) + [DidMake(c, id)]
      ensures On(from) && Has(c, id) && forall d :: old(Has(d, id)) ==> Has(d, id)
    {
      hide Inv, Reaches, Grown, Enabled, OwnStep, Effect, Logged;
      ghost var s := View();
      PutChannel(c, id);
      assert View() == s.(mem := Make(s.mem, c, id));
      OwnMemory(s, t, Makes(c, id), id);
      TookNote(from, s, AMemory(t, Makes(c, id)), t, id);
    }

    method PutChannel(c: Channel, id: CallId)
      modifies this`answered, this`declined, this`ended
      ensures Mem() == Make(old(Mem()), c, id)
    {
      match c {
        case AnswerChannel =>
          if id !in answered {
            answered := answered[id := None];
          }
        case DeclineChannel =>
          if id !in declined {
            declined := declined[id := false];
          }
        case EndedChannel =>
          if id !in ended {
            ended := ended[id := false];
          }
      }
    }

    /** forgetAnswerChannel, forgetDeclineChannel and forgetEndedChannel. */
    method DropChannel(ghost from: Sys, ghost t: Tid, c: Channel, id: CallId)
      requires On(from)
      modifies this`answered, this`declined, this`ended, this`did
      ensures Log(t) == old(Log(t)) + [DidDrop(c, id)]
      ensures On(from) && !Has(c, id) && forall d :: Has(d, id) ==> old(Has(d, id))
    {
      hide Inv, Reaches, Grown, Enabled, OwnStep, Effect, Logged;
      ghost var s := View();
      match c {
        case AnswerChannel => answered := answered - {id};
        case DeclineChannel => declined := declined - {id};
        case EndedChannel => ended := ended - {id};
      }
      OwnMemory(s, t, Drops(c, id), id);
      TookNote(from, s, AMemory(t, Drops(c, id)), t, id);
    }

    lemma HasIn(c: Channel, id: CallId)
      ensures Has(c, id) <==> HasChannel(View().mem, c, id)
    {
    }

    /** Any steps of the others, which leave the channels of the call alone. */
    method LeaveChannels(ghost from: Sys, t: Tid, id: CallId)
      requires On(from) && Idle(t)
      modifies this
      ensures On(from) && Idle(t) && MyRow(old(rows), rows, id) && Log(t) == old(Log(t)) && (old(Gone(id)) ==> Gone(id))
      ensures forall c :: Has(c, id) <==> old(Has(c, id))
    {
      OnSince(from);
      hide On, View, Log, Idle, Gone, Interleaved, Grown, Reaches, Has, Inv, MyRow, DialOf;
      ghost var s := View();
      forall c ensures old(Has(c, id)) <==> HasChannel(s.mem, c, id) {
        HasIn(c, id);
      }
      Others(from, t, id);
      Rely(s, View(), t, id);
      forall c ensures Has(c, id) <==> HasChannel(s.mem, c, id) {
        HasIn(c, id);
      }
    }

    /** waitersFor: the channels exist before the call is announced to Matrix. */
    method MakeChannels(ghost from: Sys, t: Tid, id: CallId)
      requires On(from) && Idle(t) && id !in rows
      modifies this
      ensures On(from) && Idle(t) && id !in rows && Log(t) == old(Log(t)) + MakePlan(id)
      ensures Has(AnswerChannel, id) && Has(DeclineChannel, id) && Has(EndedChannel, id)
    {
      hide On, View, Log, Idle, Has, Gone;
      MakeChannel(from, t, AnswerChannel, id);
      LeaveChannels(from, t, id);
      MakeChannel(from, t, DeclineChannel, id);
      LeaveChannels(from, t, id);
      MakeChannel(from, t, EndedChannel, id);
      LeaveChannels(from, t, id);
    }

    /** forgetWaiters. */
    method ForgetChannels(ghost from: Sys, t: Tid, id: CallId)
      requires On(from) && Idle(t)
      modifies this
      ensures On(from) && Idle(t) && MyRow(old(rows), rows, id) && Log(t) == old(Log(t)) + DropPlan(id) && Unwaited(id)
      ensures old(Gone(id)) ==> Gone(id)
    {
      hide On, View, Log, Idle, Has, Gone;
      DropChannel(from, t, AnswerChannel, id);
      LeaveChannels(from, t, id);
      DropChannel(from, t, DeclineChannel, id);
      LeaveChannels(from, t, id);
      DropChannel(from, t, EndedChannel, id);
    }

    /** The INVITE names a conversation of this bridge. */
    predicate Takes(conference: string) {
      enabled && PortalIdOf(conferencePrefix, conference).Some?
      && !PortalId.IsLineRoomID(PortalIdOf(conferencePrefix, conference).value)
    }

    /** What HandleInboundCall did, in order: 180 and the recipient; the lookup of a call in progress; the setup; and,
        if the call rang, the wait. */
    predicate Handles(tr: InboundTrace, id: CallId, conference: string) {
      && Follows(LegPlan(tr.recipient), tr.asks)
      && (if tr.asks == LegPlan(tr.recipient) then
            tr.open == MakePlan(id) && LooksUp(tr.look) && IsItsRow(tr, id, conference) && tr.close == DropPlan(id)
          else tr.open == [] && tr.look == [] && tr.close == [])
      && (if tr.asks == LegPlan(tr.recipient) && Clear(tr.look) then Begins(tr.ring, tr.tail, tr.row)
          else tr.ring == [] && tr.tail == [])
      && (if tr.ring == RingPlan(tr.row) then tr.wait.Fits(id) else tr.wait == NO_WAIT)
    }

    /** The row is that of a leg of the conference for the recipient. */
    predicate IsItsRow(tr: InboundTrace, id: CallId, conference: string) {
      var portalId := PortalIdOf(conferencePrefix, conference);
      portalId.Some? && LegRow(tr.row, id, portalId.value, conference, tr.recipient)
    }

    /** Nothing is asked of the leg's media before the wait. */
    lemma SetupAsks(tr: InboundTrace, id: CallId, conference: string, what: Request)
      requires Handles(tr, id, conference) && IsMedia(what)
      ensures Asked(tr.All(), what) <==> Asked(tr.wait.All(), what)
      ensures StatementsWent(tr.All()) ==>
        StatementsWent(tr.look) && StatementsWent(tr.ring + tr.tail) && StatementsWent(tr.wait.All())
    {
      hide WaitTrace.Fits, WaitTrace.All, LooksUp, Follows, Begins, StatementsWent, Asked, IsItsRow, Handles;
      SetupParts(tr, id, conference, what);
      var begin := tr.look + tr.ring + tr.tail;
      WentAll(tr.asks, tr.open, begin, tr.wait.All(), tr.close);
      AskedAll(tr.asks, tr.open, begin, tr.wait.All(), tr.close, what);
      Assoc(tr.look, tr.ring, tr.tail);
      WentJoin(tr.look, tr.ring + tr.tail);
      AskedJoin(tr.look + tr.ring, tr.tail, what);
      AskedJoin(tr.look, tr.ring, what);
    }

    lemma SetupParts(tr: InboundTrace, id: CallId, conference: string, what: Request)
      requires Handles(tr, id, conference) && IsMedia(what)
      ensures !Asked(tr.asks, what) && !Asked(tr.open, what) && !Asked(tr.close, what)
      ensures !Asked(tr.look, what) && !Asked(tr.ring, what) && !Asked(tr.tail, what)
    {
      hide WaitTrace.Fits, Follows, Overdue, LegRow, PortalIdOf;
      assert !Asked(RingPlan(tr.row), what) && !Asked(LegPlan(tr.recipient), what);
      FollowsAsks(LegPlan(tr.recipient), tr.asks, what);
      if tr.look != [] {
        LookAsks(tr.look, what);
      }
      if tr.ring != [] {
        FollowsAsks(RingPlan(tr.row), tr.ring, what);
      }
    }

    lemma LookAsks(look: seq<Event>, what: Request)
      requires LooksUp(look)
      ensures !Asked(look, what)
    {
      hide Overdue;
    }

    /** An inbound leg has no media asked for, nor is it answered, unless its thread won the call: only the requests of
        the setup come without a claim. */
    lemma MediaNeedsClaim(tr: InboundTrace, id: CallId, conference: string, what: Request)
      requires Handles(tr, id, conference) && IsMedia(what) && Asked(tr.All(), what)
      ensures tr.wait.taken.Some?
      ensures var j := tr.wait.taken.value;
              j.answer.claim == DidClaim(id, j.joiner, true, true) && Asked(j.answer.up, what)
    {
      SetupAsks(tr, id, conference, what);
      hide WaitTrace.All, LooksUp, Follows, Begins, StatementsWent, Asked;
      if tr.ring == RingPlan(tr.row) {
        tr.wait.Asks(id, what);
      } else {
        NothingAsked(what);
      }
    }

    /** Owns an inbound leg for its whole life. When it returns and no statement failed, the row of the call is not in
        progress, or bridged with the leg answered. The row is that of a leg of the conference in the recipient's room,
        and on it is who joined and won it. The leg gets one response at most, and at least one unless it is gone or its
        claim came to nothing. */
    method HandleInboundCall(ghost from: Sys, t: Tid, id: CallId, leg: Leg.InboundCall, lt: Tid, conference: string)
      returns (ghost tr: InboundTrace)
      requires On(from) && Idle(t) && id !in rows
      requires leg.Valid() && lt !in leg.inside && leg.answers == 0 && leg.rejects == 0
      modifies this, leg
      ensures On(from) && Idle(t) && leg.Valid() && Log(t) == old(Log(t)) + tr.All()
      ensures if Takes(conference) then Handles(tr, id, conference)
              else tr == NO_TRACE && leg.rejects == 1 && leg.code == if enabled then 404 else 503
      ensures StatementsWent(tr.All()) ==> Gone(id) || (InState(rows, id, Bridged) && leg.accepted)
      ensures tr.ring == RingPlan(tr.row) ==> HasTerms(rows, tr.row) && tr.row.conference == conference
      ensures WonBy(tr.wait, rows, id)
      ensures leg.answers + leg.rejects <= 1 && leg.answers == One(Asked(tr.All(), AskAnswer))
      ensures leg.answers + leg.rejects == 1 || leg.closed || tr.wait.NeverClaimed()
      ensures OneEnd(tr.wait.leave, id, Failure(BRIDGE_RESTARTED)) ==> leg.base
      ensures Takes(conference) && tr.ring != RingPlan(tr.row) ==>
        leg.rejects == 1 && leg.code == RefusalStatus(tr.asks)
      ensures tr.asks == LegPlan(tr.recipient) ==> Unwaited(id)
    {
      hide On, View, Log, DialOf, PortalIdOf, PortalId.IsLineRoomID, Leg.Inv, Follows, StatementsWent, Asked,
           Idle, WaitTrace.Fits, WaitTrace.All, LooksUp, Begins, InState, HasTerms, LegRow, WonBy, RingPlan;
      tr := NO_TRACE;
      NothingAsked(AskAnswer);
      NothingRung();
      var portalId := PortalIdOf(conferencePrefix, conference);
      if !enabled || portalId.None? || PortalId.IsLineRoomID(portalId.value) {
        leg.Reject(lt, if enabled then 404 else 503);
        NoRow(id);
        return;
      }
      var ok, owner;
      ghost var asks;
      ok, owner, asks := AskLeg(from, t, id, leg, lt);
      tr := NO_TRACE.(recipient := owner, asks := asks);
      if ok {
        ghost var row, look, ring, tail, wait;
        row, look, ring, tail, wait := RingAndWait(from, t, id, leg, lt, portalId.value, conference, owner);
        tr := InboundTrace(owner, row, asks, MakePlan(id), look, ring, tail, wait, DropPlan(id));
      } else {
        NoRow(id);
      }
      SetupAsks(tr, id, conference, AskAnswer);
    }

    lemma NothingRung()
      ensures [] != RingPlan(NO_ROW) && forall t, id :: WonBy(NO_WAIT, t, id)
    {
    }

    /** Who is on a call that was won is who joined. */
    static predicate WonBy(tr: WaitTrace, t: Table, id: CallId) {
      tr.taken.Some? && tr.taken.value.answer.claim.DidClaim? && tr.taken.value.answer.claim.won ==>
        AnsweredFor(t, id, tr.taken.value.joiner)
    }

    /** The row of the call is the one that was inserted, whatever has become of it. */
    lemma RowStays(from: Sys, t: Tid, r: CallRow)
      requires On(from) && DidInsert(r, true) in Log(t)
      ensures HasTerms(rows, r)
    {
      hide CallInv, MemInv, Reaches, Grown;
    }

    lemma NoRow(id: CallId)
      requires id !in rows
      ensures Gone(id)
    {
    }

    /** 180 Ringing, and who the call is for. */
    method AskLeg(ghost from: Sys, t: Tid, id: CallId, leg: Leg.InboundCall, lt: Tid)
      returns (ok: bool, recipient: User, ghost asks: seq<Event>)
      requires On(from) && Idle(t) && id !in rows
      requires leg.Valid() && lt !in leg.inside && leg.answers == 0 && leg.rejects == 0
      modifies this, leg
      ensures On(from) && Idle(t) && id !in rows && leg.Valid() && lt !in leg.inside && leg.answers == 0
      ensures Log(t) == old(Log(t)) + asks && Follows(LegPlan(recipient), asks) && (ok <==> asks == LegPlan(recipient))
      ensures leg.rejects == if ok then 0 else 1
      ensures !ok ==> leg.code == RefusalStatus(asks)
    {
      hide On, View, Log, DialOf, Leg.Inv, Follows, Gone, Idle, OwnKept, Leg.Onward;
      var status;
      ok, recipient, status, asks := RingBack(from, t, id);
      leg.Others(lt);
      if !ok {
        leg.Reject(lt, status);
      }
    }

    /** The requests for it. A recipient may be refused, unknown or not to be had. */
    method RingBack(ghost from: Sys, t: Tid, id: CallId)
      returns (ok: bool, recipient: User, status: nat, ghost asks: seq<Event>)
      requires On(from) && Idle(t) && id !in rows
      modifies this
      ensures On(from) && Idle(t) && id !in rows && Log(t) == old(Log(t)) + asks
      ensures Follows(LegPlan(recipient), asks) && (ok <==> asks == LegPlan(recipient))
      ensures status == RefusalStatus(asks)
    {
      hide On, View, Log, DialOf, Follows, Gone, Idle, OwnKept;
      recipient, status := NOBODY, 500;
      ok := Ask(from, t, AskRinging);
      asks := [DidRequest(AskRinging, ok)];
      TwoSteps(DidRequest(AskRinging, true), DidRecipient(Reachable(recipient)), asks[0], asks[0]);
      if ok {
        BeforeRow(from, t, id);
        var answer := AskRecipient(from, t);
        asks := [DidRequest(AskRinging, true), DidRecipient(answer)];
        match answer {
          case Reachable(user) => recipient := user;
          case Refused => ok, status := false, 403;
          case Unknown => ok, status := false, 404;
          case Unavailable => ok, status := false, 500;
        }
        TwoSteps(DidRequest(AskRinging, true), DidRecipient(Reachable(recipient)), asks[1], asks[1]);
        BeforeRow(from, t, id);
      }
    }

    method AskRecipient(ghost from: Sys, ghost t: Tid) returns (answer: Recipient)
      requires On(from)
      modifies this`did
      ensures On(from) && Log(t) == old(Log(t)) + [DidRecipient(answer)]
    {
      hide On, Log;
      answer := *;
      Note(from, t, DidRecipient(answer));
    }

    /** The part of HandleInboundCall for which the call has channels. */
    method RingAndWait(ghost from: Sys, t: Tid, id: CallId, leg: Leg.InboundCall, lt: Tid, portalId: string,
                       conference: string, owner: User)
      returns (ghost row: CallRow, ghost look: seq<Event>, ghost ring: seq<Event>, ghost tail: seq<Event>,
               ghost wait: WaitTrace)
      requires On(from) && Idle(t) && id !in rows
      requires leg.Valid() && lt !in leg.inside && leg.answers == 0 && leg.rejects == 0
      modifies this, leg
      ensures On(from) && Idle(t) && leg.Valid()
              && Log(t) == old(Log(t)) + (MakePlan(id) + (look + ring + tail) + wait.All() + DropPlan(id))
      ensures LooksUp(look) && if Clear(look) then Begins(ring, tail, row) else ring == [] && tail == []
      ensures if ring == RingPlan(row) then wait.Fits(id) && Settles(id, wait, leg)
              else wait == NO_WAIT && leg.answers == 0 && leg.rejects == 1 && leg.code == 500
      ensures ring != RingPlan(row) && StatementsWent(ring + tail) ==> Gone(id)
      ensures Unwaited(id) && LegRow(row, id, portalId, conference, owner)
      ensures row.conference == conference && WonBy(wait, rows, id) && (ring == RingPlan(row) ==> HasTerms(rows, row))
    {
      hide On, View, Log, DialOf, Leg.Inv, Follows, Gone, Idle, WaitTrace.Fits, WaitTrace.All, LooksUp, Begins,
           SettlesIn, StatementsWent, RingPlan, Clear, IsNewest, ActiveByConference, HasTerms, LegRow, LatestLeg,
           WonBy;
      NothingAsked(AskAnswer);
      NothingRung();
      MakeChannels(from, t, id);
      wait := NO_WAIT;
      var call;
      call, row, look, ring, tail := BeginInboundCall(from, t, id, portalId, conference, owner);
      ItsConference(row, id, portalId, conference, owner);
      if call == null {
        leg.Others(lt);
        leg.Reject(lt, 500);
      } else {
        wait := WaitForMatrix(from, t, call, leg, lt);
      }
      ghost var before := rows;
      ForgetChannels(from, t, id);
      if call != null {
        StaySettled(before, id, wait, leg);
        SettledWon(id, wait, leg);
        RingInserts(row);
        RowStays(from, t, row);
      }
    }

    lemma ItsConference(row: CallRow, id: CallId, portalId: string, conference: string, owner: User)
      requires LegRow(row, id, portalId, conference, owner)
      ensures row.callId == id && row.conference == conference
    {
    }

    lemma SettledWon(id: CallId, tr: WaitTrace, leg: Leg.InboundCall)
      requires Settles(id, tr, leg)
      ensures WonBy(tr, rows, id)
    {
    }

    lemma RingInserts(row: CallRow)
      ensures DidInsert(row, true) in RingPlan(row)
    {
      assert RingPlan(row)[2] == DidInsert(row, true);
    }

    /** The others may end the call, but not answer it. */
    lemma StaySettled(before: Table, id: CallId, tr: WaitTrace, leg: Leg.InboundCall)
      requires SettlesIn(before, id, tr, leg) && MyRow(before, rows, id)
      ensures Settles(id, tr, leg)
    {
      hide StatementsWent, Asked, WaitTrace.All;
    }

    // ---- dial

    /** The dial thread's Invite: the control leg, if the callee answered it. */
    method Invite(ghost from: Sys, ghost t: Tid, ghost id: CallId) returns (ok: bool)
      requires On(from) && DialOf(id) == Some(Inviting)
      modifies this`dials, this`invited, this`did
      ensures On(from) && DialOf(id) == Some(if ok then Invited else Over)
      ensures Log(t) == old(Log(t)) + [DidRequest(AskInvite, ok)]
    {
      hide Inv, Reaches, Grown, Effect, Logged, Enabled, OwnStep;
      ghost var s := View();
      ok := *;
      dials := dials[id := if ok then Invited else Over];
      if ok {
        invited := invited + {id};
      }
      OwnInvite(s, t, id, ok);
      TookNote(from, s, AInvite(t, id, ok), t, id);
    }

    method KeepLeg(ghost from: Sys, ghost t: Tid, id: CallId)
      requires On(from) && DialOf(id) == Some(Invited)
      modifies this`dials, this`legs
      ensures On(from) && DialOf(id) == Some(Kept) && legs == old(legs) + {id}
    {
      hide Inv, Reaches, Grown;
      ghost var s := View();
      dials := dials[id := Kept];
      legs := legs + {id};
      OwnDial(s, AKeepLeg(id), t);
      hide Next, Enabled, OwnStep;
      Took(from, s, AKeepLeg(id), t, id);
    }

    static lemma TransitionOnly(s: Sys, id: CallId, now: int, fault: Fault)
      ensures var u := CallProtocol.Transition(s, id, now, fault);
              && u.rows == (if fault == FailsUndone then s.rows else TransitionRow(s.rows, id, Ringing, Bridged, now))
              && u == s.(rows := u.rows, dials := u.dials, owners := u.owners, faulted := u.faulted,
                         backedOut := u.backedOut)
    {
      hide TransitionRow, InState;
    }

    /** The UPDATE of Transition. */
    method RunTransition(id: CallId, now: int, fault: Fault)
      modifies this`rows, this`dials, this`owners, this`faulted, this`backedOut
      ensures View() == CallProtocol.Transition(old(View()), id, now, fault)
    {
      hide TransitionRow, CallProtocol.Transition;
      ghost var u := CallProtocol.Transition(View(), id, now, fault);
      TransitionOnly(View(), id, now, fault);
      if fault != FailsUndone {
        rows := TransitionRow(rows, id, Ringing, Bridged, now);
      }
      dials, owners, faulted, backedOut := u.dials, u.owners, u.faulted, u.backedOut;
    }

    lemma Transitioned(s: Sys, id: CallId, now: int, fault: Fault)
      requires View() == CallProtocol.Transition(s, id, now, fault)
      requires id in s.rows && s.rows[id].state != Bridged && id !in s.owners
      ensures id in rows && SameLeg(s.rows[id], rows[id])
      ensures DialOf(id) ==
        Some(if fault != NoFault then Over else if InState(s.rows, id, Ringing) then Owns else Losing)
      ensures id in owners <==> fault == NoFault && InState(s.rows, id, Ringing)
      ensures fault == NoFault && !InState(s.rows, id, Ringing) ==> Gone(id)
    {
    }

    /** The transition to bridged, which makes this thread the owner of the call if it wins. */
    method Transition(ghost from: Sys, ghost t: Tid, call: Call) returns (mine: bool, ok: bool)
      requires On(from) && DialOf(call.callId) == Some(Kept) && Agrees(call) && Unclaimed(call.callId)
      modifies this`rows, this`dials, this`owners, this`faulted, this`backedOut, this`did, call`state, call`updatedAt
      ensures On(from) && Agrees(call) && Log(t) == old(Log(t)) + [DidTransition(call.callId, mine, ok)]
      ensures DialOf(call.callId) == Some(if !ok then Over else if mine then Owns else Losing)
      ensures mine ==> ok && call.callId in owners && call.state == Bridged && call.updatedAt == clock
      ensures ok && !mine ==> Gone(call.callId)
    {
      hide On, Since, Effect, Logged, Enabled, OwnStep, CallProtocol.Transition;
      ghost var s := View();
      OnSince(from);
      var now := clock;
      var fault: Fault := *;
      var id := call.callId;
      ok := fault == NoFault;
      mine := ok && InState(rows, id, Ringing);
      OwnTransition(s, t, id, now, fault);
      RunTransition(id, now, fault);
      Transitioned(s, id, now, fault);
      TookNote(from, s, ATransition(t, id, now, fault), t, id);
      if mine {
        call.state, call.updatedAt := Bridged, now;
      }
    }

    /** takeLeg and Hangup of the thread that lost its call while the phone rang. */
    method HangUpLostLeg(ghost from: Sys, t: Tid, id: CallId)
      requires On(from) && Idle(t) && DialOf(id) == Some(Losing) && Gone(id)
      modifies this
      ensures On(from) && Idle(t) && DialOf(id) == Some(Over) && Gone(id) && Log(t) == old(Log(t))
    {
      hide On, View, Log, DialOf, Idle, Gone, MyRow;
      var has := TakeLostLeg(from, t, id);
      if has {
        Others(from, t, id);
        HangUpTaken(from, t, id);
      }
    }

    method TakeLostLeg(ghost from: Sys, ghost t: Tid, id: CallId) returns (has: bool)
      requires On(from) && DialOf(id) == Some(Losing)
      modifies this`dials, this`legs
      ensures On(from) && DialOf(id) == Some(if has then HangingUp else Over)
      ensures has == (id in old(legs)) && legs == old(legs) - {id}
    {
      hide Inv, Reaches, Grown, Next, OwnStep, Effect;
      ghost var s := View();
      has := id in legs;
      legs := legs - {id};
      dials := dials[id := if has then HangingUp else Over];
      assert !has ==> legs == s.legs;
      OwnDial(s, ADialTake(id), t);
      hide Enabled;
      Took(from, s, ADialTake(id), t, id);
    }

    method HangUpTaken(ghost from: Sys, ghost t: Tid, ghost id: CallId)
      requires On(from) && DialOf(id) == Some(HangingUp)
      modifies this`dials, this`hung
      ensures On(from) && DialOf(id) == Some(Over) && hung == old(hung) + [id]
    {
      hide Inv, Reaches, Grown, Next, OwnStep, Effect;
      ghost var s := View();
      hung := hung + [id];
      dials := dials[id := Over];
      OwnDial(s, ADialHang(id), t);
      hide Enabled;
      Took(from, s, ADialHang(id), t, id);
    }

    method OwnerDone(ghost from: Sys, ghost t: Tid, ghost id: CallId)
      requires On(from) && DialOf(id) == Some(Owns)
      modifies this`dials
      ensures On(from) && DialOf(id) == Some(Over)
    {
      hide Inv, Reaches, Grown;
      ghost var s := View();
      dials := dials[id := Over];
      OwnDial(s, AOwnerDone(id), t);
      hide Next, Enabled, OwnStep;
      Took(from, s, AOwnerDone(id), t, id);
    }

    lemma DialsHaveRows(from: Sys, id: CallId)
      requires On(from) && id !in rows
      ensures DialOf(id) == None && id !in owners && Gone(id)
    {
    }

    predicate CanDial(portalId: string, room: Room, sipReady: bool) {
      enabled && !PortalId.IsLineRoomID(portalId) && room != "" && sipReady
    }

    /** The dial thread is through, or has not begun. */
    ghost predicate Undialled(id: CallId)
      reads this`dials
    {
      DialOf(id) == None || DialOf(id) == Some(Over)
    }

    /** The row of a dialled call: to which conversation, in whose room, and who placed it. */
    predicate DialledRow(r: CallRow, id: CallId, portalId: string, room: Room, owner: User, caller: User) {
      && r.callId == id && r.portalId == portalId && r.room == room && r.receiver == owner && r.matrixUser == caller
      && r.conference == ConferenceFor(conferencePrefix, portalId) && r.direction == Outbound && r.state == Ringing
      && r.lkRoom == lkRoomName(room) && r.lkParticipant == "" && r.createdAt == r.updatedAt
    }

    /** Once the row of the dialled call is in the table it stays what it is, and while the call is in progress it is
        found by its room. */
    ghost predicate FoundByRoom(r: CallRow)
      reads this`rows
    {
      && HasTerms(rows, r) && (Active(rows, r.callId) ==> r.callId in ActiveByRoom(rows, r.room))
    }

    /** Places a call. It returns the call only if it won it and its media is up; otherwise, with no statement
        failed, its row is not in progress. */
    method Dial(ghost from: Sys, t: Tid, id: CallId, portalId: string, room: Room, owner: User, caller: User,
                sipReady: bool, origin: DialOrigin)
      returns (call: Call?, ghost tr: DialTrace)
      requires On(from) && Idle(t) && id !in rows
      modifies this
      ensures On(from) && Idle(t) && Undialled(id) && Log(t) == old(Log(t)) + tr.All()
      ensures if CanDial(portalId, room, sipReady) then
                tr.Fits(origin) && DialledRow(tr.made, id, portalId, room, owner, caller)
              else tr == NO_DIAL
      ensures DidInsert(tr.made, true) in tr.row ==> FoundByRoom(tr.made)
      ensures call != null <==> tr.Placed()
      ensures call != null ==>
        SameTerms(tr.made, call.Row()) && call.matrixUser == caller && call.lkParticipant == tr.participant
        && id in owners
      ensures call == null && StatementsWent(tr.All()) ==> Gone(id)
    {
      hide On, View, Log, DialOf, Idle, PortalId.IsLineRoomID, ConferenceFor, Agrees, Unclaimed, Gone, DialTrace.FitsUp,
           StatementsWent, Follows, DialPlan, DialledRow, FoundByRoom, SameTerms;
      DialsHaveRows(from, id);
      tr := NO_DIAL;
      call := null;
      if !enabled || PortalId.IsLineRoomID(portalId) || room == "" || !sipReady {
        return;
      }
      ghost var row, ring, joined, up, tail;
      var c, ok;
      c, ok, row := InsertDialled(from, t, id, portalId, room, owner, caller);
      ghost var made := c.Row();
      tr := DialTrace(made, row, [], "", [], []);
      if ok {
        ok, ring, joined, up, tail := DialInserted(from, t, c, origin);
        tr := DialTrace(made, row, ring, joined, up, tail);
        call := if ok then c else null;
        WentJoin(row + up, tail);
        Assoc(row, up, tail);
        SameCall(c, made);
      } else {
        assert row + [] + [] == row;
      }
      if DidInsert(made, true) in row {
        assert Log(t) == old(Log(t)) + tr.All() && DidInsert(made, true) in tr.All();
        StaysFound(from, t, made);
      }
    }

    /** What the dial thread knows of its call is what it inserted. */
    lemma SameCall(c: Call, r: CallRow)
      requires c.callId == r.callId && c.portalId == r.portalId && c.room == r.room && c.receiver == r.receiver
      requires c.direction == r.direction && c.conference == r.conference && c.createdAt == r.createdAt
      ensures SameTerms(r, c.Row())
    {
    }

    lemma StaysFound(from: Sys, t: Tid, r: CallRow)
      requires On(from) && DidInsert(r, true) in Log(t)
      ensures FoundByRoom(r)
    {
      RowStays(from, t, r);
    }

    /** The dial command, which gives the call that is in progress in the room if there is one. */
    method DialCommand(ghost from: Sys, t: Tid, id: CallId, portalId: string, room: Room, owner: User, caller: User,
                       sipReady: bool)
      returns (existing: Option<CallRow>, call: Call?, ghost look: seq<Event>, ghost tr: DialTrace)
      requires On(from) && Idle(t) && id !in rows
      modifies this
      ensures On(from) && Idle(t) && Log(t) == old(Log(t)) + look + tr.All()
      ensures if enabled then LooksUp(look) else look == []
      ensures enabled && look[0].ok ==> LatestInRoom(old(rows), room, look[0].row)
      ensures existing == if |look| == 2 then look[0].row else None
      ensures if enabled && Clear(look) && CanDial(portalId, room, sipReady) then
                tr.Fits(Command) && DialledRow(tr.made, id, portalId, room, owner, caller)
              else tr == NO_DIAL
      ensures DidInsert(tr.made, true) in tr.row ==> FoundByRoom(tr.made)
      ensures call != null <==> tr.Placed()
      ensures call != null ==>
        SameTerms(tr.made, call.Row()) && call.matrixUser == caller && call.lkParticipant == tr.participant
        && id in owners
      ensures call == null && StatementsWent(look + tr.All()) ==> Gone(id)
    {
      hide On, View, Log, Idle, Gone, ActiveByRoom, EndsStale, IsNewest, StatementsWent, CanDial, DialTrace.Fits,
           LatestInRoom, DialledRow, FoundByRoom, SameTerms;
      NoRow(id);
      existing, call, look, tr := None, null, [], NO_DIAL;
      if !enabled {
        return;
      }
      FoundInRoom(room);
      ghost var before := rows;
      var ok;
      existing, ok, look := DiscardIfStale(from, t, id, ActiveByRoom(rows, room));
      if look[0].ok {
        RoomLookup(before, room, look[0].row);
      }
      if ok && existing.None? {
        Others(from, t, id);
        call, tr := Dial(from, t, id, portalId, room, owner, caller, sipReady, Command);
      } else {
        NoRow(id);
      }
      WentJoin(look, tr.All());
    }

    lemma FoundInRoom(room: Room)
      ensures ActiveByRoom(rows, room) <= rows.Keys
    {
    }

    /** The ghost, and the row of the call. */
    method InsertDialled(ghost from: Sys, t: Tid, id: CallId, portalId: string, room: Room, owner: User, caller: User)
      returns (call: Call, ok: bool, ghost row: seq<Event>)
      requires On(from) && Idle(t) && id !in rows && DialOf(id) == None && id !in owners
      modifies this
      ensures On(from) && Idle(t) && Log(t) == old(Log(t)) + row && Follows(RowPlan(call.Row()), row)
      ensures fresh(call) && DialledRow(call.Row(), id, portalId, room, owner, caller)
      ensures call.callId == id && call.matrixUser == caller && (ok <==> row == RowPlan(call.Row()))
      ensures if ok then Agrees(call) && Unclaimed(id) && DialOf(id) == Some(Inviting)
              else Undialled(id) && (StatementsWent(row) ==> Gone(id))
    {
      hide On, View, Log, DialOf, Follows, StatementsWent, Gone, Idle, MyRow, Agrees, Unclaimed, ConferenceFor;
      var lkIdentity: string := *;
      call := new Call(CallRow(id, portalId, room, owner, caller, Outbound, ConferenceFor(conferencePrefix, portalId),
                               lkRoomName(room), lkIdentity, "", Ringing, 0, 0));
      DialsHaveRows(from, id);
      ok := Ask(from, t, AskGhost);
      row := [DidRequest(AskGhost, ok)];
      TwoSteps(DidRequest(AskGhost, true), DidInsert(call.Row(), true), row[0], row[0]);
      if ok {
        Others(from, t, id);
        ok := InsertFresh(from, t, call);
        row := [DidRequest(AskGhost, true), DidInsert(call.Row(), ok)];
        TwoSteps(DidRequest(AskGhost, true), DidInsert(call.Row(), true), row[1], row[1]);
        OneWent(row[1]);
        WentJoin([row[0]], [row[1]]);
        assert row == [row[0]] + [row[1]];
      }
    }

    method InsertFresh(ghost from: Sys, t: Tid, call: Call) returns (ok: bool)
      requires On(from) && Idle(t) && call.callId !in rows && DialOf(call.callId) == None && call.callId !in owners
      requires call.state == Ringing && call.direction == Outbound && call.createdAt == 0
      modifies this, call`createdAt, call`updatedAt
      ensures call.createdAt == call.updatedAt
      ensures On(from) && Idle(t) && Log(t) == old(Log(t)) + [DidInsert(call.Row(), ok)]
      ensures if ok then Agrees(call) && Unclaimed(call.callId) && DialOf(call.callId) == Some(Inviting)
              else Undialled(call.callId)
    {
      hide On, View, Log, DialOf, Idle, Gone;
      ok := Insert(from, t, call);
      if ok {
        Meanwhile(from, t, call);
      }
    }

    /** dial once the row is in the table. */
    method DialInserted(ghost from: Sys, t: Tid, call: Call, origin: DialOrigin)
      returns (placed: bool, ghost ring: seq<Event>, ghost joined: string, ghost up: seq<Event>, ghost tail: seq<Event>)
      requires On(from) && Idle(t) && Agrees(call) && Unclaimed(call.callId) && DialOf(call.callId) == Some(Inviting)
      modifies this, call`state, call`updatedAt, call`lkParticipant
      ensures On(from) && Idle(t) && Undialled(call.callId) && Log(t) == old(Log(t)) + up + tail
      ensures DialTrace(old(call.Row()), RowPlan(old(call.Row())), ring, joined, up, tail).FitsUp(origin)
      ensures placed <==> up == DialPlan(call.callId, ring, joined)
      ensures placed ==> call.callId in owners && call.lkParticipant == joined
      ensures !placed && StatementsWent(tail) ==> Gone(call.callId)
    {
      hide On, View, Log, DialOf, Idle, Agrees, Unclaimed, Gone, Follows, StatementsWent, DialPlan, LostDial, ReasonFor;
      var id, outcome := call.callId, DialFailed(COULD_NOT_CONNECT);
      var ok := Ask(from, t, AskMembership);
      ring, joined, up, tail := [], "", [DidRequest(AskMembership, ok)], [];
      if ok {
        Meanwhile(from, t, call);
        outcome, ring, joined, up, tail := RingAndPlace(from, t, call, origin);
        assert up == [DidRequest(AskMembership, true)] + up[1..];
        assert Log(t) == old(Log(t)) + up + tail;
      } else {
        NoMembership(id, "");
        AbandonDial(from, t, id);
      }
      if outcome.DialFailed? {
        ghost var rest := tail;
        ghost var end := FailDial(from, t, call, outcome.reason);
        tail := rest + end;
        WentJoin(rest, end);
        Assoc(old(Log(t)) + up, rest, end);
        assert FailsAt(up, tail, id);
      }
      placed := outcome == DialPlaced;
    }

    /** The ring notification for who asked from outside, and then the call. */
    method RingAndPlace(ghost from: Sys, t: Tid, call: Call, origin: DialOrigin)
      returns (outcome: DialOutcome, ghost ring: seq<Event>, ghost joined: string, ghost up: seq<Event>,
               ghost rest: seq<Event>)
      requires On(from) && Idle(t) && Agrees(call) && Unclaimed(call.callId) && DialOf(call.callId) == Some(Inviting)
      modifies this, call`state, call`updatedAt, call`lkParticipant
      ensures On(from) && Idle(t) && DialOf(call.callId) == Some(Over) && Rings(ring, call.callId, origin) && |up| > 1
      ensures [DidRequest(AskMembership, true)] <= up && Log(t) == old(Log(t)) + up[1..] + rest
      ensures rest == if up[|up| - 1] == DidRequest(AskInvite, false) then [DidDrop(EndedChannel, call.callId)] else []
      ensures Follows(DialPlan(call.callId, ring, joined), up)
      ensures outcome == DialPlaced <==> up == DialPlan(call.callId, ring, joined)
      ensures outcome == DialPlaced ==> call.callId in owners && call.lkParticipant == joined
      ensures outcome == DialLost <==> LostDial(ring, up, call.callId)
      ensures (!outcome.DialFailed? ==> rest == []) && (outcome == DialLost ==> Gone(call.callId))
      ensures outcome.DialFailed? ==> outcome.reason == ReasonFor(up)
    {
      hide On, View, Log, DialOf, Idle, Agrees, Unclaimed, Gone, Follows, PlacePlan, DialPlan, LostDial, ReasonFor,
           Notified;
      ring := [];
      if origin == Command {
        ring := Notify(from, t, call);
      }
      ghost var more;
      outcome, joined, more, rest := PlaceCall(from, t, call);
      up := [DidRequest(AskMembership, true)] + (ring + more);
      DialSteps(call.callId, ring, joined, more);
      Assoc(old(Log(t)), ring, more);
    }

    /** A dial that ends before its Invite. */
    method AbandonDial(ghost from: Sys, ghost t: Tid, ghost id: CallId)
      requires On(from) && DialOf(id) == Some(Inviting)
      modifies this`dials
      ensures On(from) && DialOf(id) == Some(Over)
    {
      hide Inv, Reaches, Grown;
      ghost var s := View();
      dials := dials[id := Over];
      OwnDial(s, AAbandon(id), t);
      hide Next, Enabled, OwnStep;
      Took(from, s, AAbandon(id), t, id);
    }

    method FailDial(ghost from: Sys, t: Tid, call: Call, ghost reason: string) returns (ghost tail: seq<Event>)
      requires On(from) && Idle(t)
      modifies this, call`state, call`updatedAt
      ensures On(from) && Idle(t) && DialOf(call.callId) == old(DialOf(call.callId)) && Log(t) == old(Log(t)) + tail
      ensures OneEnd(tail, call.callId, Failure(reason)) && (StatementsWent(tail) ==> Gone(call.callId))
    {
      hide On, View, Log, DialOf, Idle, Gone, MyRow;
      Others(from, t, call.callId);
      ghost var why := Failure(reason);
      var mine, ok := EndCallAs(from, t, call.callId, call, why);
      tail := [DidEnd(call.callId, why, mine, ok)];
      OneWent(tail[0]);
    }

    /** The dial thread from its INVITE, which the end of the call cancels, to the media. */
    method PlaceCall(ghost from: Sys, t: Tid, call: Call)
      returns (outcome: DialOutcome, ghost joined: string, ghost up: seq<Event>, ghost rest: seq<Event>)
      requires On(from) && Idle(t) && Agrees(call) && Unclaimed(call.callId) && DialOf(call.callId) == Some(Inviting)
      modifies this, call`state, call`updatedAt, call`lkParticipant
      ensures On(from) && Idle(t) && DialOf(call.callId) == Some(Over) && Log(t) == old(Log(t)) + up + rest
      ensures Follows(PlacePlan(call.callId, joined), up)
      ensures outcome == DialPlaced <==> up == PlacePlan(call.callId, joined)
      ensures up != [] && (outcome == DialPlaced ==> call.callId in owners && call.lkParticipant == joined)
      ensures outcome == DialLost <==> |up| == 4 && up[3] == DidTransition(call.callId, false, true)
      ensures rest == if up[|up| - 1] == DidRequest(AskInvite, false) then [DidDrop(EndedChannel, call.callId)] else []
      ensures (!outcome.DialFailed? ==> rest == []) && (outcome == DialLost ==> Gone(call.callId))
      ensures outcome.DialFailed? ==> outcome.reason == ReasonFor(up)
    {
      hide On, View, Log, DialOf, Idle, Agrees, Unclaimed, Gone, Follows, TakeUpPlan;
      var id := call.callId;
      MakeChannel(from, t, EndedChannel, id);
      Meanwhile(from, t, call);
      var ok := Invite(from, t, id);
      DropChannel(from, t, EndedChannel, id);
      ghost var made, dropped := DidMake(EndedChannel, id), DidDrop(EndedChannel, id);
      if ok {
        Meanwhile(from, t, call);
        ghost var more;
        outcome, joined, more := TakeUpCall(from, t, call);
        up, rest := InvitePlan(id) + more, [];
        FollowsOn(InvitePlan(id), TakeUpPlan(id, joined), more);
        NoInvite(id, joined);
        FollowsAsks(TakeUpPlan(id, joined), more, AskInvite);
        assert more[|more| - 1] in more;
        SameRest(InvitePlan(id), more, TakeUpPlan(id, joined));
      } else {
        joined, up, rest, outcome := "", [made] + [DidRequest(AskInvite, false)], [dropped], DialFailed(NO_ROUTE);
        FollowsStep([made], DidRequest(AskInvite, true), [dropped] + TakeUpPlan(id, joined),
                    DidRequest(AskInvite, false));
        assert [made] + [DidRequest(AskInvite, true)] + ([dropped] + TakeUpPlan(id, joined)) == PlacePlan(id, joined);
      }
    }

    lemma NoInvite(id: CallId, joined: string)
      ensures !Asked(TakeUpPlan(id, joined), AskInvite)
    {
    }

    /** The dial thread once the callee has answered. */
    method TakeUpCall(ghost from: Sys, t: Tid, call: Call)
      returns (outcome: DialOutcome, ghost joined: string, ghost up: seq<Event>)
      requires On(from) && Idle(t) && Agrees(call) && Unclaimed(call.callId) && DialOf(call.callId) == Some(Invited)
      modifies this, call`state, call`updatedAt, call`lkParticipant
      ensures On(from) && Idle(t) && DialOf(call.callId) == Some(Over) && Log(t) == old(Log(t)) + up
      ensures Follows(TakeUpPlan(call.callId, joined), up)
      ensures outcome == DialPlaced <==> up == TakeUpPlan(call.callId, joined)
      ensures up != [] && (outcome == DialPlaced ==> call.callId in owners && call.lkParticipant == joined)
      ensures outcome == DialLost <==> |up| == 1 && up[0] == DidTransition(call.callId, false, true)
      ensures outcome == DialLost ==> Gone(call.callId)
      ensures outcome.DialFailed? ==> outcome.reason == ReasonFor(up)
    {
      hide On, View, Log, DialOf, Idle, Agrees, Unclaimed, Gone, Follows, MediaPlan, TakeUpPlan, ReasonFor;
      var id := call.callId;
      KeepLeg(from, t, id);
      Meanwhile(from, t, call);
      var mine, ok := Transition(from, t, call);
      joined, up, outcome := "", [DidTransition(id, mine, ok)], DialFailed(COULD_NOT_CONNECT);
      if mine {
        ghost var more;
        outcome, joined, more := OwnCall(from, t, call);
        up := [DidTransition(id, true, true)] + more;
        TakeUpSteps(id, joined, more);
        return;
      }
      NotTakenUp(id, joined, ok);
      if ok {
        outcome := DialLost;
        Others(from, t, id);
        HangUpLostLeg(from, t, id);
      }
    }

    method OwnCall(ghost from: Sys, t: Tid, call: Call)
      returns (outcome: DialOutcome, ghost joined: string, ghost up: seq<Event>)
      requires On(from) && Idle(t) && Agrees(call) && call.callId in owners && call.state == Bridged
      requires DialOf(call.callId) == Some(Owns)
      modifies this, call`updatedAt, call`lkParticipant
      ensures On(from) && Idle(t) && DialOf(call.callId) == Some(Over) && call.callId in owners
      ensures Log(t) == old(Log(t)) + up && Follows(MediaPlan(call.callId, joined), up)
      ensures up != []
      ensures if up == MediaPlan(call.callId, joined) then outcome == DialPlaced && call.lkParticipant == joined
              else outcome == DialFailed(ReasonFor(up))
    {
      hide On, View, Log, DialOf, Idle, Agrees, Gone, Follows, MediaRecorded;
      Meanwhile(from, t, call);
      var ok, noTrunk;
      ok, noTrunk, joined, up := BridgeMedia(from, t, call);
      OwnerDone(from, t, call.callId);
      outcome := if ok then DialPlaced else DialFailed(MediaFailureReason(noTrunk));
    }
  }
}
