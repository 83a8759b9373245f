/** What holds in every state of every run of the call protocol. */
module CallRuns {
  import opened Results
  import opened CallTable
  import opened CallProtocol

  /** The states of a run and the step between each two. */
  ghost predicate Run(states: seq<Sys>, steps: seq<Step>) {
    && |states| == |steps| + 1 && states[0] == INIT
    && forall i :: 0 <= i < |steps| ==> Enabled(states[i], steps[i]) && states[i + 1] == Next(states[i], steps[i])
  }

  lemma {:induction false} RunKeeps(states: seq<Sys>, steps: seq<Step>, i: nat)
    requires Run(states, steps) && i < |states|
    ensures Inv(states[i])
  {
    hide Inv, Enabled, Next;
    if i == 0 {
      InitKeeps();
    } else {
      RunKeeps(states, steps, i - 1);
      StepKeeps(states[i - 1], steps[i - 1]);
    }
  }

  /** A row only ever moves ringing, bridged, ended, and an ended row never changes again. */
  lemma {:induction false} RowsMoveForward(states: seq<Sys>, steps: seq<Step>, i: nat, j: nat)
    requires Run(states, steps) && i <= j < |states|
    ensures Forward(states[i].rows, states[j].rows)
  {
    hide Inv, Enabled, Next, Forward;
    if i == j {
      ForwardSelf(states[i].rows);
    } else {
      RowsMoveForward(states, steps, i, j - 1);
      RunKeeps(states, steps, j - 1);
      StepForward(states[j - 1], steps[j - 1]);
      ForwardMore(states[i].rows, states[j - 1].rows, states[j].rows);
    }
  }

  // ---- The claim on a conference

  /** From its claim to its end an inbound leg has the conference to itself: while one is bridged, from state i
      to state j, no other inbound leg of the conference is bridged in any state between. */
  lemma ClaimsAreExclusive(states: seq<Sys>, steps: seq<Step>, i: nat, k: nat, j: nat, a: CallId, b: CallId)
    requires Run(states, steps) && i <= k <= j < |states|
    requires InState(states[i].rows, a, Bridged) && InState(states[j].rows, a, Bridged)
    requires states[i].rows[a].direction == Inbound
    requires b in states[k].rows && states[k].rows[b].direction == Inbound && b != a
    requires states[k].rows[b].conference == states[i].rows[a].conference
    ensures InState(states[k].rows, a, Bridged) && states[k].rows[b].state != Bridged
  {
    hide Run, RowInv, TearInv, BookInv, LegInv;
    RunKeeps(states, steps, k);
    RowsMoveForward(states, steps, i, k);
    RowsMoveForward(states, steps, k, j);
    assert InboundBridged(states[k], a, states[i].rows[a].conference);
    assert !InboundBridged(states[k], b, states[i].rows[a].conference);
  }

  /** The lookup of who answered the phone call elsewhere has one answer at most: the inbound leg of the conference
      that is bridged for a user, if it is recent enough. */
  lemma OneAnsweredElsewhere(states: seq<Sys>, steps: seq<Step>, i: nat, r: CallRow, within: int, a: CallId, b: CallId)
    requires Run(states, steps) && i < |states|
    requires a in AnsweredElsewhere(states[i].rows, r, within) && b in AnsweredElsewhere(states[i].rows, r, within)
    ensures a == b && a != r.callId && InboundBridged(states[i], a, r.conference)
  {
    hide Run, RowInv, TearInv, BookInv, LegInv;
    RunKeeps(states, steps, i);
    assert InboundBridged(states[i], a, r.conference) && InboundBridged(states[i], b, r.conference);
  }

  /** Two legs were inserted for one conference, each by the thread that handles it. */
  ghost predicate TwoLegs(s: Sys, t: Tid, r: CallRow, u: Tid, q: CallRow) {
    && DidInsert(r, true) in Did(s, t) && DidInsert(q, true) in Did(s, u) && r.callId != q.callId
    && r.direction == Inbound && q.direction == Inbound && r.conference == q.conference
  }

  /** Of the legs that were handled with one conference, no two are bridged. */
  lemma OneLegOfConference(states: seq<Sys>, steps: seq<Step>, i: nat, t: Tid, r: CallRow, u: Tid, q: CallRow)
    requires Run(states, steps) && i < |states| && TwoLegs(states[i], t, r, u, q)
    ensures !(InState(states[i].rows, r.callId, Bridged) && InState(states[i].rows, q.callId, Bridged))
  {
    hide Run, RowInv, TearInv, BookInv, LegInv, MemInv;
    RunKeeps(states, steps, i);
    var s := states[i];
    assert HasTerms(s.rows, r) && HasTerms(s.rows, q);
    assert InState(s.rows, r.callId, Bridged) ==> InboundBridged(s, r.callId, r.conference);
    assert InState(s.rows, q.callId, Bridged) ==> InboundBridged(s, q.callId, r.conference);
  }

  /** While one of them is bridged, the claim of another is lost. */
  lemma OtherLegLoses(states: seq<Sys>, steps: seq<Step>, j: nat, t: Tid, r: CallRow, u: Tid, q: CallRow)
    requires Run(states, steps) && j < |steps| && j < |states| && TwoLegs(states[j], t, r, u, q)
    requires InState(states[j].rows, r.callId, Bridged)
    requires steps[j].ACommitClaim? && Enabled(states[j], steps[j]) && states[j].mu.value.id == q.callId
    ensures Logged(states[j], steps[j]).DidClaim? && !Logged(states[j], steps[j]).won
  {
    hide Run, RowInv, TearInv, BookInv, LegInv, MemInv;
    RunKeeps(states, steps, j);
    var s := states[j];
    assert HasTerms(s.rows, r) && HasTerms(s.rows, q);
    assert InboundBridged(s, r.callId, r.conference);
  }

  /** Whoever a thread has claimed a call for, and won it, is the user on it from then on. */
  lemma WinnerIsRecorded(states: seq<Sys>, steps: seq<Step>, i: nat, t: Tid, id: CallId, user: User)
    requires Run(states, steps) && i < |states| && DidClaim(id, user, true, true) in Did(states[i], t)
    ensures AnsweredFor(states[i].rows, id, user)
  {
    hide Run, CallInv, MemInv;
    RunKeeps(states, steps, i);
  }

  // ---- The books

  /** The finished-calls counter of a direction. */
  function Finished(t: Table, counted: seq<CallId>, d: Direction): nat {
    if counted == [] then 0
    else
      var n := |counted| - 1;
      Finished(t, counted[..n], d) + One(counted[n] in t && t[counted[n]].direction == d)
  }

  function Of(t: Table, ids: set<CallId>, d: Direction): set<CallId> {
    set id | id in ids && id in t && t[id].direction == d
  }

  function Elements(ids: seq<CallId>): set<CallId> {
    set id | id in ids
  }

  lemma {:induction false} FinishedOnce(t: Table, counted: seq<CallId>, d: Direction)
    requires forall id :: multiset(counted)[id] <= 1
    ensures Finished(t, counted, d) == |Of(t, Elements(counted), d)|
  {
    if counted != [] {
      var n := |counted| - 1;
      var front, last := counted[..n], counted[n];
      assert counted == front + [last];
      assert multiset(counted) == multiset(front) + multiset{last};
      assert last !in front by {
        assert multiset(counted)[last] == multiset(front)[last] + 1;
        InOnce(front, last);
      }
      forall id ensures multiset(front)[id] <= 1 {
        assert multiset(front)[id] <= multiset(counted)[id];
      }
      FinishedOnce(t, front, d);
      var a, b := Of(t, Elements(front), d), Of(t, Elements(counted), d);
      if last in t && t[last].direction == d {
        assert b == a + {last};
      } else {
        assert b == a;
      }
    } else {
      assert Of(t, Elements(counted), d) == {};
    }
  }

  ghost function PendingCalls(s: Sys): set<CallId> {
    set id | id in s.rows && Pending(s, id)
  }

  lemma InOnce(q: seq<CallId>, id: CallId)
    ensures id in q <==> multiset(q)[id] > 0
  {
  }

  /** The places an ended row can be in do not overlap. */
  lemma Places(s: Sys)
    requires BookInv(s)
    ensures var counted := Elements(s.counted);
            && counted !! PendingCalls(s) && counted !! s.lost && counted !! s.cleared
            && PendingCalls(s) !! s.lost && PendingCalls(s) !! s.cleared && s.lost !! s.cleared
            && s.rows.Keys == AllActive(s.rows) + counted + PendingCalls(s) + s.lost + s.cleared
            && AllActive(s.rows) !! (counted + PendingCalls(s) + s.lost + s.cleared)
    ensures forall id :: multiset(s.counted)[id] <= 1
  {
    hide Pending;
    forall id ensures
      && One(id in s.counted) + One(id in PendingCalls(s)) + One(id in s.lost) + One(id in s.cleared)
         == One(InState(s.rows, id, Ended))
      && multiset(s.counted)[id] <= 1
      && (InState(s.rows, id, Ended) <==> id in s.rows && id !in AllActive(s.rows))
    {
      assert Booked(s, id);
      InOnce(s.counted, id);
    }
    hide Booked, InState, AllActive, PendingCalls;
    BookSets(s.rows.Keys, AllActive(s.rows), Elements(s.counted), PendingCalls(s), s.lost, s.cleared);
  }

  lemma BookSets(all: set<CallId>, active: set<CallId>, a: set<CallId>, b: set<CallId>, c: set<CallId>, d: set<CallId>)
    requires active <= all
    requires forall id :: One(id in a) + One(id in b) + One(id in c) + One(id in d) == One(id in all && id !in active)
    ensures a !! b && a !! c && a !! d && b !! c && b !! d && c !! d
    ensures all == active + a + b + c + d && active !! (a + b + c + d)
  {
  }

  lemma OfJoin(t: Table, a: set<CallId>, b: set<CallId>, d: Direction)
    requires a !! b
    ensures |Of(t, a + b, d)| == |Of(t, a, d)| + |Of(t, b, d)|
  {
    assert Of(t, a + b, d) == Of(t, a, d) + Of(t, b, d);
    assert Of(t, a, d) !! Of(t, b, d);
  }

  /** Every call is finished once: per direction, the rows inserted are those still active, those the metric has
      counted, those it is about to, those whose end was never heard of and those the startup cleared. */
  lemma CallsAreConserved(states: seq<Sys>, steps: seq<Step>, i: nat, d: Direction)
    requires Run(states, steps) && i < |states|
    ensures var s := states[i];
            |Of(s.rows, s.rows.Keys, d)| == |Of(s.rows, AllActive(s.rows), d)| + Finished(s.rows, s.counted, d)
              + |Of(s.rows, PendingCalls(s), d)| + |Of(s.rows, s.lost, d)| + |Of(s.rows, s.cleared, d)|
  {
    hide Run, RowInv, ClaimInv, TearInv, LegInv;
    RunKeeps(states, steps, i);
    var s := states[i];
    Places(s);
    hide BookInv, PendingCalls, AllActive, Of;
    var counted := Elements(s.counted);
    FinishedOnce(s.rows, s.counted, d);
    var a := AllActive(s.rows);
    OfJoin(s.rows, a + counted + PendingCalls(s) + s.lost, s.cleared, d);
    OfJoin(s.rows, a + counted + PendingCalls(s), s.lost, d);
    OfJoin(s.rows, a + counted, PendingCalls(s), d);
    OfJoin(s.rows, a, counted, d);
  }

  /** With no teardown under way and no statement's answer lost: inserted = active + finished + cleared. */
  lemma CallsAtRest(states: seq<Sys>, steps: seq<Step>, i: nat, d: Direction)
    requires Run(states, steps) && i < |states| && states[i].tears == map[] && states[i].lost == {}
    ensures var s := states[i];
            |Of(s.rows, s.rows.Keys, d)| == |Of(s.rows, AllActive(s.rows), d)| + Finished(s.rows, s.counted, d)
                                            + |Of(s.rows, s.cleared, d)|
  {
    CallsAreConserved(states, steps, i, d);
    assert PendingCalls(states[i]) == {};
    assert Of(states[i].rows, {}, d) == {};
  }

  /** The teardown of a call runs once: no call is counted twice, and no two threads tear down one call. */
  lemma TeardownOnce(states: seq<Sys>, steps: seq<Step>, i: nat)
    requires Run(states, steps) && i < |states|
    ensures var s := states[i];
            && (forall id :: multiset(s.counted)[id] <= 1)
            && (forall t, u :: t in s.tears && u in s.tears && s.tears[t].id == s.tears[u].id ==> t == u)
            && (forall t :: t in s.tears && s.tears[t].stage == Counting ==> s.tears[t].id !in s.counted)
  {
    hide Run, RowInv, ClaimInv, LegInv;
    RunKeeps(states, steps, i);
    var s := states[i];
    forall id ensures multiset(s.counted)[id] <= 1 {
      assert Booked(s, id);
    }
    forall t | t in s.tears && s.tears[t].stage == Counting ensures s.tears[t].id !in s.counted {
      assert Booked(s, s.tears[t].id) && Pending(s, s.tears[t].id);
    }
  }

  // ---- Participants

  /** Nobody reads a participant as seen of which no thread was told, by LiveKit or by livekit-sip, that it is there. */
  lemma SeenWasReported(states: seq<Sys>, steps: seq<Step>, i: nat, t: Tid, id: CallId)
    requires Run(states, steps) && i < |states| && DidReadSeen(id, true) in Did(states[i], t)
    ensures Told(states[i].did, id)
  {
    hide Run, CallInv, Signals;
    RunKeeps(states, steps, i);
  }

  // ---- Control legs

  /** The thread that dialled the call and the one that ended it are through with it. */
  ghost predicate ThroughWith(s: Sys, id: CallId) {
    DialAt(s, id, Over) && InState(s.rows, id, Ended) && forall t :: t in s.tears ==> s.tears[t].id != id
  }

  /** No control leg is hung up twice. */
  lemma LegHungAtMostOnce(states: seq<Sys>, steps: seq<Step>, i: nat, id: CallId)
    requires Run(states, steps) && i < |states|
    ensures multiset(states[i].hung)[id] <= One(id in states[i].invited)
  {
    hide Run, RowInv, ClaimInv, TearInv, BookInv;
    RunKeeps(states, steps, i);
    assert GoodLeg(states[i], id);
  }

  /** The two ways a leg is left behind: the statement that records the callee's answer returned an error after the
      teardown had looked for the leg, or the statement that ended the call returned an error although it took
      effect, so that nobody tears the call down, and the dial thread did not find it ended either. */
  ghost predicate LeftBehind(s: Sys, id: CallId) {
    (id in s.faulted && id in s.early) || (id in s.lost && id !in s.backedOut)
  }

  /** The control leg of a call that has ended is hung up once both threads are through with it, in any order of
      their steps, except in exactly those two cases. */
  lemma LegHungOnce(states: seq<Sys>, steps: seq<Step>, i: nat, id: CallId)
    requires Run(states, steps) && i < |states| && ThroughWith(states[i], id) && id in states[i].invited
    ensures multiset(states[i].hung)[id] == if LeftBehind(states[i], id) then 0 else 1
  {
    hide Run, RowInv, ClaimInv, BookInv;
    RunKeeps(states, steps, i);
    var s := states[i];
    assert GoodLeg(s, id);
    assert forall st :: !Tearing(s, id, st);
  }

  ghost predicate Reachable(s: Sys) {
    exists states, steps :: Run(states, steps) && states[|steps|] == s
  }

  lemma ReachableMore(s: Sys, a: Step)
    requires Reachable(s) && Enabled(s, a)
    ensures Reachable(Next(s, a))
  {
    hide Enabled, Next;
    var states, steps :| Run(states, steps) && states[|steps|] == s;
    var u := Next(s, a);
    var more, all := states + [u], steps + [a];
    forall i | 0 <= i < |all| ensures Enabled(more[i], all[i]) && more[i + 1] == Next(more[i], all[i]) {
      assert i < |steps| ==> all[i] == steps[i] && more[i] == states[i] && more[i + 1] == states[i + 1];
    }
    assert Run(more, all) && more[|all|] == u;
  }

  /** The first way: the Matrix side hangs up while the phone rings, and the database fails when the callee's answer
      is recorded. */
  lemma LegMayLeak(r: CallRow) returns (s: Sys)
    requires r.state == Ringing && r.direction == Outbound
    ensures Reachable(s) && ThroughWith(s, r.callId) && r.callId in s.invited && multiset(s.hung)[r.callId] == 0
    ensures r.callId !in s.lost
  {
    s := Answered(r);
    s := HungUpWhileRinging(s, r.callId);
  }

  lemma Answered(r: CallRow) returns (s: Sys)
    requires r.state == Ringing && r.direction == Outbound
    ensures Reachable(s) && DialAt(s, r.callId, Invited) && r.callId in s.invited && InState(s.rows, r.callId, Ringing)
    ensures s.tears == map[] && s.hung == [] && s.legs == {} && s.lost == {} && s.faulted == {}
  {
    assert Run([INIT], []);
    ReachableMore(INIT, ATick(r.updatedAt));
    s := Next(INIT, ATick(r.updatedAt));
    ReachableMore(s, AInsert(1, r, NoFault));
    s := Next(s, AInsert(1, r, NoFault));
    ReachableMore(s, AInvite(1, r.callId, true));
    s := Next(s, AInvite(1, r.callId, true));
  }

  lemma HungUpWhileRinging(s: Sys, id: CallId) returns (u: Sys)
    requires Reachable(s) && DialAt(s, id, Invited) && id in s.invited && InState(s.rows, id, Ringing)
    requires s.tears == map[] && s.hung == [] && s.legs == {} && s.lost == {}
    ensures Reachable(u) && ThroughWith(u, id) && id in u.invited && u.hung == [] && u.lost == {}
  {
    hide Run, Reachable;
    ReachableMore(s, AEnd(0, id, Plain, s.clock, NoFault));
    u := Next(s, AEnd(0, id, Plain, s.clock, NoFault));
    u := TornDown(u, id);
  }

  lemma TornDown(s: Sys, id: CallId) returns (u: Sys)
    requires Reachable(s) && DialAt(s, id, Invited) && id in s.invited && InState(s.rows, id, Ended)
    requires s.tears == map[0 := Tear(id, Counting)] && s.hung == [] && s.legs == {} && s.lost == {}
    ensures Reachable(u) && ThroughWith(u, id) && id in u.invited && u.hung == [] && u.lost == {}
  {
    hide Run, Reachable, InState;
    u := s;
    ReachableMore(u, ACount(0));
    u := CountCall(u, 0);
    ReachableMore(u, AForget(0));
    u := ForgetMark(u, 0);
    ReachableMore(u, ASignal(0));
    u := SignalEnded(u, 0);
    u := Retracted(u, id);
  }

  lemma Retracted(s: Sys, id: CallId) returns (u: Sys)
    requires Reachable(s) && DialAt(s, id, Invited) && id in s.invited && InState(s.rows, id, Ended)
    requires s.tears == map[0 := Tear(id, Retracting)] && s.hung == [] && s.legs == {} && s.lost == {}
    ensures Reachable(u) && ThroughWith(u, id) && id in u.invited && u.hung == [] && u.lost == {}
  {
    hide Run, Reachable, InState;
    u := s;
    ReachableMore(u, ARetract(0));
    u := Retract(u, 0);
    ReachableMore(u, ATake(0));
    u := TakeLeg(u, 0);
    u := TornOff(u, id);
  }

  lemma TornOff(s: Sys, id: CallId) returns (u: Sys)
    requires Reachable(s) && DialAt(s, id, Invited) && id in s.invited && InState(s.rows, id, Ended)
    requires s.tears == map[0 := Tear(id, Finishing)] && s.hung == [] && s.lost == {}
    ensures Reachable(u) && ThroughWith(u, id) && id in u.invited && u.hung == [] && u.lost == {}
  {
    hide Run, Reachable, InState;
    u := s;
    ReachableMore(u, AFinish(0));
    u := FinishTear(u, 0);
    u := AnsweredTooLate(u, id);
  }

  lemma AnsweredTooLate(s: Sys, id: CallId) returns (u: Sys)
    requires Reachable(s) && DialAt(s, id, Invited) && id in s.invited && InState(s.rows, id, Ended)
    requires s.tears == map[] && s.hung == [] && s.lost == {}
    ensures Reachable(u) && ThroughWith(u, id) && id in u.invited && u.hung == [] && u.lost == {}
  {
    hide Run, Reachable;
    u := s;
    ReachableMore(u, AKeepLeg(id));
    u := KeepLeg(u, id);
    ReachableMore(u, ATransition(1, id, u.clock, FailsUndone));
    u := Next(u, ATransition(1, id, u.clock, FailsUndone));
  }

  /** The second way: the call is up, and the database ends it but the answer is lost. */
  lemma LegMayLeakUnheard(r: CallRow) returns (s: Sys)
    requires r.state == Ringing && r.direction == Outbound
    ensures Reachable(s) && ThroughWith(s, r.callId) && r.callId in s.invited && multiset(s.hung)[r.callId] == 0
    ensures r.callId !in s.faulted
  {
    s := Answered(r);
    s := EndedUnheard(s, r.callId);
  }

  lemma EndedUnheard(s: Sys, id: CallId) returns (u: Sys)
    requires Reachable(s) && DialAt(s, id, Invited) && id in s.invited && InState(s.rows, id, Ringing)
    requires s.tears == map[] && s.hung == [] && s.faulted == {}
    ensures Reachable(u) && ThroughWith(u, id) && id in u.invited && u.hung == [] && u.faulted == {}
  {
    hide Run, Reachable, InState;
    u := s;
    ReachableMore(u, AKeepLeg(id));
    u := KeepLeg(u, id);
    u := UpAndEnded(u, id);
  }

  lemma UpAndEnded(s: Sys, id: CallId) returns (u: Sys)
    requires Reachable(s) && DialAt(s, id, Kept) && id in s.invited && InState(s.rows, id, Ringing)
    requires s.tears == map[] && s.hung == [] && s.faulted == {}
    ensures Reachable(u) && ThroughWith(u, id) && id in u.invited && u.hung == [] && u.faulted == {}
  {
    hide Run, Reachable;
    u := s;
    ReachableMore(u, ATransition(1, id, u.clock, NoFault));
    u := Next(u, ATransition(1, id, u.clock, NoFault));
    u := OwnedAndEnded(u, id);
  }

  lemma OwnedAndEnded(s: Sys, id: CallId) returns (u: Sys)
    requires Reachable(s) && DialAt(s, id, Owns) && id in s.invited && InState(s.rows, id, Bridged)
    requires s.tears == map[] && s.hung == [] && s.faulted == {}
    ensures Reachable(u) && ThroughWith(u, id) && id in u.invited && u.hung == [] && u.faulted == {}
  {
    hide Run, Reachable;
    u := s;
    ReachableMore(u, AOwnerDone(id));
    u := DialTo(u, id, Over);
    ReachableMore(u, AEnd(0, id, Plain, u.clock, FailsDone));
    u := Next(u, AEnd(0, id, Plain, u.clock, FailsDone));
  }
}
