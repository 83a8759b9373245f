/** The participant watcher of pkg/calls/subsystem.go: how the bridge learns that a call has ended. */
module Watcher {
  import opened Results
  import opened CallTable
  import opened CallProtocol
  import opened CallThreads
  import opened Transcripts
  import opened Calls

  /** What the pass does about one row. It is ended, quietly, if the clock says that it is stale. If not, and if it is
      watched, LiveKit is asked for its participant; if it is present, it is marked as seen; if it is absent,
      the call is ended if it had been seen. Nothing else ends it. */
  predicate Checks(s: Subsystem, evs: seq<Event>, r: CallRow) {
    && evs != [] && evs[0].DidReadClock?
    && if s.Overdue(r, evs[0].now) then OneEnd(evs[1..], r.callId, Quiet)
       else if r.state == Bridged && r.lkIdentity != "" then Looks(evs[1..], r.callId)
       else |evs| == 1
  }

  predicate Looks(evs: seq<Event>, id: CallId) {
    && evs != [] && evs[0].DidLook? && evs[0].id == id
    && if evs[0].ok && !evs[0].present then
         && |evs| >= 2 && evs[1].DidReadSeen? && evs[1].id == id
         && if evs[1].seen then OneEnd(evs[2..], id, Plain) else |evs| == 2
       else if evs[0].ok then |evs| == 2 && evs[1] == DidMark(id)
       else |evs| == 1
  }

  /** The call was ended because it cannot still be in progress. */
  predicate EndsQuietly(evs: seq<Event>) {
    Ends(evs) && evs[|evs| - 1].why == Quiet
  }

  /** It is ended so exactly by its own times and the clock of the pass: a bridged row if it was last written to longer
      ago than the membership lasts, however old it is; a ringing row if it was created more than a minute and the ring
      timeout ago; an ended row never. */
  predicate QuietByTimes(s: Subsystem, evs: seq<Event>, r: CallRow)
    requires evs != [] && evs[0].DidReadClock?
  {
    && (r.state == Bridged ==> (EndsQuietly(evs) <==> evs[0].now - r.updatedAt > s.membershipExpiry))
    && (r.state == Ringing ==> (EndsQuietly(evs) <==> evs[0].now - r.createdAt > s.ringTimeout + 60_000))
    && (r.state == Ended ==> !EndsQuietly(evs))
  }

  lemma ChecksByTimes(s: Subsystem, evs: seq<Event>, r: CallRow)
    requires Checks(s, evs, r)
    ensures QuietByTimes(s, evs, r)
  {
    if |evs| > 1 {
      assert evs[1..][|evs| - 2] == evs[|evs| - 1];
    }
  }

  /** The thread tried to end a call. */
  predicate Ends(evs: seq<Event>) {
    evs != [] && evs[|evs| - 1].DidEnd?
  }

  /** One row of the listing. When it was to be ended and no statement failed, it has ended. */
  method CheckCall(s: Subsystem, ghost from: Sys, t: Tid, row: CallRow) returns (ghost evs: seq<Event>)
    requires s.On(from) && s.Idle(t)
    modifies s
    ensures s.On(from) && s.Idle(t) && s.Log(t) == old(s.Log(t)) + evs && Checks(s, evs, row)
    ensures Ends(evs) && StatementsWent(evs) ==> s.Gone(row.callId)
    ensures EndsAbsent(evs) ==> Told(s.did, row.callId)
    ensures QuietByTimes(s, evs, row)
  {
    hide Subsystem.On, Subsystem.View, Subsystem.Log, Subsystem.Idle, Subsystem.Gone, Subsystem.Overdue,
         Subsystem.OwnKept, Looks, StatementsWent, Told, QuietByTimes, Interleaved, Grown;
    s.Others(from, t, NO_CALL);
    var call := new Call(row);
    var stale, ok;
    stale, ok, evs := s.EndIfStale(from, t, NO_CALL, call);
    if stale || row.state != Bridged || row.lkIdentity == "" {
      ChecksByTimes(s, evs, row);
      return;
    }
    s.Others(from, t, NO_CALL);
    ghost var more := CheckParticipant(s, from, t, call);
    Appended(evs, more);
    WentJoin(evs, more);
    evs := evs + more;
    if EndsAbsent(evs) {
      AbsentWasSeen(s, evs, row);
      s.SeenTold(from, t, row.callId);
    }
    ChecksByTimes(s, evs, row);
  }

  lemma Appended(a: seq<Event>, b: seq<Event>)
    requires |a| == 1
    ensures (a + b)[1..] == b && (a + b)[0] == a[0]
  {
  }

  /** LiveKit is asked, and the absence of a participant that had been seen ends the call. */
  method CheckParticipant(s: Subsystem, ghost from: Sys, t: Tid, call: Call) returns (ghost evs: seq<Event>)
    requires s.On(from) && s.Idle(t)
    modifies s, call`state, call`updatedAt
    ensures s.On(from) && s.Idle(t) && s.Log(t) == old(s.Log(t)) + evs && Looks(evs, call.callId)
    ensures Ends(evs) && StatementsWent(evs) ==> s.Gone(call.callId)
  {
    hide Subsystem.On, Subsystem.View, Subsystem.Log, Subsystem.Idle, Subsystem.Gone, Subsystem.OwnKept, Grown,
         Interleaved;
    var id := call.callId;
    var present, ok := AskPresent(s, from, t, id);
    evs := [DidLook(id, present, ok)];
    if !ok {
      return;
    }
    if present {
      s.MarkSeen(from, t, id);
      evs := [DidLook(id, true, true), DidMark(id)];
      return;
    }
    s.Others(from, t, NO_CALL);
    var seen := s.WasSeen(from, t, id);
    evs := [DidLook(id, present, ok), DidReadSeen(id, seen)];
    if !seen {
      return;
    }
    s.Others(from, t, NO_CALL);
    var mine;
    mine, ok := s.EndCallAs(from, t, NO_CALL, call, Plain);
    ghost var e := DidEnd(id, Plain, mine, ok);
    WentJoin(evs, [e]);
    OneWent(e);
    evs := evs + [e];
    assert evs[2..] == [e] && evs[..2] == [DidLook(id, present, true), DidReadSeen(id, seen)];
  }

  /** Whether LiveKit has the participant of the call in its room. */
  method AskPresent(s: Subsystem, ghost from: Sys, ghost t: Tid, ghost id: CallId) returns (present: bool, ok: bool)
    requires s.On(from)
    modifies s`did
    ensures s.On(from) && s.Log(t) == old(s.Log(t)) + [DidLook(id, present, ok)]
  {
    hide Subsystem.On, Subsystem.Log;
    present, ok := *, *;
    s.Note(from, t, DidLook(id, present, ok));
  }

  /** The rows in some order. */
  method ListActive(t: Table) returns (list: seq<CallRow>)
    requires KeyedById(t)
    ensures Lists(t, list)
  {
    list := [];
    var rest := AllActive(t);
    while rest != {}
      invariant rest <= AllActive(t)
      invariant forall r :: r in list ==> Active(t, r.callId) && t[r.callId] == r
      invariant forall id :: id in t && Active(t, id) && id !in rest ==> t[id] in list
    {
      var id :| id in rest;
      rest := rest - {id};
      list := list + [t[id]];
    }
  }

  /** GetAllActive. */
  method GetAllActive(s: Subsystem, ghost from: Sys, ghost t: Tid) returns (list: seq<CallRow>, ok: bool)
    requires s.On(from)
    modifies s`did
    ensures s.On(from) && s.Log(t) == old(s.Log(t)) + [DidList(list, ok)]
    ensures if ok then Lists(s.rows, list) else list == []
  {
    s.OnSince(from);
    s.RowsKeyed();
    hide Subsystem.On, Subsystem.Log, Subsystem.Since, Lists;
    ok, list := *, [];
    if ok {
      list := ListActive(s.rows);
    }
    s.Note(from, t, DidList(list, ok));
  }

  /** The rows looked at so far. Those that were to be ended have, unless a statement failed. */
  ghost predicate Passed(s: Subsystem, t: Table, list: seq<CallRow>, looks: seq<seq<Event>>) {
    && |looks| <= |list|
    && forall k :: 0 <= k < |looks| ==> Checks(s, looks[k], list[k]) && Settled(t, list[k], looks[k])
  }

  ghost predicate Settled(t: Table, r: CallRow, look: seq<Event>) {
    r.callId in t && (Ends(look) && StatementsWent(look) ==> !Active(t, r.callId))
  }

  ghost predicate InTable(t: Table, list: seq<CallRow>) {
    forall r :: r in list ==> r.callId in t
  }

  lemma PassedNone(s: Subsystem, t: Table, list: seq<CallRow>)
    requires list == [] || Lists(t, list)
    ensures InTable(t, list) && Passed(s, t, list, [])
  {
  }

  /** Rows stay, and an ended one stays ended. */
  lemma StaysPassed(s: Subsystem, a: Sys, b: Sys, list: seq<CallRow>, looks: seq<seq<Event>>)
    requires Grown(a, b) && InTable(a.rows, list) && Passed(s, a.rows, list, looks)
    ensures InTable(b.rows, list) && Passed(s, b.rows, list, looks)
  {
    hide Checks, StatementsWent, Ends;
  }

  /** The next row of the listing. */
  method CheckNext(s: Subsystem, ghost from: Sys, t: Tid, list: seq<CallRow>, k: nat, ghost looks: seq<seq<Event>>)
    returns (ghost look: seq<Event>)
    requires s.On(from) && s.Idle(t) && |looks| == k < |list| && InTable(s.rows, list) && Passed(s, s.rows, list, looks)
    modifies s
    ensures s.On(from) && s.Idle(t) && s.Log(t) == old(s.Log(t)) + look
    ensures InTable(s.rows, list) && Passed(s, s.rows, list, looks + [look])
  {
    hide Inv, Reaches, Grown, Interleaved, Subsystem.Log, Checks, StatementsWent, Ends;
    ghost var here := s.View();
    StartHere(s);
    look := CheckCall(s, here, t, list[k]);
    s.Rejoin(from, here);
    StaysPassed(s, here, s.View(), list, looks);
    assert list[k] in list;
  }

  /** The call was ended because its participant was absent. */
  predicate EndsAbsent(look: seq<Event>) {
    Ends(look) && look[|look| - 1].why == Plain
  }

  lemma AbsentWasSeen(s: Subsystem, look: seq<Event>, r: CallRow)
    requires Checks(s, look, r) && EndsAbsent(look)
    ensures DidReadSeen(r.callId, true) in look
  {
    assert look[2] == DidReadSeen(r.callId, true);
  }

  /** Of every call that the pass ended for the absence of its participant, a thread was told that it was there. */
  ghost predicate AbsentWereTold(did: map<Tid, seq<Event>>, list: seq<CallRow>, looks: seq<seq<Event>>)
    requires |looks| <= |list|
  {
    forall k :: 0 <= k < |looks| && EndsAbsent(looks[k]) ==> Told(did, list[k].callId)
  }

  lemma AllTold(s: Subsystem, from: Sys, t: Tid, before: seq<Event>, list: seq<CallRow>, looks: seq<seq<Event>>)
    requires s.On(from) && s.Log(t) == before + Concat(looks) && Passed(s, s.rows, list, looks)
    ensures AbsentWereTold(s.did, list, looks)
  {
    hide Subsystem.On, Subsystem.Log, EndsAbsent, Checks, Told, Settled;
    forall k | 0 <= k < |looks| && EndsAbsent(looks[k]) ensures Told(s.did, list[k].callId) {
      AbsentWasSeen(s, looks[k], list[k]);
      InConcat(looks, k, DidReadSeen(list[k].callId, true));
      s.SeenTold(from, t, list[k].callId);
    }
  }

  lemma AllByTimes(s: Subsystem, u: Table, list: seq<CallRow>, looks: seq<seq<Event>>)
    requires Passed(s, u, list, looks)
    ensures forall k :: 0 <= k < |looks| ==>
      looks[k] != [] && looks[k][0].DidReadClock? && QuietByTimes(s, looks[k], list[k])
  {
    hide QuietByTimes, Settled;
    forall k | 0 <= k < |looks|
      ensures looks[k] != [] && looks[k][0].DidReadClock? && QuietByTimes(s, looks[k], list[k])
    {
      ChecksByTimes(s, looks[k], list[k]);
    }
  }

  /** One pass over every row in progress when it lists them. Each is checked, and those that were to be ended have
      ended at the end of the pass, unless a statement failed. No call is ended for the absence of a participant that
      nobody was told of. */
  method CheckParticipants(s: Subsystem, ghost from: Sys, t: Tid)
    returns (list: seq<CallRow>, ok: bool, ghost looks: seq<seq<Event>>)
    requires s.On(from) && s.Idle(t)
    modifies s
    ensures s.On(from) && s.Idle(t)
    ensures s.Log(t) == old(s.Log(t)) + [DidList(list, ok)] + Concat(looks)
    ensures if ok then Lists(old(s.rows), list) else list == []
    ensures |looks| == |list| && Passed(s, s.rows, list, looks) && AbsentWereTold(s.did, list, looks)
    ensures forall k :: 0 <= k < |looks| ==>
      looks[k] != [] && looks[k][0].DidReadClock? && QuietByTimes(s, looks[k], list[k])
  {
    assert Concat<Event>([]) == [];
    hide Lists, Passed, InTable, AbsentWereTold;
    hide Subsystem.On, Subsystem.View, Subsystem.Log, Subsystem.Idle, Checks, StatementsWent, Concat, Settled, Ends,
         QuietByTimes;
    list, ok := GetAllActive(s, from, t);
    looks := [];
    ghost var before := s.Log(t);
    PassedNone(s, s.rows, list);
    var k := 0;
    while k < |list|
      invariant k == |looks| <= |list| && s.On(from) && s.Idle(t) && InTable(s.rows, list)
      invariant Passed(s, s.rows, list, looks)
      invariant s.Log(t) == before + Concat(looks)
    {
      ghost var look := CheckNext(s, from, t, list, k, looks);
      ConcatMore(before, looks, look);
      looks := looks + [look];
      k := k + 1;
    }
    AllTold(s, from, t, before, list, looks);
    AllByTimes(s, s.rows, list, looks);
  }

  lemma StartHere(s: Subsystem)
    requires Inv(s.View())
    ensures s.On(s.View())
  {
    Start(s.View());
  }
}
