/** What Matrix users do to calls: joining, leaving and declining, as pkg/calls/subsystem.go handles it. */
module MatrixEvents {
  import opened Results
  import opened CallTable
  import opened CallMemory
  import opened CallProtocol
  import opened CallThreads
  import opened Transcripts
  import opened Calls

  /** Tells the thread that holds an inbound leg who joined. A join that comes while an earlier one is unread is
      dropped: that one decides the call. */
  method SignalAnswer(s: Subsystem, ghost from: Sys, ghost t: Tid, id: CallId, joiner: User) returns (ghost kept: bool)
    requires s.On(from)
    modifies s`answered, s`did
    ensures s.On(from) && s.Log(t) == old(s.Log(t)) + [DidJoin(id, joiner, kept)]
    ensures kept == (id in old(s.answered) && old(s.answered)[id] == None)
    ensures s.answered == if kept then old(s.answered)[id := Some(joiner)] else old(s.answered)
  {
    hide Inv, Reaches, Grown, Enabled, OwnStep, Effect, Logged;
    ghost var here := s.View();
    kept := id in s.answered && s.answered[id] == None;
    if id in s.answered && s.answered[id] == None {
      s.answered := s.answered[id := Some(joiner)];
    }
    OwnMemory(here, t, Joins(id, joiner), NO_CALL);
    s.TookNote(from, here, AMemory(t, Joins(id, joiner)), t, NO_CALL);
  }

  /** Releases the thread that holds the inbound leg of the call that the notification announced, if there is
      one. */
  method SignalDecline(s: Subsystem, ghost from: Sys, ghost t: Tid, notify: EventId)
    returns (callId: Option<CallId>, signalled: bool)
    requires s.On(from)
    modifies s`declined, s`did
    ensures s.On(from) && s.Log(t) == old(s.Log(t)) + [DidDecline(notify, callId, signalled)]
    ensures callId == if notify in s.notifies then Some(s.notifies[notify]) else None
    ensures signalled <==> notify in s.notifies && s.notifies[notify] in old(s.declined)
    ensures s.declined == if signalled then old(s.declined)[s.notifies[notify] := true] else old(s.declined)
  {
    hide Inv, Reaches, Grown, Enabled, OwnStep, Effect, Logged;
    ghost var here := s.View();
    callId, signalled := None, false;
    if notify in s.notifies {
      var id := s.notifies[notify];
      callId, signalled := Some(id), id in s.declined;
      if signalled {
        s.declined := s.declined[id := true];
      }
    }
    OwnMemory(here, t, Declines(notify), NO_CALL);
    s.TookNote(from, here, AMemory(t, Declines(notify)), t, NO_CALL);
  }

  /** The call is looked up, and declined if it rings. */
  predicate DeclinesOwn(evs: seq<Event>, id: CallId) {
    && evs != [] && evs[0].DidFind?
    && if evs[0].row.Some? && evs[0].row.value.state == Ringing then OneEnd(evs[1..], id, Why.Declined) else |evs| == 1
  }

  /** A decline. One that names no notification of a call in progress changes nothing. One that a thread waits for is
      signalled to it. Any other ends the call it names if that one rings: in the end, with no statement failed, it does
      not. */
  method HandleRtcDecline(s: Subsystem, ghost from: Sys, t: Tid, notify: EventId) returns (ghost evs: seq<Event>)
    requires s.On(from) && s.Idle(t)
    modifies s
    ensures s.On(from) && s.Idle(t)
    ensures notify !in old(s.notifies) ==>
      s.View() == old(s.View()).(did := s.did) && s.Log(t) == old(s.Log(t)) + [DidDecline(notify, None, false)]
    ensures notify in old(s.notifies) ==>
      var id := old(s.notifies)[notify];
      if id in old(s.declined) then
        && s.View() == old(s.View()).(did := s.did, mem := old(s.Mem()).(declined := old(s.declined)[id := true]))
        && s.Log(t) == old(s.Log(t)) + [DidDecline(notify, Some(id), true)]
      else
        && s.Log(t) == old(s.Log(t)) + [DidDecline(notify, Some(id), false)] + evs
        && DeclinesOwn(evs, id) && (StatementsWent(evs) ==> !InState(s.rows, id, Ringing))
  {
    hide Subsystem.On, Subsystem.Log, Subsystem.Idle;
    var callId, signalled;
    callId, signalled := SignalDecline(s, from, t, notify);
    evs := [];
    if callId.Some? && !signalled {
      evs := DeclineOwnCall(s, from, t, callId.value);
    }
  }

  /** declineOwnCall. */
  method DeclineOwnCall(s: Subsystem, ghost from: Sys, t: Tid, id: CallId) returns (ghost evs: seq<Event>)
    requires s.On(from) && s.Idle(t)
    modifies s
    ensures s.On(from) && s.Idle(t) && s.Log(t) == old(s.Log(t)) + evs && DeclinesOwn(evs, id)
    ensures StatementsWent(evs) ==> !InState(s.rows, id, Ringing)
  {
    hide Subsystem.On, Subsystem.View, Subsystem.Log, Subsystem.Idle, Subsystem.OwnKept, StatementsWent;
    s.Others(from, t, NO_CALL);
    var row, ok := s.GetByCallID(from, t, id);
    evs := [DidFind(row, ok)];
    OneWent(evs[0]);
    if row.Some? && row.value.state == Ringing {
      s.Others(from, t, NO_CALL);
      var call := new Call(row.value);
      var mine;
      mine, ok := s.EndCallAs(from, t, NO_CALL, call, Why.Declined);
      ghost var e := DidEnd(id, Why.Declined, mine, ok);
      WentJoin(evs, [e]);
      OneWent(e);
      evs := evs + [e];
      assert evs[1..] == [e];
    }
  }

  /** The user on the call may end it by leaving; before there is one, anybody may. */
  predicate MayEnd(r: CallRow, sender: User) {
    r.matrixUser == NOBODY || r.matrixUser == sender
  }

  /** The newest call in progress in the room, by the lookup. */
  function InProgress(look: seq<Event>): Option<CallRow>
    requires look != [] && look[0].DidFind?
  {
    if |look| == 2 then look[0].row else None
  }

  /** A leave. It ends the call in progress in the room, if there is one that the sender may end. With no statement
      failed, that call has ended. */
  method OnMatrixLeftCall(s: Subsystem, ghost from: Sys, t: Tid, room: Room, sender: User)
    returns (ghost look: seq<Event>, ghost tail: seq<Event>)
    requires s.On(from) && s.Idle(t)
    modifies s
    ensures s.On(from) && s.Idle(t) && s.Log(t) == old(s.Log(t)) + look + tail && s.LooksUp(look)
    ensures look[0].ok ==> LatestInRoom(old(s.rows), room, look[0].row)
    ensures
      match InProgress(look)
      case None => tail == []
      case Some(r) =>
        if r.matrixUser == NOBODY || r.matrixUser == sender then
          OneEnd(tail, r.callId, Plain) && (StatementsWent(tail) ==> s.Gone(r.callId))
        else tail == []
  {
    hide Subsystem.On, Subsystem.View, Subsystem.Log, Subsystem.Idle, Subsystem.OwnKept, Subsystem.Gone, ActiveByRoom,
         Subsystem.EndsStale, IsNewest, StatementsWent, LatestInRoom;
    FoundInTable(s, room);
    ghost var before := s.rows;
    var active, ok;
    active, ok, look := s.DiscardIfStale(from, t, NO_CALL, ActiveByRoom(s.rows, room));
    if look[0].ok {
      RoomLookup(before, room, look[0].row);
    }
    tail := [];
    if active.Some? && MayEnd(active.value, sender) {
      s.Others(from, t, NO_CALL);
      var call := new Call(active.value);
      var mine;
      mine, ok := s.EndCallAs(from, t, NO_CALL, call, Plain);
      tail := [DidEnd(call.callId, Plain, mine, ok)];
      OneWent(tail[0]);
    }
  }

  /** The join was said to the thread of the call. */
  predicate OneJoin(evs: seq<Event>, id: CallId, joiner: User) {
    |evs| == 1 && evs[0].DidJoin? && evs[0].id == id && evs[0].joiner == joiner
  }

  /** A join. It is signalled to the thread of the call that rings in the room, and to no other; that thread then reads
      this joiner, or an earlier one that it has not read yet. A call is placed only if none is in progress there. While
      one is up, nothing is done. */
  method OnMatrixJoinedCall(s: Subsystem, ghost from: Sys, t: Tid, id: CallId, portalId: string, room: Room,
                            owner: User, joiner: User, sipReady: bool)
    returns (dialled: Call?, ghost look: seq<Event>, ghost signal: seq<Event>, ghost tr: DialTrace)
    requires s.On(from) && s.Idle(t) && id !in s.rows
    modifies s
    ensures s.On(from) && s.Idle(t) && s.Log(t) == old(s.Log(t)) + look + signal + tr.All() && s.LooksUp(look)
    ensures look[0].ok ==> LatestInRoom(old(s.rows), room, look[0].row)
    ensures if s.Clear(look) && s.CanDial(portalId, room, sipReady) then
              tr.Fits(RtcJoin) && s.DialledRow(tr.made, id, portalId, room, owner, joiner)
            else tr == NO_DIAL
    ensures DidInsert(tr.made, true) in tr.row ==> s.FoundByRoom(tr.made)
    ensures dialled != null <==> tr.Placed()
    ensures dialled != null ==>
      SameTerms(tr.made, dialled.Row()) && dialled.matrixUser == joiner && dialled.lkParticipant == tr.participant
      && id in s.owners
    ensures if InProgress(look).Some? && InProgress(look).value.state == Ringing then
              var i := InProgress(look).value.callId;
              && OneJoin(signal, i, joiner) && (signal[0].kept ==> i in s.answered && s.answered[i] == Some(joiner))
              && (i in s.answered ==> s.answered[i].Some?)
            else signal == []
  {
    hide Subsystem.On, Subsystem.View, Subsystem.Log, Subsystem.Idle, Subsystem.Gone, ActiveByRoom, Subsystem.EndsStale,
         IsNewest, StatementsWent, Subsystem.CanDial, DialTrace.Fits, DialTrace.All, LatestInRoom,
         Subsystem.DialledRow, Subsystem.FoundByRoom, SameTerms;
    NoDial();
    FoundInTable(s, room);
    ghost var before := s.rows;
    dialled, signal, tr := null, [], NO_DIAL;
    var active, ok;
    active, ok, look := s.DiscardIfStale(from, t, id, ActiveByRoom(s.rows, room));
    if look[0].ok {
      RoomLookup(before, room, look[0].row);
    }
    if ok {
      s.Others(from, t, id);
      if active.None? {
        dialled, tr := s.Dial(from, t, id, portalId, room, owner, joiner, sipReady, RtcJoin);
      } else if active.value.state == Ringing {
        ghost var kept := SignalAnswer(s, from, t, active.value.callId, joiner);
        signal := [DidJoin(active.value.callId, joiner, kept)];
      }
    }
  }

  lemma NoDial()
    ensures NO_DIAL.All() == []
  {
  }

  lemma FoundInTable(s: Subsystem, room: Room)
    ensures ActiveByRoom(s.rows, room) <= s.rows.Keys
  {
  }
}
