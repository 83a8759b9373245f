/** pkg/database/call.go: the sip_call table and what each statement does to it. */
module CallTable {
  import opened Results

  datatype Direction = Inbound | Outbound

  datatype CallState = Ringing | Bridged | Ended

  type CallId = string
  type User = string
  type Room = string

  const NOBODY: User := ""

  datatype CallRow = CallRow(
    callId: CallId, portalId: string, room: Room, receiver: User, matrixUser: User, direction: Direction,
    conference: string, lkRoom: string, lkIdentity: string, lkParticipant: string,
    state: CallState, createdAt: int, updatedAt: int)

  /** The rows by their primary key. No statement deletes one. */
  type Table = map<CallId, CallRow>

  ghost predicate KeyedById(t: Table) {
    forall id :: id in t ==> t[id].callId == id
  }

  // ---- Statements

  function InsertRow(t: Table, r: CallRow): Table {
    if r.callId in t then t else t[r.callId := r]
  }

  /** Writes back the mutable columns of r, which says nothing about the user or the creation. */
  function UpdateRow(t: Table, r: CallRow): Table {
    if r.callId in t && t[r.callId].state != Ended then
      t[r.callId := t[r.callId].(conference := r.conference, lkRoom := r.lkRoom, lkIdentity := r.lkIdentity,
                                 lkParticipant := r.lkParticipant, state := r.state, updatedAt := r.updatedAt)]
    else t
  }

  predicate InState(t: Table, id: CallId, s: CallState) {
    id in t && t[id].state == s
  }

  predicate Active(t: Table, id: CallId) {
    id in t && t[id].state != Ended
  }

  function TransitionRow(t: Table, id: CallId, a: CallState, b: CallState, now: int): Table {
    if InState(t, id, a) then t[id := t[id].(state := b, updatedAt := now)] else t
  }

  function EndRow(t: Table, id: CallId, now: int): Table {
    if Active(t, id) then t[id := t[id].(state := Ended, updatedAt := now)] else t
  }

  /** NOT EXISTS (a bridged row of the conference). */
  predicate ConferenceFree(t: Table, conference: string) {
    forall id :: id in t && t[id].conference == conference ==> t[id].state != Bridged
  }

  /** The write of Answer, which re-checks its own row but not, under read committed, what it read of others. */
  function ClaimRow(t: Table, id: CallId, user: User, now: int, free: bool): Table {
    if InState(t, id, Ringing) && free then t[id := t[id].(state := Bridged, matrixUser := user, updatedAt := now)]
    else t
  }

  function EndAllRows(t: Table, now: int): Table {
    map id | id in t :: if t[id].state != Ended then t[id].(state := Ended, updatedAt := now) else t[id]
  }

  // ---- Queries

  /** ORDER BY created_at DESC LIMIT 1 of the rows in s; rows of one age may come in any order. */
  ghost predicate IsNewest(t: Table, s: set<CallId>, r: Option<CallRow>) {
    match r
    case None => s == {}
    case Some(x) => x.callId in s && x.callId in t && t[x.callId] == x
                    && forall id :: id in s && id in t ==> t[id].createdAt <= x.createdAt
  }

  /** The answer to a lookup by room: the newest call in progress there, none exactly if there is none. */
  ghost predicate LatestInRoom(t: Table, room: Room, r: Option<CallRow>) {
    match r
    case None => forall id :: id in t && t[id].room == room ==> t[id].state == Ended
    case Some(x) =>
      && x.callId in t && t[x.callId] == x && x.room == room && x.state != Ended
      && forall id :: id in t && t[id].room == room && t[id].state != Ended ==> t[id].createdAt <= x.createdAt
  }

  /** The answer to a lookup of the receiver's leg of a conference. */
  ghost predicate LatestLeg(t: Table, conference: string, receiver: User, r: Option<CallRow>) {
    match r
    case None =>
      forall id :: id in t && t[id].conference == conference && t[id].receiver == receiver ==> t[id].state == Ended
    case Some(x) =>
      && x.callId in t && t[x.callId] == x && x.conference == conference && x.receiver == receiver && x.state != Ended
      && forall id ::
          id in t && t[id].conference == conference && t[id].receiver == receiver && t[id].state != Ended ==>
           t[id].createdAt <= x.createdAt
  }

  lemma RoomLookup(t: Table, room: Room, r: Option<CallRow>)
    requires IsNewest(t, ActiveByRoom(t, room), r)
    ensures LatestInRoom(t, room, r)
  {
    assert forall id :: id in t && t[id].room == room && t[id].state != Ended ==> id in ActiveByRoom(t, room);
  }

  lemma LegLookup(t: Table, conference: string, receiver: User, r: Option<CallRow>)
    requires IsNewest(t, ActiveByConference(t, conference, receiver), r)
    ensures LatestLeg(t, conference, receiver, r)
  {
    assert forall id ::
          id in t && t[id].conference == conference && t[id].receiver == receiver && t[id].state != Ended ==>
      id in ActiveByConference(t, conference, receiver);
  }

  function ActiveByRoom(t: Table, room: Room): set<CallId> {
    set id | id in t && t[id].room == room && t[id].state != Ended
  }

  function ActiveByConference(t: Table, conference: string, receiver: User): set<CallId> {
    set id | id in t && t[id].conference == conference && t[id].receiver == receiver && t[id].state != Ended
  }

  function AllActive(t: Table): set<CallId> {
    set id | id in t && t[id].state != Ended
  }

  function AnsweredElsewhere(t: Table, r: CallRow, within: int): set<CallId> {
    set id | id in t && t[id].conference == r.conference && id != r.callId && t[id].direction == Inbound
             && t[id].matrixUser != NOBODY && t[id].state == Bridged && r.createdAt - within <= t[id].createdAt
  }

  /** The first row of the answer. */
  method PickNewest(t: Table, s: set<CallId>) returns (r: Option<CallRow>)
    requires s <= t.Keys && KeyedById(t)
    ensures IsNewest(t, s, r)
  {
    if s == {} {
      return None;
    }
    var best :| best in s;
    var rest := s - {best};
    while rest != {}
      invariant best in s && rest <= s && forall id :: id in s && id !in rest ==> t[id].createdAt <= t[best].createdAt
    {
      var id :| id in rest;
      rest := rest - {id};
      if t[best].createdAt < t[id].createdAt {
        best := id;
      }
    }
    r := Some(t[best]);
  }

  // ---- What statements keep

  function Rank(s: CallState): nat {
    match s
    case Ringing => 0
    case Bridged => 1
    case Ended => 2
  }

  /** The columns that say what call it is. */
  predicate SameTerms(r: CallRow, q: CallRow) {
    && q.callId == r.callId && q.portalId == r.portalId && q.room == r.room && q.receiver == r.receiver
    && q.direction == r.direction && q.conference == r.conference && q.createdAt == r.createdAt
  }

  /** Rows stay, only move ringing, bridged, ended, and never change again once they have ended. What call a row is
      never changes, nor who is on it once it does not ring. */
  ghost predicate Forward(t: Table, u: Table) {
    forall id :: id in t ==>
      && id in u && Rank(t[id].state) <= Rank(u[id].state) && (t[id].state == Ended ==> u[id] == t[id])
      && SameTerms(t[id], u[id]) && (t[id].state != Ringing ==> u[id].matrixUser == t[id].matrixUser)
  }

  /** The table has the call that the row says, whatever has become of it. */
  predicate HasTerms(t: Table, r: CallRow) {
    r.callId in t && SameTerms(r, t[r.callId])
  }

  /** The call has been answered for the user. */
  predicate AnsweredFor(t: Table, id: CallId, user: User) {
    id in t && t[id].state != Ringing && t[id].matrixUser == user
  }

  lemma ForwardSelf(t: Table)
    ensures Forward(t, t)
  {
  }

  lemma InsertForward(t: Table, r: CallRow)
    ensures Forward(t, InsertRow(t, r))
  {
  }

  /** A late Update never resurrects a call, and moves it forward exactly if the writer's record is not behind
      the row and names its conference. */
  lemma UpdateForward(t: Table, r: CallRow)
    requires KeyedById(t)
    ensures Forward(t, UpdateRow(t, r)) <==>
            (Active(t, r.callId) ==> Rank(t[r.callId].state) <= Rank(r.state) && t[r.callId].conference == r.conference)
    ensures InState(t, r.callId, Ended) ==> UpdateRow(t, r) == t
  {
    var u := UpdateRow(t, r);
    if Active(t, r.callId) {
      assert forall id :: id in t && id != r.callId ==> u[id] == t[id];
    }
  }

  lemma TransitionForward(t: Table, id: CallId, now: int)
    ensures Forward(t, TransitionRow(t, id, Ringing, Bridged, now))
  {
  }

  lemma EndForward(t: Table, id: CallId, now: int)
    ensures Forward(t, EndRow(t, id, now))
  {
  }

  lemma ClaimForward(t: Table, id: CallId, user: User, now: int, free: bool)
    ensures Forward(t, ClaimRow(t, id, user, now, free))
  {
  }

  lemma EndAllForward(t: Table, now: int)
    ensures Forward(t, EndAllRows(t, now))
  {
  }

  /** What is new or changed bears the time, and a changed row is as old as it was. */
  ghost predicate Dated(t: Table, u: Table, now: int) {
    forall id :: id in u && (id in t ==> u[id] != t[id]) ==>
      u[id].updatedAt == now && (id in t ==> u[id].createdAt == t[id].createdAt)
  }

  lemma RecordDated(t: Table, r: CallRow)
    ensures Dated(t, InsertRow(t, r), r.updatedAt) && Dated(t, UpdateRow(t, r), r.updatedAt)
  {
  }

  lemma ChangeDated(t: Table, id: CallId, user: User, now: int)
    ensures Dated(t, t, now) && Dated(t, EndRow(t, id, now), now) && Dated(t, EndAllRows(t, now), now)
    ensures Dated(t, ClaimRow(t, id, user, now, true), now)
    ensures Dated(t, TransitionRow(t, id, Ringing, Bridged, now), now)
  {
  }

  lemma ForwardMore(t: Table, u: Table, v: Table)
    requires Forward(t, u) && Forward(u, v)
    ensures Forward(t, v)
  {
  }

  /** Without the mutex around Answer, the statements of two legs that both read before either writes both win:
      exactly when both rows ring and the conference is free. */
  lemma TwoClaimsBothWin(t: Table, a: CallId, b: CallId, user1: User, user2: User, now1: int, now2: int)
    requires a in t && b in t && a != b && t[a].conference == t[b].conference
    ensures var free := ConferenceFree(t, t[a].conference);
            var u := ClaimRow(ClaimRow(t, a, user1, now1, free), b, user2, now2, free);
            var before := if free then Ringing else Bridged;
            InState(u, a, Bridged) && InState(u, b, Bridged) <==> InState(t, a, before) && InState(t, b, before)
  {
  }

  /** One statement after the other, the second finds the conference taken. */
  lemma SecondClaimLoses(t: Table, a: CallId, b: CallId, user1: User, user2: User, now1: int, now2: int)
    requires a in t && b in t && a != b && t[a].conference == t[b].conference && t[b].state == Ringing
    ensures var u := ClaimRow(t, a, user1, now1, ConferenceFree(t, t[a].conference));
            var v := ClaimRow(u, b, user2, now2, ConferenceFree(u, u[b].conference));
            InState(u, a, Bridged) ==> v == u
  {
  }
}
