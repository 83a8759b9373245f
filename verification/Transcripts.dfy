/** What the threads of pkg/calls/subsystem.go do, read off what they noted down. */
module Transcripts {
  import opened Results
  import opened CallTable
  import opened CallMemory
  import opened CallProtocol

  const COULD_NOT_CONNECT := "could not connect"
  const NO_ROUTE := "no route"
  const BRIDGE_RESTARTED := "the bridge restarted"

  /** The statement or request, if it is one, returned no error. */
  predicate Went(e: Event) {
    match e
    case DidReadSeen(_, _) => true
    case DidReadClock(_) => true
    case DidMake(_, _) => true
    case DidDrop(_, _) => true
    case DidMark(_) => true
    case DidReadJoin(_, _) => true
    case DidRemember(_, _) => true
    case DidJoin(_, _, _) => true
    case DidDecline(_, _, _) => true
    case DidRecipient(answer) => answer.Reachable?
    case _ => e.ok
  }

  predicate IsStatement(e: Event) {
    IsWrite(e) || e.DidFind? || e.DidList?
  }

  /** Every statement succeeded. */
  predicate StatementsWent(evs: seq<Event>) {
    forall e :: e in evs && IsStatement(e) ==> Went(e)
  }

  predicate Asked(evs: seq<Event>, what: Request) {
    DidRequest(what, true) in evs || DidRequest(what, false) in evs
  }

  /** What brings a call up once it is won. */
  predicate IsMedia(what: Request) {
    what == AskTrunk || what == AskRoom || what.AskParticipant? || what == AskAnswer
  }

  /** The same statement or request with an error for an answer. */
  function Failing(e: Event): Event {
    match e
    case DidInsert(r, _) => DidInsert(r, false)
    case DidClaim(id, user, _, _) => DidClaim(id, user, false, false)
    case DidTransition(id, _, _) => DidTransition(id, false, false)
    case DidUpdate(id, participant, _) => DidUpdate(id, participant, false)
    case DidEnd(id, why, _, _) => DidEnd(id, why, false, false)
    case DidFind(_, _) => DidFind(None, false)
    case DidList(_, _) => DidList([], false)
    case DidRequest(what, _) => DidRequest(what, false)
    case DidRecipient(_) => DidRecipient(Unavailable)
    case DidFindRoom(portalId, owner, _, _) => DidFindRoom(portalId, owner, "", false)
    case DidLook(id, _, _) => DidLook(id, false, false)
    case _ => e
  }

  /** The step failed, or is a transition that was lost. */
  predicate StopsAt(p: Event, e: Event) {
    || e == Failing(p) || (p.DidTransition? && e == DidTransition(p.id, false, true))
    || (p.DidRecipient? && e.DidRecipient? && !e.answer.Reachable?)
  }

  /** The thread went through the plan, up to the first step that stopped it. */
  predicate Follows(plan: seq<Event>, evs: seq<Event>) {
    if plan == [] then evs == []
    else
      evs != [] && if evs[0] == plan[0] then Follows(plan[1..], evs[1..]) else |evs| == 1 && StopsAt(plan[0], evs[0])
  }

  /** The thread tried to end the call, and to have that said of it. */
  predicate OneEnd(evs: seq<Event>, id: CallId, why: Why) {
    |evs| == 1 && evs[0].DidEnd? && evs[0].id == id && evs[0].why == why
  }

  // ---- Answering

  /** bridgeMedia, and all that follows a won claim. */
  function MediaRequests(id: CallId, participant: string): seq<Event> {
    [DidRequest(AskTrunk, true), DidRequest(AskRoom, true), DidRequest(AskParticipant(id, participant), true)]
  }

  function MediaPlan(id: CallId, participant: string): seq<Event> {
    MediaRequests(id, participant) + [DidMark(id), DidUpdate(id, participant, true)]
  }

  function AnswerPlan(id: CallId, participant: string): seq<Event> {
    MediaPlan(id, participant) + [DidRequest(AskAnswer, true)]
  }

  /** What came last failed for want of a way to the SIP server or the phone: there was no trunk, or no answer to the
      INVITE. */
  predicate NoRoute(up: seq<Event>) {
    up != [] && (up[|up| - 1] == DidRequest(AskTrunk, false) || up[|up| - 1] == DidRequest(AskInvite, false))
  }

  /** What the room is told of a call that failed there. */
  function ReasonFor(up: seq<Event>): string {
    if NoRoute(up) then "no route" else "could not connect"
  }

  /** How a Matrix join resolved against the conference. */
  datatype AnswerOutcome = AnswerWon | AnswerLost | AnswerOver

  /** What answerInbound did: the claim, what followed it with the participant it brought in, if it came to that, and
      the end of the call if it ended it. */
  datatype AnswerTrace = AnswerTrace(claim: Event, participant: string, up: seq<Event>, tail: seq<Event>) {
    function All(): seq<Event> {
      [claim] + up + tail
    }

    /** The claim is for the user who joined. A claim that failed ends the call. One that was lost is looked into. One
        that was won is followed up to the 200, and the first error on the way ends the call, as a failure unless the
        caller is gone. */
    predicate Fits(id: CallId, joiner: User, outcome: AnswerOutcome) {
      && claim.DidClaim? && claim.id == id && claim.user == joiner && (claim.won ==> claim.ok)
      && if !claim.ok then
           up == [] && outcome == AnswerOver && OneEnd(tail, id, Failure(COULD_NOT_CONNECT))
         else if !claim.won then
           && |up| == 1 && up[0].DidFind? && tail == []
           && outcome == if up[0].row.Some? && up[0].row.value.state == Ringing then AnswerLost else AnswerOver
         else
           Follows(AnswerPlan(id, participant), up) && Ends(id, outcome)
    }

    lemma PartsWent()
      ensures StatementsWent(All()) <==> StatementsWent([claim]) && StatementsWent(up) && StatementsWent(tail)
    {
      WentJoin([claim] + up, tail);
      WentJoin([claim], up);
    }

    /** Media and the 200 are asked for only after a won claim. */
    lemma Asks(id: CallId, joiner: User, outcome: AnswerOutcome, what: Request)
      requires Fits(id, joiner, outcome)
      ensures claim.DidClaim? && (outcome == AnswerLost ==> !claim.won)
      ensures Asked(All(), what) <==> Asked(up, what)
      ensures Asked(up, what) ==> claim == DidClaim(id, joiner, true, true)
    {
      AskedJoin([claim] + up, tail, what);
      AskedJoin([claim], up, what);
    }

    predicate Ends(id: CallId, outcome: AnswerOutcome) {
      if up == AnswerPlan(id, participant) then outcome == AnswerWon && tail == []
      else outcome == AnswerOver && (OneEnd(tail, id, Failure(ReasonFor(up))) || OneEnd(tail, id, Plain))
    }
  }

  // ---- Waiting

  /** A join that was read off its channel, and how it was answered. */
  datatype JoinTrace = JoinTrace(id: CallId, joiner: User, answer: AnswerTrace) {
    function All(): seq<Event> {
      [DidReadJoin(id, joiner)] + answer.All()
    }

    predicate Fits(call: CallId, outcome: AnswerOutcome) {
      id == call && answer.Fits(id, joiner, outcome)
    }

    lemma Asks(outcome: AnswerOutcome, what: Request)
      requires Fits(id, outcome)
      ensures answer.claim.DidClaim? && answer.claim.user == joiner && (outcome == AnswerLost ==> !answer.claim.won)
      ensures Asked(All(), what) <==> Asked(answer.up, what)
      ensures Asked(answer.up, what) ==> answer.claim == DidClaim(id, joiner, true, true)
    {
      answer.Asks(id, joiner, outcome, what);
      AskedJoin([DidReadJoin(id, joiner)], answer.All(), what);
    }

    lemma PartsWent()
      ensures StatementsWent(All()) <==> StatementsWent(answer.All())
    {
      WentJoin([DidReadJoin(id, joiner)], answer.All());
    }
  }

  /** What waitForMatrix did: the join whose claim it lost, if any, and then the join that settled the call, or the end
      that it put to it when it gave up, none if the call had ended already. */
  datatype WaitTrace = WaitTrace(lost: Option<JoinTrace>, taken: Option<JoinTrace>, leave: seq<Event>) {
    function Tries(): seq<Event> {
      (if lost.Some? then lost.value.All() else []) + (if taken.Some? then taken.value.All() else [])
    }

    function All(): seq<Event> {
      Tries() + leave
    }

    lemma PartsWent()
      requires StatementsWent(All())
      ensures StatementsWent(leave) && (taken.Some? ==> StatementsWent(taken.value.answer.All()))
    {
      WentJoin(Tries(), leave);
      WentJoin(if lost.Some? then lost.value.All() else [], if taken.Some? then taken.value.All() else []);
      if taken.Some? {
        taken.value.PartsWent();
      }
    }

    lemma Asks(id: CallId, what: Request)
      requires Fits(id)
      ensures Asked(All(), what) <==> taken.Some? && Asked(taken.value.answer.up, what)
      ensures taken.Some? ==> taken.value.answer.claim.DidClaim?
      ensures Asked(All(), what) ==>
        taken.Some? && taken.value.answer.claim == DidClaim(id, taken.value.joiner, true, true)
    {
      hide AnswerTrace.Fits, JoinTrace.All;
      assert !Asked([], what) && !Asked(leave, what);
      hide Asked;
      var a, b := if lost.Some? then lost.value.All() else [], if taken.Some? then taken.value.All() else [];
      AskedJoin(a + b, leave, what);
      AskedJoin(a, b, what);
      if lost.Some? {
        lost.value.Asks(AnswerLost, what);
      }
      if taken.Some? {
        taken.value.Asks(if taken.value.Fits(id, AnswerWon) then AnswerWon else AnswerOver, what);
      }
    }

    /** The answer that settled the call was no claim that it won. */
    predicate NeverClaimed() {
      taken.Some? && taken.value.answer.claim.DidClaim? && !taken.value.answer.claim.won
    }

    predicate Fits(id: CallId) {
      && (lost.Some? ==> lost.value.Fits(id, AnswerLost))
      && (taken.Some? ==>
            lost.None? && leave == [] && (taken.value.Fits(id, AnswerWon) || taken.value.Fits(id, AnswerOver)))
      && (leave == [] || OneEnd(leave, id, Plain) || OneEnd(leave, id, Declined)
          || OneEnd(leave, id, Failure(BRIDGE_RESTARTED)))
    }
  }

  // ---- Setting a call up

  /** 180, and who the call is for. */
  function LegPlan(recipient: User): seq<Event> {
    [DidRequest(AskRinging, true), DidRecipient(Reachable(recipient))]
  }

  /** The status for a leg that got no further. */
  function RefusalStatus(asks: seq<Event>): nat {
    if |asks| == 2 && asks[1] == DidRecipient(Refused) then 403
    else if |asks| == 2 && asks[1] == DidRecipient(Unknown) then 404
    else 500
  }

  /** The room of the conversation for that user, and its ghost. */
  function RoomRequests(portalId: string, owner: User, room: Room): seq<Event> {
    [DidFindRoom(portalId, owner, room, true), DidRequest(AskGhost, true)]
  }

  function AnnouncePlan(r: CallRow): seq<Event> {
    [DidInsert(r, true), DidRequest(AskMembership, true)]
  }

  function RingPlan(r: CallRow): seq<Event> {
    RoomRequests(r.portalId, r.receiver, r.room) + AnnouncePlan(r)
  }

  /** The ring notification is sent and remembered for the call, or could not be sent. */
  predicate Notified(evs: seq<Event>, id: CallId) {
    evs == [DidRequest(AskNotify, false)]
    || (|evs| == 2 && evs[0] == DidRequest(AskNotify, true) && evs[1].DidRemember? && evs[1].id == id)
  }

  const NO_WAIT := WaitTrace(None, None, [])

  const NO_ROW := CallRow("", "", "", "", NOBODY, Inbound, "", "", "", "", Ringing, 0, 0)

  /** The three channels that the thread of an inbound call waits on. */
  function MakePlan(id: CallId): seq<Event> {
    [DidMake(AnswerChannel, id), DidMake(DeclineChannel, id), DidMake(EndedChannel, id)]
  }

  function DropPlan(id: CallId): seq<Event> {
    [DidDrop(AnswerChannel, id), DidDrop(DeclineChannel, id), DidDrop(EndedChannel, id)]
  }

  /** What HandleInboundCall did for the recipient: the requests for the leg; then, for as long as the channels are
      there, the lookup of a call in progress, the setup of the row with the ring notification or the rollback, and the
      wait. */
  datatype InboundTrace =
    InboundTrace(recipient: User, row: CallRow, asks: seq<Event>, open: seq<Event>, look: seq<Event>, ring: seq<Event>,
                 tail: seq<Event>, wait: WaitTrace, close: seq<Event>) {
    function All(): seq<Event> {
      asks + (open + (look + ring + tail) + wait.All() + close)
    }
  }

  const NO_TRACE := InboundTrace(NOBODY, NO_ROW, [], [], [], [], [], NO_WAIT, [])

  lemma NothingAsked(what: Request)
    ensures NO_TRACE.All() == [] && NO_WAIT.All() == [] && !Asked([], what)
  {
  }

  // ---- Dialling

  function RowPlan(r: CallRow): seq<Event> {
    [DidRequest(AskGhost, true), DidInsert(r, true)]
  }

  function TakeUpPlan(id: CallId, participant: string): seq<Event> {
    [DidTransition(id, true, true)] + MediaPlan(id, participant)
  }

  /** The INVITE, which the end of the call cancels through its channel. */
  function InvitePlan(id: CallId): seq<Event> {
    [DidMake(EndedChannel, id), DidRequest(AskInvite, true), DidDrop(EndedChannel, id)]
  }

  /** What follows a failed step: the channel goes, if it was the INVITE, and the call is ended as failed. */
  predicate FailsAt(up: seq<Event>, tail: seq<Event>, id: CallId) {
    if up != [] && up[|up| - 1] == DidRequest(AskInvite, false) then
      |tail| == 2 && tail[0] == DidDrop(EndedChannel, id) && OneEnd(tail[1..], id, Failure(ReasonFor(up)))
    else OneEnd(tail, id, Failure(ReasonFor(up)))
  }

  function PlacePlan(id: CallId, participant: string): seq<Event> {
    InvitePlan(id) + TakeUpPlan(id, participant)
  }

  /** How a call came to be dialled: somebody joined the session in the room, or asked for it from outside. */
  datatype DialOrigin = RtcJoin | Command

  /** Who asked from outside is rung, if that can be done. */
  predicate Rings(ring: seq<Event>, id: CallId, origin: DialOrigin) {
    if origin == Command then Notified(ring, id) else ring == []
  }

  /** What a dial does once its row is in the table, with the ring notification that it sends, if any. */
  function DialPlan(id: CallId, ring: seq<Event>, participant: string): seq<Event> {
    [DidRequest(AskMembership, true)] + (ring + PlacePlan(id, participant))
  }

  /** The callee answered, but the call had ended. */
  predicate LostDial(ring: seq<Event>, up: seq<Event>, id: CallId) {
    |up| == |ring| + 5 && up[|up| - 1] == DidTransition(id, false, true)
  }

  /** What dial did: the ghost and the row, then the steps up to the media, with the ring notification among them, then
      the end of a call that failed. */
  datatype DialTrace =
    DialTrace(made: CallRow, row: seq<Event>, ring: seq<Event>, participant: string, up: seq<Event>, tail: seq<Event>) {
    function All(): seq<Event> {
      row + up + tail
    }

    predicate Fits(origin: DialOrigin) {
      && Follows(RowPlan(made), row)
      && if row == RowPlan(made) then FitsUp(origin) else up == [] && tail == []
    }

    predicate FitsUp(origin: DialOrigin) {
      var id := made.callId;
      && Follows(DialPlan(id, ring, participant), up) && (if |up| == 1 then ring == [] else Rings(ring, id, origin))
      && if up == DialPlan(id, ring, participant) || LostDial(ring, up, id) then tail == []
         else FailsAt(up, tail, id)
    }

    predicate Placed() {
      row == RowPlan(made) && up == DialPlan(made.callId, ring, participant)
    }
  }

  const NO_DIAL := DialTrace(NO_ROW, [], [], "", [], [])

  // ---- Lemmas

  lemma {:induction false} FollowsAll(plan: seq<Event>)
    ensures Follows(plan, plan)
  {
    if plan != [] {
      FollowsAll(plan[1..]);
    }
  }

  /** A plan that goes on after a part that was gone through. */
  lemma {:induction false} FollowsOn(a: seq<Event>, b: seq<Event>, y: seq<Event>)
    requires Follows(b, y)
    ensures Follows(a + b, a + y)
  {
    if a == [] {
      assert a + b == b && a + y == y;
    } else {
      assert (a + b)[1..] == a[1..] + b && (a + y)[1..] == a[1..] + y;
      FollowsOn(a[1..], b, y);
    }
  }

  /** A part that stopped stops what was to follow. */
  lemma {:induction false} FollowsStop(a: seq<Event>, x: seq<Event>, b: seq<Event>)
    requires Follows(a, x) && x != a
    ensures Follows(a + b, x) && |x| <= |a| && (b != [] ==> x != a + b)
  {
    assert a != [] && (a + b)[0] == a[0] && (a + b)[1..] == a[1..] + b;
    if x[0] == a[0] {
      assert x[1..] != a[1..] by {
        assert a == [a[0]] + a[1..] && x == [x[0]] + x[1..];
      }
      FollowsStop(a[1..], x[1..], b);
    }
  }

  /** One more step. */
  lemma FollowsStep(a: seq<Event>, p: Event, b: seq<Event>, e: Event)
    requires StopsAt(p, e) && e != p
    ensures Follows(a + [p] + b, a + [e])
  {
    assert Follows([p] + b, [e]);
    FollowsOn(a, [p] + b, [e]);
    assert a + ([p] + b) == a + [p] + b;
  }

  /** The last step. */
  lemma OneStepOf(a: seq<Event>, p: Event, e: Event)
    requires e == p || StopsAt(p, e)
    ensures Follows(a + [p], a + [e]) && (a + [e] == a + [p] <==> e == p)
  {
    assert (a + [e])[|a|] == e && (a + [p])[|a|] == p;
    assert Follows([p], [e]);
    FollowsOn(a, [p], [e]);
  }

  lemma SameRest(a: seq<Event>, x: seq<Event>, y: seq<Event>)
    ensures a + x == a + y <==> x == y
  {
    assert (a + x)[|a|..] == x && (a + y)[|a|..] == y;
  }

  /** A dial from the membership on. */
  lemma DialSteps(id: CallId, ring: seq<Event>, participant: string, more: seq<Event>)
    requires Follows(PlacePlan(id, participant), more) && more != []
    ensures var asked := [DidRequest(AskMembership, true)];
            var up := asked + (ring + more);
            && Follows(DialPlan(id, ring, participant), up)
            && (up == DialPlan(id, ring, participant) <==> more == PlacePlan(id, participant))
            && asked <= up && up[1..] == ring + more && up[|up| - 1] == more[|more| - 1]
            && (LostDial(ring, up, id) <==> |more| == 4 && more[3] == DidTransition(id, false, true))
            && ReasonFor(up) == ReasonFor(more)
  {
    hide Follows, PlacePlan;
    var asked := [DidRequest(AskMembership, true)];
    FollowsOn(ring, PlacePlan(id, participant), more);
    FollowsOn(asked, ring + PlacePlan(id, participant), ring + more);
    SameRest(ring, more, PlacePlan(id, participant));
    SameRest(asked, ring + more, ring + PlacePlan(id, participant));
  }

  lemma NoMembership(id: CallId, participant: string)
    ensures var up := [DidRequest(AskMembership, false)];
            Follows(DialPlan(id, [], participant), up) && up != DialPlan(id, [], participant) && !LostDial([], up, id)
            && ReasonFor(up) == COULD_NOT_CONNECT
  {
    hide PlacePlan;
    FollowsFirst(DidRequest(AskMembership, true), [] + PlacePlan(id, participant), DidRequest(AskMembership, false));
  }

  /** A dial from its transition on. */
  lemma TakeUpSteps(id: CallId, participant: string, more: seq<Event>)
    requires Follows(MediaPlan(id, participant), more) && more != []
    ensures var up := [DidTransition(id, true, true)] + more;
            && Follows(TakeUpPlan(id, participant), up)
            && (up == TakeUpPlan(id, participant) <==> more == MediaPlan(id, participant))
            && ReasonFor(up) == ReasonFor(more)
  {
    hide Follows, MediaPlan;
    FollowsOn([DidTransition(id, true, true)], MediaPlan(id, participant), more);
    SameRest([DidTransition(id, true, true)], more, MediaPlan(id, participant));
  }

  lemma NotTakenUp(id: CallId, participant: string, ok: bool)
    ensures var up := [DidTransition(id, false, ok)];
            Follows(TakeUpPlan(id, participant), up) && up != TakeUpPlan(id, participant)
            && ReasonFor(up) == COULD_NOT_CONNECT
  {
    hide MediaPlan;
    FollowsFirst(DidTransition(id, true, true), MediaPlan(id, participant), DidTransition(id, false, ok));
  }

  /** What a won claim leads to: the media, or where it stopped. */
  lemma MediaStopped(id: CallId, participant: string, up: seq<Event>)
    requires Follows(MediaPlan(id, participant), up) && up != MediaPlan(id, participant)
    ensures Follows(AnswerPlan(id, participant), up) && up != AnswerPlan(id, participant) && !Asked(up, AskAnswer)
  {
    FollowsAsks(MediaPlan(id, participant), up, AskAnswer);
    hide Follows, MediaPlan, Asked;
    FollowsStop(MediaPlan(id, participant), up, [DidRequest(AskAnswer, true)]);
  }

  lemma MediaAnswered(id: CallId, participant: string, ok: bool)
    ensures var up := MediaPlan(id, participant) + [DidRequest(AskAnswer, ok)];
            && Follows(AnswerPlan(id, participant), up) && (up == AnswerPlan(id, participant) <==> ok)
            && Asked(up, AskAnswer) && !NoRoute(up)
  {
    hide Follows, MediaPlan;
    OneStepOf(MediaPlan(id, participant), DidRequest(AskAnswer, true), DidRequest(AskAnswer, ok));
    assert DidRequest(AskAnswer, ok) in MediaPlan(id, participant) + [DidRequest(AskAnswer, ok)];
  }

  /** A plan whose first step stopped it. */
  lemma FollowsFirst(p: Event, rest: seq<Event>, e: Event)
    requires StopsAt(p, e) && e != p
    ensures Follows([p] + rest, [e])
  {
  }

  /** A plan of two steps. */
  lemma TwoSteps(p: Event, q: Event, d: Event, e: Event)
    ensures StopsAt(p, d) && d != p ==> Follows([p, q], [d])
    ensures e == q || StopsAt(q, e) ==> Follows([p, q], [p, e])
  {
    assert [p, q][1..] == [q] && [p, e][1..] == [e];
  }

  /** The 200 comes after all of the media. */
  lemma {:induction false} AnswerNeedsMedia(id: CallId, participant: string, up: seq<Event>)
    requires Follows(AnswerPlan(id, participant), up) && Asked(up, AskAnswer)
    ensures MediaPlan(id, participant) <= up
  {
    var rest := [DidRequest(AskAnswer, true)];
    LastAsked(MediaPlan(id, participant), rest, up);
  }

  lemma {:induction false} LastAsked(a: seq<Event>, b: seq<Event>, up: seq<Event>)
    requires Follows(a + b, up) && Asked(up, AskAnswer) && !Asked(a, AskAnswer)
    ensures a <= up
  {
    if a != [] {
      assert (a + b)[0] == a[0] && (a + b)[1..] == a[1..] + b;
      assert forall e :: e in a <==> e == a[0] || e in a[1..];
      assert forall e :: e in up <==> e == up[0] || e in up[1..];
      LastAsked(a[1..], b, up[1..]);
    }
  }

  /** Where the requests for media may stop. */
  lemma MediaStops(id: CallId, participant: string, ok: bool)
    ensures Follows(MediaRequests(id, participant), [DidRequest(AskTrunk, false)])
    ensures Follows(MediaRequests(id, participant), [DidRequest(AskTrunk, true), DidRequest(AskRoom, false)])
    ensures Follows(MediaRequests(id, participant),
                    [DidRequest(AskTrunk, true), DidRequest(AskRoom, true),
                     DidRequest(AskParticipant(id, participant), ok)])
  {
    var trunk, room := DidRequest(AskTrunk, true), DidRequest(AskRoom, true);
    var joins := DidRequest(AskParticipant(id, participant), true);
    FollowsStep([], trunk, [room, joins], DidRequest(AskTrunk, false));
    FollowsStep([trunk], room, [joins], DidRequest(AskRoom, false));
    OneStepOf([trunk, room], joins, DidRequest(AskParticipant(id, participant), ok));
    assert [] + [trunk] + [room, joins] == MediaRequests(id, participant)
      && [trunk] + [room] + [joins] == MediaRequests(id, participant);
    assert [trunk, room] + [joins] == MediaRequests(id, participant);
    assert [] + [DidRequest(AskTrunk, false)] == [DidRequest(AskTrunk, false)];
    assert [trunk] + [DidRequest(AskRoom, false)] == [trunk, DidRequest(AskRoom, false)];
    assert [trunk, room] + [DidRequest(AskParticipant(id, participant), ok)]
      == [trunk, room, DidRequest(AskParticipant(id, participant), ok)];
  }

  /** Only what is planned is asked for. */
  lemma {:induction false} FollowsAsks(plan: seq<Event>, evs: seq<Event>, what: Request)
    requires Follows(plan, evs) && !Asked(plan, what)
    ensures !Asked(evs, what)
  {
    if plan != [] {
      assert forall e :: e in plan <==> e == plan[0] || e in plan[1..];
      assert forall e :: e in evs <==> e == evs[0] || e in evs[1..];
      if evs[0] == plan[0] {
        FollowsAsks(plan[1..], evs[1..], what);
      }
    }
  }

  lemma OneWent(e: Event)
    requires IsStatement(e)
    ensures StatementsWent([e]) <==> Went(e)
  {
    assert e in [e];
  }

  lemma WentJoin(a: seq<Event>, b: seq<Event>)
    ensures StatementsWent(a + b) <==> StatementsWent(a) && StatementsWent(b)
  {
    assert forall e :: e in a + b <==> e in a || e in b;
  }

  lemma AskedJoin(a: seq<Event>, b: seq<Event>, what: Request)
    ensures Asked(a + b, what) <==> Asked(a, what) || Asked(b, what)
  {
  }

  lemma WentAll(a: seq<Event>, b: seq<Event>, c: seq<Event>, d: seq<Event>, e: seq<Event>)
    ensures StatementsWent(a + (b + c + d + e)) <==>
            StatementsWent(a) && StatementsWent(b) && StatementsWent(c) && StatementsWent(d) && StatementsWent(e)
  {
    hide StatementsWent;
    WentJoin(a, b + c + d + e);
    WentJoin(b + c + d, e);
    WentJoin(b + c, d);
    WentJoin(b, c);
  }

  lemma AskedAll(a: seq<Event>, b: seq<Event>, c: seq<Event>, d: seq<Event>, e: seq<Event>, what: Request)
    ensures Asked(a + (b + c + d + e), what) <==>
            Asked(a, what) || Asked(b, what) || Asked(c, what) || Asked(d, what) || Asked(e, what)
  {
    hide Asked;
    AskedJoin(a, b + c + d + e, what);
    AskedJoin(b + c + d, e, what);
    AskedJoin(b + c, d, what);
    AskedJoin(b, c, what);
  }

  lemma Assoc(a: seq<Event>, b: seq<Event>, c: seq<Event>)
    ensures a + b + c == a + (b + c)
  {
  }
}
