/** pkg/siptransport/call.go: the control leg of an inbound call and the order in which finish releases it. */
module Leg {
  import opened Results

  /** Where a thread inside finish is: it has committed to the end of the leg, has cancelled the context, has
      closed the dialog. */
  datatype Releasing = Committed | Cancelled | DialogClosed

  /** closed is what Finished answers; cancelled, that the leg cancelled its context; base, that the transport's
      own context, from which the leg's derives, is cancelled; dones, how often the done channel was closed. */
  datatype LegState = LegState(closed: bool, cancelled: bool, base: bool, dones: nat, inside: map<Tid, Releasing>)

  const FRESH := LegState(false, false, false, 0, map[])

  /** What a select on the context of the call sees. */
  predicate ContextDone(s: LegState) {
    s.cancelled || s.base
  }

  datatype Step = ACommit(t: Tid) | ACancel(t: Tid) | ACloseDialog(t: Tid) | ACloseDone(t: Tid) | ABaseCancel

  predicate At(s: LegState, t: Tid, r: Releasing) {
    t in s.inside && s.inside[t] == r
  }

  predicate Enabled(s: LegState, a: Step) {
    match a
    case ACommit(t) => t !in s.inside
    case ACancel(t) => At(s, t, Committed)
    case ACloseDialog(t) => At(s, t, Cancelled)
    case ACloseDone(t) => At(s, t, DialogClosed)
    case ABaseCancel => true
  }

  function Next(s: LegState, a: Step): LegState
    requires Enabled(s, a)
  {
    match a
    case ACommit(t) => if s.closed then s else s.(closed := true, inside := s.inside[t := Committed])
    case ACancel(t) => s.(cancelled := true, inside := s.inside[t := Cancelled])
    case ACloseDialog(t) => s.(inside := s.inside[t := DialogClosed])
    case ACloseDone(t) => s.(dones := s.dones + 1, inside := s.inside - {t})
    case ABaseCancel => s.(base := true)
  }

  /** One thread at most is inside finish past its first check, and it releases in order. */
  ghost predicate Inv(s: LegState) {
    && (s.inside != map[] ==> s.closed && s.dones == 0)
    && (forall t, u :: t in s.inside && u in s.inside ==> t == u)
    && (forall t :: t in s.inside ==> (s.inside[t] == Committed <==> !s.cancelled))
    && (s.cancelled ==> s.closed)
    && (s.dones > 0 ==> s.dones == 1 && s.cancelled)
  }

  lemma StepKeeps(s: LegState, a: Step)
    requires Inv(s) && Enabled(s, a)
    ensures Inv(Next(s, a))
  {
    if a.ACloseDone? {
      assert forall t :: t in s.inside ==> t == a.t;
    }
  }

  /** What a thread sees of the leg never goes back. */
  ghost predicate Onward(s: LegState, u: LegState) {
    && (s.closed ==> u.closed) && (s.cancelled ==> u.cancelled) && (s.base ==> u.base) && s.dones <= u.dones
  }

  ghost predicate Run(states: seq<LegState>, steps: seq<Step>) {
    && |states| == |steps| + 1 && states[0] == FRESH
    && forall i :: 0 <= i < |steps| ==> Enabled(states[i], steps[i]) && states[i + 1] == Next(states[i], steps[i])
  }

  lemma {:induction false} RunKeeps(states: seq<LegState>, steps: seq<Step>, i: nat)
    requires Run(states, steps) && i < |states|
    ensures Inv(states[i])
  {
    if i > 0 {
      hide Inv, Enabled, Next;
      RunKeeps(states, steps, i - 1);
      StepKeeps(states[i - 1], steps[i - 1]);
    } else {
      assert states[0] == FRESH;
    }
  }

  lemma {:induction false} RunOnward(states: seq<LegState>, steps: seq<Step>, i: nat, j: nat)
    requires Run(states, steps) && i <= j < |states|
    ensures Onward(states[i], states[j])
  {
    if i < j {
      RunOnward(states, steps, i, j - 1);
      assert Enabled(states[j - 1], steps[j - 1]) && states[j] == Next(states[j - 1], steps[j - 1]);
    }
  }

  /** Whoever ends the leg, and however many do at once, done is closed at most once, after the context was
      cancelled, after Finished became true. */
  lemma ReleasedInOrder(states: seq<LegState>, steps: seq<Step>, i: nat)
    requires Run(states, steps) && i < |states|
    ensures states[i].dones <= 1
    ensures states[i].dones > 0 ==> states[i].cancelled
    ensures states[i].cancelled ==> states[i].closed
  {
    RunKeeps(states, steps, i);
  }

  /** A reader that was woken by the context at one time and asks Finished later gets a definite answer: false
      only if it was the transport that went away. */
  lemma WokenNotFinished(states: seq<LegState>, steps: seq<Step>, i: nat, j: nat)
    requires Run(states, steps) && i <= j < |states|
    requires ContextDone(states[i]) && !states[j].closed
    ensures states[i].base
  {
    RunKeeps(states, steps, i);
    RunOnward(states, steps, i, j);
  }

  ghost predicate OthersPath(s: LegState, steps: seq<Step>, u: LegState, t: Tid)
    decreases |steps|
  {
    if steps == [] then u == s
    else
      && Enabled(s, steps[0]) && (steps[0].ABaseCancel? || steps[0].t != t)
      && OthersPath(Next(s, steps[0]), steps[1..], u, t)
  }

  ghost predicate Interleaved(s: LegState, u: LegState, t: Tid) {
    exists steps :: OthersPath(s, steps, u, t)
  }

  lemma {:induction false} OthersKeep(s: LegState, steps: seq<Step>, u: LegState, t: Tid)
    requires Inv(s) && OthersPath(s, steps, u, t)
    ensures Inv(u) && Onward(s, u)
    ensures t in s.inside ==> t in u.inside && u.inside[t] == s.inside[t]
    ensures t !in s.inside ==> t !in u.inside
    decreases |steps|
  {
    if steps != [] {
      StepKeeps(s, steps[0]);
      hide Inv;
      OthersKeep(Next(s, steps[0]), steps[1..], u, t);
    }
  }

  class InboundCall {
    /** The INVITE carries an SDP offer that can be answered. */
    const answerable: bool

    var closed: bool
    var cancelled: bool
    var base: bool
    var dones: nat
    ghost var inside: map<Tid, Releasing>

    /** How often the subsystem called Answer and Reject, and the final responses that were sent. */
    ghost var answers: nat
    ghost var rejects: nat
    ghost var finals: nat
    /** Answer returned nil, and the status of the last Reject. */
    ghost var accepted: bool
    ghost var code: nat

    ghost function View(): LegState
      reads this
    {
      LegState(closed, cancelled, base, dones, inside)
    }

    /** At most one final response, and none before Answer or Reject was called. */
    ghost predicate Valid()
      reads this
    {
      Inv(View()) && finals <= answers + rejects
    }

    /** A BYE, a CANCEL, the end of the transaction or of the transport. */
    method Others(ghost t: Tid)
      requires Valid()
      modifies this`closed, this`cancelled, this`base, this`dones, this`inside
      ensures Valid() && Interleaved(old(View()), View(), t) && Onward(old(View()), View())
      ensures t in old(inside) ==> t in inside && inside[t] == old(inside)[t]
      ensures t !in old(inside) ==> t !in inside
    {
      assert OthersPath(View(), [], View(), t);
    }

    method Finished() returns (r: bool)
      ensures r == closed
    {
      r := closed;
    }

    /** Releases the leg, once. */
    method Finish(ghost t: Tid)
      requires Valid() && t !in inside
      modifies this`closed, this`cancelled, this`base, this`dones, this`inside
      ensures Valid() && t !in inside && closed && Onward(old(View()), View())
      ensures !old(closed) ==> cancelled && dones == 1
    {
      hide Inv, OthersPath, Interleaved;
      StepKeeps(View(), ACommit(t));
      if closed {
        return;
      }
      closed, inside := true, inside[t := Committed];
      Others(t);
      Release(t);
    }

    /** Cancels the context, closes the dialog, closes done. */
    method Release(ghost t: Tid)
      requires Valid() && At(View(), t, Committed) && closed
      modifies this`closed, this`cancelled, this`base, this`dones, this`inside
      ensures Valid() && t !in inside && closed && Onward(old(View()), View()) && cancelled && dones == 1
    {
      hide Inv, OthersPath, Interleaved;
      StepKeeps(View(), ACancel(t));
      cancelled, inside := true, inside[t := Cancelled];
      Others(t);
      StepKeeps(View(), ACloseDialog(t));
      inside := inside[t := DialogClosed];
      Others(t);
      StepKeeps(View(), ACloseDone(t));
      dones, inside := dones + 1, inside - {t};
      DoneOnce(View());
    }

    static lemma DoneOnce(s: LegState)
      requires Inv(s) && s.dones > 0
      ensures s.dones == 1
    {
    }

    /** Reject as the subsystem calls it: a failure status, and the end of the leg. */
    method Reject(ghost t: Tid, status: nat)
      requires Valid() && t !in inside
      modifies this
      ensures Valid() && t !in inside && closed && Onward(old(View()), View())
      ensures rejects == old(rejects) + 1 && answers == old(answers) && finals <= old(finals) + 1
      ensures code == status && accepted == old(accepted)
    {
      code := status;
      var sent: bool := *;
      if sent {
        finals := finals + 1;
      }
      rejects := rejects + 1;
      Finish(t);
    }

    /** 200 with an SDP answer; an offer that cannot be answered is refused with a 488. */
    method Answer(ghost t: Tid) returns (ok: bool)
      requires Valid() && t !in inside
      modifies this
      ensures Valid() && t !in inside && Onward(old(View()), View())
      ensures answers == old(answers) + 1 && rejects == old(rejects) && finals <= old(finals) + 1
      ensures ok ==> answerable && finals == old(finals) + 1
      ensures accepted == (old(accepted) || ok)
      ensures !answerable ==> !ok && closed
    {
      answers := answers + 1;
      var sent: bool := *;
      if sent {
        finals := finals + 1;
      }
      if !answerable {
        Finish(t);
        return false;
      }
      ok := sent;
      accepted := accepted || ok;
    }
  }
}
