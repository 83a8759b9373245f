/** A portal that backs off, in all runs of the queue. */
module BackoffRuns {
  import opened Results
  import opened Text
  import opened InboundTable
  import opened SpoolDisk
  import opened DeliverPass
  import opened PassBackoff
  import opened QueueProtocol
  import opened QueueFiles
  import opened QueueRuns

  /** Login IDs hold no NUL, as in every batch of heads then no two rows share a key. */
  ghost predicate PlainLogins(s: Sys) {
    forall r :: r in s.inserted ==> NoNul(r.text.loginId)
  }

  ghost predicate SnapshotsPerKey(s: Sys) {
    forall t :: t in s.snapshots ==> OnePerKey(s.snapshots[t])
  }

  lemma StepSnapshots(s: Sys, a: Step)
    requires Inv(s) && SnapshotsPerKey(s) && PlainLogins(s) && Enabled(s, a)
    ensures SnapshotsPerKey(Next(s, a))
  {
    OnlyNoted(s, a);
    hide OnePerKey, PlainLogins, Inv, Next;
    if a.AReadHeads? {
      ReadSnapshot(s, a);
    } else {
      SameSnapshots(s, a);
    }
    hide Effect, Enabled;
  }

  lemma ReadSnapshot(s: Sys, a: Step)
    requires a.AReadHeads? && Inv(s) && SnapshotsPerKey(s) && PlainLogins(s) && Enabled(s, a)
    ensures SnapshotsPerKey(Effect(s, a))
  {
    RowsPlain(s);
    HeadsOnePerKey(s.table, a.limit);
    hide OnePerKey, Heads, PlainLogins, Inv;
  }

  lemma RowsPlain(s: Sys)
    requires Inv(s) && PlainLogins(s)
    ensures Ordered(s.table) && forall r :: r in s.table ==> NoNul(r.text.loginId)
  {
  }

  lemma SameSnapshots(s: Sys, a: Step)
    requires Enabled(s, a) && !a.AReadHeads?
    ensures forall t :: t in Effect(s, a).snapshots ==> t in s.snapshots && Effect(s, a).snapshots[t] == s.snapshots[t]
  {
    hide Deleted, InsertText, InMatrix, StateOf, Settled, Readable, CanDo, Harmless, Ordered, IsSpoolStep, PassEnd,
         AddFlights, Fresh;
  }

  lemma {:induction false} RunSnapshots(states: seq<Sys>, steps: seq<Step>, i: nat)
    requires Run(states, steps) && i < |states| && forall s :: s in states ==> PlainLogins(s)
    ensures SnapshotsPerKey(states[i])
  {
    hide Inv, Enabled, Next, PlainLogins;
    if i > 0 {
      RunSnapshots(states, steps, i - 1);
      RunKeeps(states, steps, i - 1);
      assert states[i - 1] in states;
      hide SnapshotsPerKey;
      StepSnapshots(states[i - 1], steps[i - 1]);
    }
  }

  /** The portal is idle and waits for its retry. */
  predicate Backing(s: Sys, k: Key, st: PortalState) {
    k in s.portals && s.portals[k] == st && !st.busy && st.retryAt.Some?
  }

  /** The step does not reach the end of the portal's back-off, nor lose it: a pass comes before its time, and visits
      the portal or breaks off; the process goes on. */
  ghost predicate Spares(s: Sys, a: Step, k: Key, st: PortalState) {
    match a
    case ARunPass(t, now, stop, _) =>
      && t in s.snapshots && BacksOff(st, now)
      && (Visits(s.portals, s.sem, s.snapshots[t], stop, now, k)
          || BreaksOff(s.portals, s.sem, s.snapshots[t], stop, now))
    case ARestart(_) => false
    case _ => true
  }

  lemma StepBacks(s: Sys, a: Step, k: Key, st: PortalState)
    requires Inv(s) && SnapshotsPerKey(s) && Enabled(s, a) && Backing(s, k, st) && Spares(s, a, k, st)
    ensures Backing(Next(s, a), k, st)
  {
    OnlyNoted(s, a);
    if a.ARunPass? {
      PassBacks(s, a, k, st);
    } else if a.ASettle? {
      SettleBacks(s, a, k);
    } else {
      SamePortals(s, a);
    }
    hide Next, Enabled, Effect, Inv;
  }

  lemma PassBacks(s: Sys, a: Step, k: Key, st: PortalState)
    requires Inv(s) && SnapshotsPerKey(s) && a.ARunPass? && Enabled(s, a) && Backing(s, k, st) && Spares(s, a, k, st)
    ensures Backing(Effect(s, a), k, st)
  {
    var heads := s.snapshots[a.t];
    hide OnePerKey, Visits, BreaksOff, PassEnd, BacksOff, DataInv, OrderInv, FiledInv;
    assert s.sem <= MAX_PARALLEL && OnePerKey(heads);
    PassStates(s.portals, s.sem, heads, a.stop, a.now, k);
    NoneStarted(s.portals, s.sem, heads, a.stop, a.now, k);
    PassStarts(s.portals, s.sem, heads, a.stop, a.now);
    hide Spawned, FlightInv;
  }

  lemma SettleBacks(s: Sys, a: Step, k: Key)
    requires Inv(s) && a.ASettle? && Enabled(s, a) && k in s.portals && !s.portals[k].busy
    ensures k in Effect(s, a).portals && Effect(s, a).portals[k] == s.portals[k]
  {
    hide DataInv, OrderInv, FiledInv;
    assert Holds(s, a.t, s.flights[a.t].key);
    assert StateOf(s.portals, s.flights[a.t].key).busy;
  }

  lemma SamePortals(s: Sys, a: Step)
    requires Enabled(s, a) && !a.ARunPass? && !a.ASettle? && !a.ARestart?
    ensures Effect(s, a).portals == s.portals
  {
    hide Deleted, InsertText, InMatrix, StateOf, Settled, Readable, CanDo, Harmless, Ordered, IsSpoolStep, PassEnd,
         AddFlights, Fresh, Heads;
  }

  /** A portal that backs off keeps its failures and its time, and no delivery for it is in flight, as long as
      every pass that comes before that time visits it or breaks off, whatever else is delivered, fails and
      settles meanwhile. */
  lemma {:induction false} BackoffHolds(states: seq<Sys>, steps: seq<Step>, i: nat, j: nat, k: Key, st: PortalState)
    requires Run(states, steps) && i <= j < |states| && (forall s :: s in states ==> PlainLogins(s))
    requires Backing(states[i], k, st) && forall l :: i <= l < j ==> Spares(states[l], steps[l], k, st)
    ensures Backing(states[j], k, st) && forall t :: !Holds(states[j], t, k)
  {
    hide Inv, Enabled, Next, PlainLogins, Spares, Backing;
    RunKeeps(states, steps, j);
    if i < j {
      BackoffHolds(states, steps, i, j - 1, k, st);
      RunKeeps(states, steps, j - 1);
      RunSnapshots(states, steps, j - 1);
      StepBacks(states[j - 1], steps[j - 1], k, st);
    }
    NobodyHolds(states[j], k, st);
  }

  lemma NobodyHolds(s: Sys, k: Key, st: PortalState)
    requires Inv(s) && Backing(s, k, st)
    ensures forall t :: !Holds(s, t, k)
  {
    hide DataInv, OrderInv, FiledInv;
    assert !StateOf(s.portals, k).busy;
  }
}
