/** What a pass of Queue.DeliverPass in pkg/inbound/queue.go leaves of the portals' back-offs: which it keeps, which it
    drops, and what it waits for. */
module PassBackoff {
  import opened Results
  import opened InboundTable
  import opened DeliverPass

  // ---- How far a pass gets

  /** The idle portals before head number n all find a slot. */
  predicate HasRoom(portals: map<Key, PortalState>, sem: nat, heads: seq<Row>, n: nat, now: int)
    requires n <= |heads|
  {
    sem + |IdleHeads(portals, heads, n, now)| <= MAX_PARALLEL
  }

  /** The pass looks at a head of the portal: neither has the context been cancelled before it, nor did the semaphore
      run out. */
  ghost predicate Visits(portals: map<Key, PortalState>, sem: nat, heads: seq<Row>, stop: nat, now: int, k: Key) {
    exists i :: 0 <= i < |heads| && VisitsAt(portals, sem, heads, stop, now, k, i)
  }

  predicate VisitsAt(portals: map<Key, PortalState>, sem: nat, heads: seq<Row>, stop: nat, now: int, k: Key, i: nat)
    requires i < |heads|
  {
    i < stop && HasRoom(portals, sem, heads, i, now) && KeyOf(heads[i].text) == k
  }

  /** The pass finds the context cancelled, and leaves at once. */
  predicate BreaksOff(portals: map<Key, PortalState>, sem: nat, heads: seq<Row>, stop: nat, now: int) {
    stop < |heads| && HasRoom(portals, sem, heads, stop, now)
  }

  lemma Running(portals: map<Key, PortalState>, sem: nat, heads: seq<Row>, n: nat, now: int)
    requires n <= |heads| && sem <= MAX_PARALLEL && OnePerKey(heads)
    ensures VisitAll(Start(portals, sem), heads, n, now).running <==> HasRoom(portals, sem, heads, n, now)
  {
    IdlePortalsStart(portals, sem, heads, n, now);
    assert Reached(portals, sem, heads, n, now);
  }

  // ---- Which states a pass keeps

  /** The state is that of before, but for a delivery that was started. */
  predicate SameBackoff(before: PortalState, after: PortalState) {
    after.failures == before.failures && after.retryAt == before.retryAt
  }

  /** What the loop has done to the portal once it has looked at n heads. */
  ghost predicate Looked(portals: map<Key, PortalState>, sem: nat, heads: seq<Row>, n: nat, now: int, k: Key)
    requires n <= |heads|
  {
    var p := VisitAll(Start(portals, sem), heads, n, now);
    && (k in p.seen <==> Visits(portals, sem, heads, n, now, k))
    && (k in p.seen ==> k in p.portals && SameBackoff(StateOf(portals, k), p.portals[k]))
    && (k !in p.seen ==> (k in p.portals <==> k in portals) && (k in portals ==> p.portals[k] == portals[k]))
  }

  lemma {:induction false} LoopLooks(portals: map<Key, PortalState>, sem: nat, heads: seq<Row>, n: nat, now: int,
                                     k: Key)
    requires n <= |heads| && sem <= MAX_PARALLEL && OnePerKey(heads)
    ensures Looked(portals, sem, heads, n, now, k)
  {
    if n > 0 {
      LoopLooks(portals, sem, heads, n - 1, now, k);
      Running(portals, sem, heads, n - 1, now);
      VisitsMore(portals, sem, heads, n - 1, now, k);
      hide HasRoom, Visits, KeyOf, OnePerKey, BacksOff, Sooner;
    }
  }

  lemma VisitsMore(portals: map<Key, PortalState>, sem: nat, heads: seq<Row>, n: nat, now: int, k: Key)
    requires n < |heads|
    ensures Visits(portals, sem, heads, n + 1, now, k) <==>
            Visits(portals, sem, heads, n, now, k)
            || (HasRoom(portals, sem, heads, n, now) && KeyOf(heads[n].text) == k)
  {
    hide HasRoom, KeyOf;
    if HasRoom(portals, sem, heads, n, now) && KeyOf(heads[n].text) == k {
      assert VisitsAt(portals, sem, heads, n + 1, now, k, n);
    }
    if Visits(portals, sem, heads, n, now, k) {
      var i :| 0 <= i < |heads| && VisitsAt(portals, sem, heads, n, now, k, i);
      assert VisitsAt(portals, sem, heads, n + 1, now, k, i);
    }
    if Visits(portals, sem, heads, n + 1, now, k) {
      var i :| 0 <= i < |heads| && VisitsAt(portals, sem, heads, n + 1, now, k, i);
      assert i < n ==> VisitsAt(portals, sem, heads, n, now, k, i);
    }
  }

  /** The pass goes no further than where it breaks off. */
  lemma VisitsUpTo(portals: map<Key, PortalState>, sem: nat, heads: seq<Row>, stop: nat, now: int, k: Key)
    requires !BreaksOff(portals, sem, heads, stop, now)
    ensures Visits(portals, sem, heads, |heads|, now, k) <==> Visits(portals, sem, heads, stop, now, k)
  {
    hide KeyOf;
    if Visits(portals, sem, heads, |heads|, now, k) {
      var i :| 0 <= i < |heads| && VisitsAt(portals, sem, heads, |heads|, now, k, i);
      if stop <= i {
        FewerIdle(portals, heads, stop, i, now);
      }
      assert VisitsAt(portals, sem, heads, stop, now, k, i);
    }
    if Visits(portals, sem, heads, stop, now, k) {
      var i :| 0 <= i < |heads| && VisitsAt(portals, sem, heads, stop, now, k, i);
      assert VisitsAt(portals, sem, heads, |heads|, now, k, i);
    }
  }

  lemma {:induction false} FewerIdle(portals: map<Key, PortalState>, heads: seq<Row>, a: nat, b: nat, now: int)
    requires a <= b <= |heads|
    ensures |IdleHeads(portals, heads, a, now)| <= |IdleHeads(portals, heads, b, now)|
  {
    if a < b {
      FewerIdle(portals, heads, a, b - 1, now);
    }
  }

  /** What a pass leaves of the state of a portal. If it visits the portal, the failures and the back-off stay as they
      are. If it does not, the state stays while a delivery is in flight, or if the pass broke off; otherwise it is
      gone, and with it the back-off. */
  lemma PassStates(portals: map<Key, PortalState>, sem: nat, heads: seq<Row>, stop: nat, now: int, k: Key)
    requires sem <= MAX_PARALLEL && OnePerKey(heads)
    ensures var after := PassEnd(Start(portals, sem), heads, stop, now).portals;
            if Visits(portals, sem, heads, stop, now, k) then
              k in after && SameBackoff(StateOf(portals, k), after[k])
            else if k in portals && (portals[k].busy || BreaksOff(portals, sem, heads, stop, now)) then
              k in after && after[k] == portals[k]
            else k !in after
  {
    if stop < |heads| {
      Running(portals, sem, heads, stop, now);
    }
    hide KeyOf, OnePerKey, HasRoom, Visits, VisitAll;
    if BreaksOff(portals, sem, heads, stop, now) {
      LoopLooks(portals, sem, heads, stop, now, k);
    } else {
      LoopLooks(portals, sem, heads, |heads|, now, k);
      VisitsUpTo(portals, sem, heads, stop, now, k);
    }
  }

  /** A pass starts no delivery for a portal that is backing off. */
  lemma NoneStarted(portals: map<Key, PortalState>, sem: nat, heads: seq<Row>, stop: nat, now: int, k: Key)
    requires sem <= MAX_PARALLEL && OnePerKey(heads) && BacksOff(StateOf(portals, k), now)
    ensures !Spawned(PassEnd(Start(portals, sem), heads, stop, now), k)
  {
    var p := Start(portals, sem);
    var n := if Cancelled(p, heads, stop, now) then stop else |heads|;
    IdlePortalsStart(portals, sem, heads, n, now);
    assert Reached(portals, sem, heads, n, now);
    hide KeyOf, OnePerKey, VisitAll, Reached, IdleHeads;
    var spawned := PassEnd(p, heads, stop, now).spawned;
    forall i | 0 <= i < |spawned| ensures KeyOf(spawned[i].text) != k {
      AllIdle(portals, heads, n, now, i);
    }
  }

  lemma {:induction false} AllIdle(portals: map<Key, PortalState>, heads: seq<Row>, n: nat, now: int, i: nat)
    requires n <= |heads| && i < |IdleHeads(portals, heads, n, now)|
    ensures Idle(portals, IdleHeads(portals, heads, n, now)[i], now)
  {
    if i < |IdleHeads(portals, heads, n - 1, now)| {
      AllIdle(portals, heads, n - 1, now, i);
    }
  }

  /** The portal whose back-off is lost: all slots are taken, and the pass stops at an idle portal before it. The next
      pass, at the same time, starts its delivery, with no failure on record. */
  lemma BackoffMayBeLost(a: Row, b: Row, st: PortalState, now: int) returns (portals: map<Key, PortalState>)
    requires KeyOf(a.text) != KeyOf(b.text) && !st.busy && st.failures > 0 && BacksOff(st, now)
    ensures portals == map[KeyOf(b.text) := st]
    ensures var first := PassEnd(Start(portals, MAX_PARALLEL), [a, b], 2, now);
            var second := PassEnd(Start(first.portals, MAX_PARALLEL - 1), [b], 1, now);
            second.spawned == [b] && StateOf(second.portals, KeyOf(b.text)).failures == 0
  {
    hide KeyOf;
    portals := map[KeyOf(b.text) := st];
    var p := Start(portals, MAX_PARALLEL);
    assert VisitAll(p, [a, b], 1, now) == Visit(p, a, now);
    assert VisitAll(p, [a, b], 2, now) == Visit(Visit(p, a, now), b, now);
    var first := PassEnd(p, [a, b], 2, now);
    var q := Start(first.portals, MAX_PARALLEL - 1);
    assert VisitAll(q, [b], 1, now) == Visit(q, b, now);
  }

  // ---- What a pass waits for

  /** A back-off that the pass finds at head number i, when it has not ended. */
  predicate Waits(portals: map<Key, PortalState>, sem: nat, heads: seq<Row>, stop: nat, now: int, i: nat)
    requires i < |heads|
  {
    var st := StateOf(portals, KeyOf(heads[i].text));
    i < stop && HasRoom(portals, sem, heads, i, now) && !st.busy && BacksOff(st, now)
  }

  predicate EndsAt(portals: map<Key, PortalState>, sem: nat, heads: seq<Row>, stop: nat, now: int, i: nat, at: int)
    requires i < |heads|
  {
    Waits(portals, sem, heads, stop, now, i) && at == StateOf(portals, KeyOf(heads[i].text)).retryAt.value
  }

  /** The soonest end of a back-off among the first n heads, none exactly if there is none. */
  ghost predicate IsSoonest(portals: map<Key, PortalState>, sem: nat, heads: seq<Row>, n: nat, now: int, s: Option<int>)
    requires n <= |heads|
  {
    && (forall i :: 0 <= i < n && Waits(portals, sem, heads, n, now, i) ==>
          s.Some? && s.value <= StateOf(portals, KeyOf(heads[i].text)).retryAt.value)
    && (s.Some? ==> now < s.value && exists i :: 0 <= i < n && EndsAt(portals, sem, heads, n, now, i, s.value))
  }

  lemma {:induction false} LoopWaits(portals: map<Key, PortalState>, sem: nat, heads: seq<Row>, n: nat, now: int)
    requires n <= |heads| && sem <= MAX_PARALLEL && OnePerKey(heads)
    ensures IsSoonest(portals, sem, heads, n, now, VisitAll(Start(portals, sem), heads, n, now).soonest)
  {
    if n > 0 {
      LoopWaits(portals, sem, heads, n - 1, now);
      IdlePortalsStart(portals, sem, heads, n - 1, now);
      assert Reached(portals, sem, heads, n - 1, now);
      SoonestMore(portals, sem, heads, n - 1, now, VisitAll(Start(portals, sem), heads, n - 1, now));
    }
  }

  lemma SoonestMore(portals: map<Key, PortalState>, sem: nat, heads: seq<Row>, n: nat, now: int, p: Progress)
    requires n < |heads| && IsSoonest(portals, sem, heads, n, now, p.soonest)
    requires p.running <==> HasRoom(portals, sem, heads, n, now)
    requires p.running ==> StateOf(p.portals, KeyOf(heads[n].text)) == StateOf(portals, KeyOf(heads[n].text))
    ensures IsSoonest(portals, sem, heads, n + 1, now, Visit(p, heads[n], now).soonest)
  {
    hide HasRoom, KeyOf, StateOf;
    var q := Visit(p, heads[n], now);
    assert forall i :: 0 <= i < n ==>
      Waits(portals, sem, heads, n + 1, now, i) == Waits(portals, sem, heads, n, now, i);
    if q.soonest.Some? && q.soonest != p.soonest {
      assert EndsAt(portals, sem, heads, n + 1, now, n, q.soonest.value);
    } else if q.soonest.Some? {
      var i :| 0 <= i < n && EndsAt(portals, sem, heads, n, now, i, p.soonest.value);
      assert EndsAt(portals, sem, heads, n + 1, now, i, p.soonest.value);
    }
  }

  /** What a pass returns: the time to the soonest end of a back-off that it has come across, and a negative time if it
      has come across none or broke off. */
  lemma PassWaits(portals: map<Key, PortalState>, sem: nat, heads: seq<Row>, stop: nat, now: int)
    requires sem <= MAX_PARALLEL && OnePerKey(heads)
    ensures var wait := PassWait(Start(portals, sem), heads, stop, now);
            if BreaksOff(portals, sem, heads, stop, now) then wait < 0
            else if wait < 0 then IsSoonest(portals, sem, heads, |heads|, now, None)
            else wait > 0 && IsSoonest(portals, sem, heads, |heads|, now, Some(now + wait))
  {
    if stop < |heads| {
      Running(portals, sem, heads, stop, now);
    }
    LoopWaits(portals, sem, heads, |heads|, now);
    hide KeyOf, OnePerKey, HasRoom, VisitAll, IsSoonest;
    assert forall s: int :: IsSoonest(portals, sem, heads, |heads|, now, Some(s)) ==> now < s by {
      SoonestLater(portals, sem, heads, |heads|, now);
    }
  }

  lemma SoonestLater(portals: map<Key, PortalState>, sem: nat, heads: seq<Row>, n: nat, now: int)
    requires n <= |heads|
    ensures forall s: int :: IsSoonest(portals, sem, heads, n, now, Some(s)) ==> now < s
  {
  }
}
