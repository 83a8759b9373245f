/** The mutex-guarded half of Queue.DeliverPass in pkg/inbound/queue.go: which deliveries a pass starts. */
module DeliverPass {
  import opened Results
  import opened Text
  import opened InboundTable

  const MAX_PARALLEL := 8

  type Key = string

  /** The key of a portal's delivery state. */
  function KeyOf(t: Sms): Key {
    t.loginId + "\0" + t.portalId
  }

  /** A portal's delivery state; retryAt is None for the zero time. */
  datatype PortalState = PortalState(busy: bool, failures: nat, retryAt: Option<int>)

  const IDLE := PortalState(false, 0, None)

  /** The locals of the loop over the heads. A pass stops running when the semaphore is full. */
  datatype Progress = Progress(portals: map<Key, PortalState>, sem: nat, seen: set<Key>, spawned: seq<Row>,
                               soonest: Option<int>, running: bool)

  function Start(portals: map<Key, PortalState>, sem: nat): Progress {
    Progress(portals, sem, {}, [], None, true)
  }

  function Sooner(a: Option<int>, b: int): Option<int> {
    if a.None? || b < a.value then Some(b) else a
  }

  predicate BacksOff(st: PortalState, now: int) {
    st.retryAt.Some? && now < st.retryAt.value
  }

  function StateOf(portals: map<Key, PortalState>, key: Key): PortalState {
    if key in portals then portals[key] else IDLE
  }

  /** One head. */
  function Visit(p: Progress, row: Row, now: int): Progress {
    if !p.running then p
    else
      var key := KeyOf(row.text);
      var st := StateOf(p.portals, key);
      var q := p.(portals := p.portals[key := st], seen := p.seen + {key});
      if st.busy then q
      else if BacksOff(st, now) then q.(soonest := Sooner(q.soonest, st.retryAt.value))
      else if MAX_PARALLEL <= q.sem then q.(running := false)
      else q.(portals := q.portals[key := st.(busy := true)], sem := q.sem + 1, spawned := q.spawned + [row])
  }

  /** The first n heads. */
  function VisitAll(p: Progress, heads: seq<Row>, n: nat, now: int): Progress
    requires n <= |heads|
  {
    if n == 0 then p else Visit(VisitAll(p, heads, n - 1, now), heads[n - 1], now)
  }

  /** The context is found cancelled at head number stop, if the pass gets that far. */
  predicate Cancelled(p: Progress, heads: seq<Row>, stop: nat, now: int) {
    stop < |heads| && VisitAll(p, heads, stop, now).running
  }

  /** Drops the state of portals that were not visited and have no delivery in flight. */
  function Prune(portals: map<Key, PortalState>, seen: set<Key>): map<Key, PortalState> {
    map k | k in portals && (k in seen || portals[k].busy) :: portals[k]
  }

  /** The state after the pass. */
  function PassEnd(p: Progress, heads: seq<Row>, stop: nat, now: int): Progress {
    if Cancelled(p, heads, stop, now) then VisitAll(p, heads, stop, now)
    else
      var q := VisitAll(p, heads, |heads|, now);
      q.(portals := Prune(q.portals, q.seen))
  }

  /** What the pass returns: how long until the next backoff ends, negative if nothing is scheduled. */
  function PassWait(p: Progress, heads: seq<Row>, stop: nat, now: int): int {
    var q := PassEnd(p, heads, stop, now);
    if Cancelled(p, heads, stop, now) || q.soonest.None? then -1
    else if q.soonest.value - now < 0 then 0
    else q.soonest.value - now
  }

  ghost predicate Spawned(p: Progress, k: Key) {
    exists i :: 0 <= i < |p.spawned| && KeyOf(p.spawned[i].text) == k
  }

  /** What a pass keeps: it marks busy exactly the portals it starts a delivery for, one delivery each, and
      takes one slot of the semaphore for each. */
  ghost predicate Starts(before: map<Key, PortalState>, sem: nat, p: Progress) {
    && p.sem == sem + |p.spawned| && (sem <= MAX_PARALLEL ==> p.sem <= MAX_PARALLEL)
    && (forall i :: 0 <= i < |p.spawned| ==> !StateOf(before, KeyOf(p.spawned[i].text)).busy)
    && (forall i, j :: 0 <= i < j < |p.spawned| ==> KeyOf(p.spawned[i].text) != KeyOf(p.spawned[j].text))
    && (forall k :: StateOf(p.portals, k).busy <==>
                    StateOf(before, k).busy || Spawned(p, k))
  }

  lemma SpawnedMore(p: Progress, q: Progress, row: Row)
    requires q.spawned == p.spawned + [row]
    ensures forall k :: Spawned(q, k) <==> Spawned(p, k) || k == KeyOf(row.text)
  {
    forall k | Spawned(p, k) ensures Spawned(q, k) {
      var i :| 0 <= i < |p.spawned| && KeyOf(p.spawned[i].text) == k;
      assert q.spawned[i] == p.spawned[i];
    }
    assert q.spawned[|p.spawned|] == row;
  }

  lemma VisitStarts(before: map<Key, PortalState>, sem: nat, p: Progress, row: Row, now: int)
    requires Starts(before, sem, p)
    ensures Starts(before, sem, Visit(p, row, now))
  {
    var q := Visit(p, row, now);
    if q.spawned != p.spawned {
      SpawnedMore(p, q, row);
      assert forall i :: 0 <= i < |p.spawned| ==> Spawned(p, KeyOf(p.spawned[i].text));
    } else {
      assert forall k :: Spawned(q, k) == Spawned(p, k);
    }
  }

  lemma {:induction false} VisitAllStarts(portals: map<Key, PortalState>, sem: nat, heads: seq<Row>, n: nat, now: int)
    requires n <= |heads|
    ensures var p := VisitAll(Start(portals, sem), heads, n, now);
            && Starts(portals, sem, p)
            && forall r :: r in p.spawned ==> r in heads
  {
    if n > 0 {
      VisitAllStarts(portals, sem, heads, n - 1, now);
      VisitStarts(portals, sem, VisitAll(Start(portals, sem), heads, n - 1, now), heads[n - 1], now);
    }
  }

  lemma PassStarts(portals: map<Key, PortalState>, sem: nat, heads: seq<Row>, stop: nat, now: int)
    ensures var p := PassEnd(Start(portals, sem), heads, stop, now);
            && Starts(portals, sem, p)
            && forall r :: r in p.spawned ==> r in heads
  {
    if Cancelled(Start(portals, sem), heads, stop, now) {
      VisitAllStarts(portals, sem, heads, stop, now);
    } else {
      VisitAllStarts(portals, sem, heads, |heads|, now);
      var q := VisitAll(Start(portals, sem), heads, |heads|, now);
      assert forall k :: StateOf(Prune(q.portals, q.seen), k).busy == StateOf(q.portals, k).busy;
    }
  }

  predicate Idle(portals: map<Key, PortalState>, row: Row, now: int) {
    var st := StateOf(portals, KeyOf(row.text));
    !st.busy && !BacksOff(st, now)
  }

  ghost predicate OnePerKey(heads: seq<Row>) {
    forall i, j :: 0 <= i < |heads| && 0 <= j < |heads| && i != j ==> KeyOf(heads[i].text) != KeyOf(heads[j].text)
  }

  /** Two portals share a key only if they are one, as long as login IDs hold no NUL. */
  lemma KeyOfPortal(a: Sms, b: Sms)
    requires NoNul(a.loginId) && NoNul(b.loginId)
    ensures KeyOf(a) == KeyOf(b) <==> PortalOf(a) == PortalOf(b)
  {
    if KeyOf(a) == KeyOf(b) {
      CutAtNul(a.loginId, a.portalId, b.loginId, b.portalId);
    }
  }

  /** A batch of heads has one row per key. */
  lemma HeadsOnePerKey(t: set<Row>, limit: nat)
    requires Ordered(t) && forall r :: r in t ==> NoNul(r.text.loginId)
    ensures OnePerKey(Heads(t, limit))
  {
    var hs := Heads(t, limit);
    HeadsInOrder(t, limit);
    HeadsAreHeads(t, limit);
    HeadsOfDistinctPortals(t, hs);
    hide Heads, InOrder, IsHead, KeyOf, NoNul;
    forall i, j | 0 <= i < |hs| && 0 <= j < |hs| && i != j ensures KeyOf(hs[i].text) != KeyOf(hs[j].text) {
      assert hs[i] in t && hs[j] in t;
      KeyOfPortal(hs[i].text, hs[j].text);
      assert if i < j then PortalOf(hs[i].text) != PortalOf(hs[j].text)
        else PortalOf(hs[j].text) != PortalOf(hs[i].text);
    }
  }

  /** The first n heads whose portal is idle and not backing off. */
  function IdleHeads(portals: map<Key, PortalState>, heads: seq<Row>, n: nat, now: int): seq<Row>
    requires n <= |heads|
  {
    if n == 0 then []
    else IdleHeads(portals, heads, n - 1, now) + if Idle(portals, heads[n - 1], now) then [heads[n - 1]] else []
  }

  lemma VisitWithRoom(p: Progress, row: Row, now: int)
    requires p.running
    ensures var q := Visit(p, row, now);
            && (forall k :: k != KeyOf(row.text) ==> StateOf(q.portals, k) == StateOf(p.portals, k))
            && (if !Idle(p.portals, row, now) then q.running && q.sem == p.sem && q.spawned == p.spawned
                else if p.sem < MAX_PARALLEL then q.running && q.sem == p.sem + 1 && q.spawned == p.spawned + [row]
                else !q.running && q.sem == p.sem && q.spawned == p.spawned)
  {
  }

  /** What the first n heads leave: while the pass goes on, the state of the portals behind them is as it was. */
  ghost predicate Reached(portals: map<Key, PortalState>, sem: nat, heads: seq<Row>, n: nat, now: int)
    requires n <= |heads| && sem <= MAX_PARALLEL
  {
    var p := VisitAll(Start(portals, sem), heads, n, now);
    var idle := IdleHeads(portals, heads, n, now);
    if sem + |idle| <= MAX_PARALLEL then
      && p.running && p.sem == sem + |idle| && p.spawned == idle
      && forall i :: n <= i < |heads| ==>
           StateOf(p.portals, KeyOf(heads[i].text)) == StateOf(portals, KeyOf(heads[i].text))
    else
      !p.running && p.sem == MAX_PARALLEL && p.spawned == idle[..MAX_PARALLEL - sem]
  }

  /** A pass starts the heads of exactly the portals that are idle and not backing off, in the order of the heads,
      as far as there is room; it runs out of room exactly if not all fit. A stuck or failing portal holds back
      only itself. */
  lemma {:induction false} IdlePortalsStart(portals: map<Key, PortalState>, sem: nat, heads: seq<Row>, n: nat, now: int)
    requires n <= |heads| && sem <= MAX_PARALLEL && OnePerKey(heads)
    ensures Reached(portals, sem, heads, n, now)
  {
    if n > 0 {
      IdlePortalsStart(portals, sem, heads, n - 1, now);
      var p := VisitAll(Start(portals, sem), heads, n - 1, now);
      if p.running {
        VisitWithRoom(p, heads[n - 1], now);
      }
      hide Visit, KeyOf, StateOf;
    }
  }
}
