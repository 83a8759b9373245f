/** pkg/database/inbound.go: the outbox table of texts accepted from SIP. */
module InboundTable {
  /** The columns of a text that do not change between SIP and Matrix. */
  datatype Sms = Sms(uid: string, loginId: string, portalId: string, sender: string, recipient: string,
                       body: string, line: string)

  /** An int64 of nanoseconds since 1970, as the clock of a received text gives. */
  type Nanos = n: int | 0 <= n < 0x8000_0000_0000_0000

  /** A text with the time it was received. */
  datatype Message = Message(text: Sms, receivedNs: Nanos)

  /** A row of the table, which keeps the time in milliseconds. */
  datatype Row = Row(id: int, text: Sms, receivedMs: int)

  type Portal = (string, string)

  function UnixMilli(ns: int): int {
    ns / 1_000_000
  }

  /** The millisecond that the nanosecond falls into. */
  lemma MillisecondOf(ns: int)
    ensures UnixMilli(ns) * 1_000_000 <= ns < (UnixMilli(ns) + 1) * 1_000_000
  {
  }

  function PortalOf(t: Sms): Portal {
    (t.loginId, t.portalId)
  }

  /** Delivery order: receive time, then row id. */
  predicate Before(a: Row, b: Row) {
    a.receivedMs < b.receivedMs || (a.receivedMs == b.receivedMs && a.id < b.id)
  }

  /** The primary key and the UNIQUE constraint on uid. */
  ghost predicate Keyed(t: set<Row>) {
    && (forall a, b :: a in t && b in t && a.id == b.id ==> a == b)
    && (forall a, b :: a in t && b in t && a.text.uid == b.text.uid ==> a == b)
  }

  predicate HasUID(t: set<Row>, uid: string) {
    exists r :: r in t && r.text.uid == uid
  }

  /** INSERT ... ON CONFLICT (uid) DO NOTHING, given the id the sequence yields. */
  function Inserted(t: set<Row>, m: Message, id: int): set<Row> {
    if HasUID(t, m.text.uid) then t else t + {Row(id, m.text, UnixMilli(m.receivedNs))}
  }

  function Deleted(t: set<Row>, id: int): set<Row> {
    set r | r in t && r.id != id
  }

  /** NOT EXISTS (an earlier row of the same portal). */
  predicate IsHead(t: set<Row>, m: Row) {
    m in t && forall o :: o in t && PortalOf(o.text) == PortalOf(m.text) ==> !Before(o, m)
  }

  function Minima(t: set<Row>): set<Row> {
    set m | m in t && IsHead(t, m)
  }

  /** The distinct ids make Before a total order on the rows of a table. */
  predicate Ordered(t: set<Row>) {
    forall a, b :: a in t && b in t && a.id == b.id ==> a == b
  }

  predicate IsLeast(t: set<Row>, m: Row) {
    m in t && forall o :: o in t && o != m ==> Before(m, o)
  }

  lemma {:induction false} LeastExists(t: set<Row>) returns (m: Row)
    requires t != {} && Ordered(t)
    ensures IsLeast(t, m)
    decreases |t|
  {
    var x :| x in t;
    var rest := t - {x};
    m := x;
    if rest != {} {
      var k := LeastExists(rest);
      if Before(k, x) {
        m := k;
      }
      forall o | o in t && o != m ensures Before(m, o) {
        assert o == x || o in rest;
      }
    }
  }

  function Least(t: set<Row>): (m: Row)
    requires t != {} && Ordered(t)
    ensures IsLeast(t, m)
  {
    assert exists m :: IsLeast(t, m) by { var m := LeastExists(t); }
    var m :| IsLeast(t, m);
    m
  }

  /** ORDER BY received_at, id. */
  function Sorted(t: set<Row>): (s: seq<Row>)
    requires Ordered(t)
    ensures |s| == |t| && forall r :: r in s <==> r in t
    decreases |t|
  {
    if t == {} then []
    else
      var m := Least(t);
      assert t == (t - {m}) + {m};
      [m] + Sorted(t - {m})
  }

  /** The earliest row of each portal, up to limit of them, earliest first. */
  function Heads(t: set<Row>, limit: nat): seq<Row>
    requires Ordered(t)
  {
    var s := Sorted(Minima(t));
    s[..if limit < |s| then limit else |s|]
  }

  ghost predicate InOrder(s: seq<Row>) {
    forall i, j :: 0 <= i < j < |s| ==> Before(s[i], s[j])
  }

  lemma InOrderCons(m: Row, s: seq<Row>)
    requires InOrder(s) && forall r :: r in s ==> Before(m, r)
    ensures InOrder([m] + s)
  {
  }

  lemma {:induction false} SortedInOrder(t: set<Row>)
    requires Ordered(t)
    ensures InOrder(Sorted(t))
    decreases |t|
  {
    if t != {} {
      hide InOrder, Before;
      var m := Least(t);
      SortedInOrder(t - {m});
      InOrderCons(m, Sorted(t - {m}));
    }
  }

  ghost function Portals(t: set<Row>): set<Portal> {
    set r | r in t :: PortalOf(r.text)
  }

  /** Every portal with a waiting row has exactly one head. */
  lemma OneHeadPerPortal(t: set<Row>, p: Portal)
    requires Ordered(t) && p in Portals(t)
    ensures exists m :: m in Minima(t) && PortalOf(m.text) == p
    ensures forall a, b :: a in Minima(t) && b in Minima(t) && PortalOf(a.text) == p && PortalOf(b.text) == p ==> a == b
  {
    var mine := set r | r in t && PortalOf(r.text) == p;
    var r :| r in t && PortalOf(r.text) == p;
    assert r in mine;
    var m := LeastExists(mine);
    forall o | o in t && PortalOf(o.text) == PortalOf(m.text) ensures !Before(o, m) {
      assert o in mine;
    }
    assert m in Minima(t);
  }

  lemma {:induction false} HeadsCount(t: set<Row>, ms: set<Row>)
    requires Ordered(t) && ms <= Minima(t)
    ensures |ms| == |Portals(ms)|
    decreases |ms|
  {
    if ms != {} {
      var m :| m in ms;
      var rest := ms - {m};
      HeadsCount(t, rest);
      assert PortalOf(m.text) in Portals(t);
      OneHeadPerPortal(t, PortalOf(m.text));
      assert PortalOf(m.text) !in Portals(rest);
      assert Portals(ms) == Portals(rest) + {PortalOf(m.text)} by {
        assert ms == rest + {m};
      }
    }
  }

  lemma AllPortalsHaveHeads(t: set<Row>)
    requires Ordered(t)
    ensures Portals(Minima(t)) == Portals(t) && |Minima(t)| == |Portals(t)|
  {
    forall p | p in Portals(t) ensures p in Portals(Minima(t)) {
      OneHeadPerPortal(t, p);
    }
    HeadsCount(t, Minima(t));
  }

  /** What the worker reads is one row per portal, that portal's earliest, for the portals whose earliest row
      is earliest: they come in order, and portals are left out only for lack of room. */
  ghost predicate IsHeads(t: set<Row>, limit: nat, hs: seq<Row>) {
    && InOrder(hs)
    && |hs| == (if limit < |Portals(t)| then limit else |Portals(t)|)
    && (forall i :: 0 <= i < |hs| ==> IsHead(t, hs[i]))
    && (forall m, i :: IsHead(t, m) && m !in hs && 0 <= i < |hs| ==> Before(hs[i], m))
  }

  /** The first n of an ordered sequence come before the others. */
  lemma TakenBeforeLeft(s: seq<Row>, n: nat, m: Row)
    requires InOrder(s) && n <= |s| && m in s && m !in s[..n]
    ensures forall i :: 0 <= i < n ==> Before(s[i], m)
  {
    assert s == s[..n] + s[n..];
    var k :| 0 <= k < |s[n..]| && s[n..][k] == m;
    assert s[n + k] == m;
  }

  lemma HeadsInOrder(t: set<Row>, limit: nat)
    requires Ordered(t)
    ensures InOrder(Heads(t, limit)) && |Heads(t, limit)| == if limit < |Portals(t)| then limit else |Portals(t)|
  {
    SortedInOrder(Minima(t));
    AllPortalsHaveHeads(t);
  }

  lemma HeadsAreHeads(t: set<Row>, limit: nat)
    requires Ordered(t)
    ensures forall r :: r in Heads(t, limit) ==> r in t && IsHead(t, r)
  {
    assert forall r :: r in Heads(t, limit) ==> r in Sorted(Minima(t));
  }

  lemma LeftOutLater(t: set<Row>, limit: nat, m: Row)
    requires Ordered(t) && IsHead(t, m) && m !in Heads(t, limit)
    ensures var hs := Heads(t, limit); forall i :: 0 <= i < |hs| ==> Before(hs[i], m)
  {
    var s := Sorted(Minima(t));
    SortedInOrder(Minima(t));
    assert m in Minima(t);
    TakenBeforeLeft(s, |Heads(t, limit)|, m);
  }

  lemma HeadsAreFirstMinima(t: set<Row>, limit: nat)
    requires Ordered(t)
    ensures IsHeads(t, limit, Heads(t, limit))
  {
    HeadsInOrder(t, limit);
    HeadsAreHeads(t, limit);
    hide Heads, IsHead, InOrder, Before;
    forall m, i | IsHead(t, m) && m !in Heads(t, limit) && 0 <= i < |Heads(t, limit)|
      ensures Before(Heads(t, limit)[i], m)
    {
      LeftOutLater(t, limit, m);
    }
  }

  /** No portal is in a batch twice. */
  lemma HeadsOfDistinctPortals(t: set<Row>, hs: seq<Row>)
    requires Ordered(t) && InOrder(hs) && forall i :: 0 <= i < |hs| ==> IsHead(t, hs[i])
    ensures forall i, j :: 0 <= i < j < |hs| ==> PortalOf(hs[i].text) != PortalOf(hs[j].text)
  {
    forall i, j | 0 <= i < j < |hs| ensures PortalOf(hs[i].text) != PortalOf(hs[j].text) {
      assert IsHead(t, hs[i]) && IsHead(t, hs[j]) && Before(hs[i], hs[j]);
    }
  }

  /** Those properties leave no other answer. */
  lemma HeadsAreUnique(t: set<Row>, limit: nat, hs: seq<Row>)
    requires Ordered(t) && IsHeads(t, limit, hs)
    ensures hs == Heads(t, limit)
  {
    HeadsAreFirstMinima(t, limit);
    SameHeads(t, hs, Heads(t, limit), |hs|);
  }

  lemma {:induction false} SameHeads(t: set<Row>, a: seq<Row>, b: seq<Row>, n: nat)
    requires InOrder(a) && InOrder(b) && |a| == |b| && n <= |a|
    requires forall i :: 0 <= i < |a| ==> IsHead(t, a[i]) && IsHead(t, b[i])
    requires forall m, i :: IsHead(t, m) && m !in a && 0 <= i < |a| ==> Before(a[i], m)
    requires forall m, i :: IsHead(t, m) && m !in b && 0 <= i < |b| ==> Before(b[i], m)
    ensures a[..n] == b[..n]
  {
    if n > 0 {
      SameHeads(t, a, b, n - 1);
      var i := n - 1;
      assert forall k :: 0 <= k < i ==> a[k] == a[..i][k] && b[k] == b[..i][k];
      NotLater(t, a, b, i);
      NotLater(t, b, a, i);
    }
  }

  /** After a common prefix of length i, a[i] does not come after b[i]. */
  lemma NotLater(t: set<Row>, a: seq<Row>, b: seq<Row>, i: nat)
    requires InOrder(a) && InOrder(b) && |a| == |b| && i < |a| && a[..i] == b[..i]
    requires IsHead(t, b[i])
    requires forall m, i :: IsHead(t, m) && m !in a && 0 <= i < |a| ==> Before(a[i], m)
    ensures a[i] == b[i] || Before(a[i], b[i])
  {
    forall k | 0 <= k < i ensures a[k] == b[k] && Before(b[k], b[i]) {
      assert a[..i][k] == b[..i][k];
    }
    if b[i] in a {
      var k :| 0 <= k < |a| && a[k] == b[i];
    }
  }

  /** A portal's backlog changes nothing: rows behind an earlier one of their portal leave the batch as it is,
      however many they are. */
  lemma BacklogIsInvisible(t: set<Row>, more: set<Row>, limit: nat)
    requires Ordered(t + more)
    requires forall r :: r in more ==> exists o :: o in t && PortalOf(o.text) == PortalOf(r.text) && Before(o, r)
    ensures Heads(t + more, limit) == Heads(t, limit)
  {
    forall m ensures IsHead(t + more, m) <==> IsHead(t, m) {
      if IsHead(t, m) {
        forall o | o in more && PortalOf(o.text) == PortalOf(m.text) ensures !Before(o, m) {
          var e :| e in t && PortalOf(e.text) == PortalOf(o.text) && Before(e, o);
        }
      }
    }
    assert Minima(t + more) == Minima(t);
  }

}
