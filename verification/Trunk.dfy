/** pkg/calls/trunk.go: keeping LiveKit's outbound trunk as the configuration wants it. */
module Trunk {
  import opened Results
  import opened Text

  datatype Trunk = Trunk(id: string, name: string, address: string, numbers: seq<string>, authUsername: string,
                         authPassword: string)

  datatype Config = Config(name: string, address: string, number: string, authUsername: string, authPassword: string)

  /** wantedTrunk; the server gives the id. */
  function Wanted(c: Config): Trunk {
    Trunk("", c.name, c.address, if c.number == "" then [] else [c.number], c.authUsername, c.authPassword)
  }

  // ---- Fingerprints

  /** The bytes that are hashed: every field and a NUL behind it. */
  function Terminated(fields: seq<string>): string {
    if fields == [] then "" else fields[0] + "\0" + Terminated(fields[1..])
  }

  function Fields(t: Trunk): seq<string> {
    [t.name, t.address, t.authUsername, t.authPassword] + t.numbers
  }

  lemma {:induction false} TerminatedInjective(a: seq<string>, b: seq<string>)
    requires (forall f :: f in a ==> NoNul(f)) && (forall f :: f in b ==> NoNul(f))
    requires Terminated(a) == Terminated(b)
    ensures a == b
  {
    if a != [] && b != [] {
      CutAtNul(a[0], Terminated(a[1..]), b[0], Terminated(b[1..]));
      TerminatedInjective(a[1..], b[1..]);
      assert a == [a[0]] + a[1..] && b == [b[0]] + b[1..];
    }
  }

  /** Two specifications without NULs are hashed from the same bytes only if they agree in everything but the id:
      a fingerprint tells them apart unless the hash collides. */
  lemma FingerprintTells(a: Trunk, b: Trunk)
    requires (forall f :: f in Fields(a) ==> NoNul(f)) && (forall f :: f in Fields(b) ==> NoNul(f))
    ensures Terminated(Fields(a)) == Terminated(Fields(b)) <==> a.(id := b.id) == b
  {
    if Terminated(Fields(a)) == Terminated(Fields(b)) {
      TerminatedInjective(Fields(a), Fields(b));
      var f, g := Fields(a), Fields(b);
      assert f[0] == g[0] && f[1] == g[1] && f[2] == g[2] && f[3] == g[3];
      assert f[4..] == a.numbers && g[4..] == b.numbers;
    }
  }

  // ---- Differences

  const ADDRESS := "address"
  const NUMBERS := "numbers"
  const AUTH_USERNAME := "auth_username"
  const AUTH_PASSWORD := "auth_password"

  /** Which of the fields differ, by name. */
  predicate Differs(have: Trunk, want: Trunk, field: string) {
    || (field == ADDRESS && have.address != want.address)
    || (field == NUMBERS && have.numbers != want.numbers)
    || (field == AUTH_USERNAME && have.authUsername != want.authUsername)
    || (field == AUTH_PASSWORD && have.authPassword != want.authPassword)
  }

  method TrunkDiff(have: Trunk, want: Trunk) returns (diff: seq<string>)
    ensures forall f :: f in diff <==> Differs(have, want, f)
    ensures diff == [] <==> have.(id := want.id, name := want.name) == want
    ensures diff == [AUTH_PASSWORD] <==> OnlyPassword(have, want)
  {
    diff := [];
    assert |ADDRESS| == 7 && |NUMBERS| == 7 && |AUTH_USERNAME| == 13 && |AUTH_PASSWORD| == 13;
    assert ADDRESS[0] != NUMBERS[0] && AUTH_USERNAME[5] != AUTH_PASSWORD[5];
    if have.address != want.address {
      diff := diff + [ADDRESS];
    }
    if have.numbers != want.numbers {
      diff := diff + [NUMBERS];
    }
    if have.authUsername != want.authUsername {
      diff := diff + [AUTH_USERNAME];
    }
    if have.authPassword != want.authPassword {
      diff := diff + [AUTH_PASSWORD];
    }
    assert diff == [AUTH_PASSWORD] <==> |diff| == 1 && diff[0] == AUTH_PASSWORD;
    assert diff == [] <==> |diff| == 0;
  }

  predicate OnlyPassword(have: Trunk, want: Trunk) {
    && have.authPassword != want.authPassword
    && have.(id := want.id, name := want.name, authPassword := want.authPassword) == want
  }

  // ---- A tick

  /** LiveKit's trunks in the order it lists them and what this process remembers of them. writes counts creations
      and updates. */
  datatype State = State(trunks: seq<Trunk>, trunkId: Option<string>, pushed: Option<string>, writes: nat)

  /** The first trunk of the name. */
  function Find(trunks: seq<Trunk>, name: string): (k: nat)
    ensures k <= |trunks| && (k < |trunks| ==> trunks[k].name == name)
    ensures forall i :: 0 <= i < k ==> trunks[i].name != name
  {
    if trunks == [] || trunks[0].name == name then 0 else 1 + Find(trunks[1..], name)
  }

  /** How a server lists a trunk: some withhold the password. */
  function Listed(t: Trunk, blanks: bool): Trunk {
    if blanks then t.(authPassword := "") else t
  }

  predicate InOrder(have: Trunk, want: Trunk) {
    have.(id := want.id, name := want.name) == want
  }

  /** What a listing shows as a password difference that no write can close. */
  predicate Withheld(have: Trunk, want: Trunk, pushed: Option<string>, fp: string) {
    OnlyPassword(have, want) && have.authPassword == "" && pushed == Some(fp)
  }

  /** reconcileTrunk when every request succeeds: newId is the id a creation would get, at the position it would
      be listed at. */
  function Tick(c: Config, blanks: bool, hash: string -> string, s: State, newId: string, at: nat): State {
    var want := Wanted(c);
    var fp := hash(Terminated(Fields(want)));
    var k := Find(s.trunks, c.name);
    if c.address == "" then s
    else if k < |s.trunks| then
      var t := Listed(s.trunks[k], blanks);
      var seen := s.(trunkId := Some(t.id));
      if InOrder(t, want) then seen.(pushed := Some(fp))
      else if Withheld(t, want, s.pushed, fp) then seen
      else seen.(trunks := s.trunks[k := want.(id := t.id)], pushed := Some(fp), writes := s.writes + 1)
    else
      var p := if at <= |s.trunks| then at else |s.trunks|;
      State(s.trunks[..p] + [want.(id := newId)] + s.trunks[p..], Some(newId), Some(fp), s.writes + 1)
  }

  /** The next tick would find nothing to do. */
  predicate Quiet(c: Config, blanks: bool, hash: string -> string, s: State) {
    var want := Wanted(c);
    var fp := hash(Terminated(Fields(want)));
    var k := Find(s.trunks, c.name);
    c.address == "" ||
    (k < |s.trunks| &&
     var t := Listed(s.trunks[k], blanks);
     InOrder(t, want) || Withheld(t, want, s.pushed, fp))
  }

  lemma {:induction false} FindAfterInsert(trunks: seq<Trunk>, p: nat, t: Trunk)
    requires p <= |trunks| && Find(trunks, t.name) == |trunks|
    ensures Find(trunks[..p] + [t] + trunks[p..], t.name) == p
  {
    var more := trunks[..p] + [t] + trunks[p..];
    var k := Find(more, t.name);
    assert more[p] == t;
    assert forall i :: 0 <= i < p ==> more[i] == trunks[i];
  }

  lemma FindAfterUpdate(trunks: seq<Trunk>, k: nat, t: Trunk)
    requires k < |trunks| && k == Find(trunks, t.name)
    ensures Find(trunks[k := t], t.name) == k
  {
    var more := trunks[k := t];
    assert more[k] == t;
  }

  /** A tick writes exactly if it finds something to do. */
  lemma TickWrites(c: Config, blanks: bool, hash: string -> string, s: State, newId: string, at: nat)
    ensures Tick(c, blanks, hash, s, newId, at).writes == s.writes + if Quiet(c, blanks, hash, s) then 0 else 1
  {
  }

  /** After it nothing is left to do, for servers that list the password and for those that withhold it. */
  lemma TickQuiets(c: Config, blanks: bool, hash: string -> string, s: State, newId: string, at: nat)
    ensures Quiet(c, blanks, hash, Tick(c, blanks, hash, s, newId, at))
  {
    hide Fields, Terminated;
    var want := Wanted(c);
    var k := Find(s.trunks, c.name);
    if k < |s.trunks| {
      FindAfterUpdate(s.trunks, k, want.(id := s.trunks[k].id));
    } else {
      var p := if at <= |s.trunks| then at else |s.trunks|;
      FindAfterInsert(s.trunks, p, want.(id := newId));
    }
  }

  /** n ticks, with the ids and positions that creations would get. */
  function Ticks(c: Config, blanks: bool, hash: string -> string, s: State, news: seq<(string, nat)>): State {
    if news == [] then s
    else
      var n := |news| - 1;
      Tick(c, blanks, hash, Ticks(c, blanks, hash, s, news[..n]), news[n].0, news[n].1)
  }

  lemma {:induction false} TicksQuiet(c: Config, blanks: bool, hash: string -> string, s: State,
                                      news: seq<(string, nat)>)
    requires news != []
    ensures Quiet(c, blanks, hash, Ticks(c, blanks, hash, s, news))
    ensures Ticks(c, blanks, hash, s, news).writes == s.writes + if Quiet(c, blanks, hash, s) then 0 else 1
  {
    hide Quiet, Tick;
    var n := |news| - 1;
    var before := Ticks(c, blanks, hash, s, news[..n]);
    TickWrites(c, blanks, hash, before, news[n].0, news[n].1);
    TickQuiets(c, blanks, hash, before, news[n].0, news[n].1);
    if n > 0 {
      TicksQuiet(c, blanks, hash, s, news[..n]);
    }
  }

  /** From any state, however often the timer fires, there is at most one write, and exactly one if there was
      anything to do. */
  lemma AtMostOneWrite(c: Config, blanks: bool, hash: string -> string, s: State, news: seq<(string, nat)>)
    ensures Ticks(c, blanks, hash, s, news).writes <= s.writes + 1
    ensures news != [] ==> (Ticks(c, blanks, hash, s, news).writes == s.writes + 1 <==> !Quiet(c, blanks, hash, s))
  {
    if news != [] {
      TicksQuiet(c, blanks, hash, s, news);
    }
  }

  /** The trunk is what the configuration says, field by field. */
  predicate AsConfigured(t: Trunk, c: Config) {
    && t.name == c.name && t.address == c.address && t.authUsername == c.authUsername
    && t.authPassword == c.authPassword
    && (c.number == "" ==> t.numbers == []) && (c.number != "" ==> t.numbers == [c.number])
  }

  /** The trunk is there and only its password differs. */
  predicate PasswordDrifted(c: Config, s: State) {
    var k := Find(s.trunks, c.name);
    k < |s.trunks| && OnlyPassword(s.trunks[k], Wanted(c))
  }

  /** After a tick of a process that has pushed nothing before, the remembered id is that of the trunk, and LiveKit
      holds what is wanted, password and all, except if the server withholds passwords, none is wanted, and one was all
      that differed. */
  lemma FirstTickRepairs(c: Config, blanks: bool, hash: string -> string, s: State, newId: string, at: nat)
    requires c.address != "" && s.pushed == None
    ensures var u := Tick(c, blanks, hash, s, newId, at);
            var k := Find(u.trunks, c.name);
            && k < |u.trunks| && u.trunkId == Some(u.trunks[k].id)
            && (AsConfigured(u.trunks[k], c) <==> !(blanks && c.authPassword == "" && PasswordDrifted(c, s)))
  {
    var want := Wanted(c);
    var k := Find(s.trunks, c.name);
    if k < |s.trunks| {
      FindAfterUpdate(s.trunks, k, want.(id := s.trunks[k].id));
    } else {
      var p := if at <= |s.trunks| then at else |s.trunks|;
      FindAfterInsert(s.trunks, p, want.(id := newId));
      assert (s.trunks[..p] + [want.(id := newId)] + s.trunks[p..])[p] == want.(id := newId);
    }
  }

  /** What this process remembers having pushed is what it wants. */
  predicate HasPushed(c: Config, hash: string -> string, s: State) {
    s.pushed == Some(hash(Terminated(Fields(Wanted(c)))))
  }

  /** A tick leaves a drifted password exactly if the listing shows the wanted one all the same, or shows none and
      this process has pushed the wanted one before. */
  lemma PasswordDrift(c: Config, blanks: bool, hash: string -> string, s: State, newId: string, at: nat)
    requires c.address != "" && PasswordDrifted(c, s)
    ensures var shown := Listed(s.trunks[Find(s.trunks, c.name)], blanks).authPassword;
            Tick(c, blanks, hash, s, newId, at).trunks == s.trunks <==>
            shown == c.authPassword || (shown == "" && HasPushed(c, hash, s))
  {
    var k := Find(s.trunks, c.name);
    assert s.trunks[k := Wanted(c).(id := s.trunks[k].id)][k] == Wanted(c).(id := s.trunks[k].id);
  }

  /** The three ways it happens: a server that withholds the password, after a push or with none wanted, and a
      server that lists it and has lost it since the push. */
  lemma DriftsUnrepaired(c: Config, hash: string -> string, lost: string) returns (a: State, b: State)
    requires c.address != "" && c.authPassword != "" && lost != c.authPassword
    ensures |a.trunks| == 1 && |b.trunks| == 1
    ensures OnlyPassword(a.trunks[0], Wanted(c)) && Tick(c, true, hash, a, "", 0).trunks == a.trunks
    ensures OnlyPassword(b.trunks[0], Wanted(c)) && Tick(c, false, hash, b, "", 0).trunks == b.trunks
    ensures var d := c.(authPassword := "");
            OnlyPassword(Wanted(c), Wanted(d))
            && Tick(d, true, hash, State([Wanted(c)], None, None, 0), "", 0).trunks == [Wanted(c)]
  {
    var pushed := Some(hash(Terminated(Fields(Wanted(c)))));
    a := State([Wanted(c).(authPassword := lost)], None, pushed, 0);
    b := State([Wanted(c).(authPassword := "")], None, pushed, 0);
  }

  // ---- reconcileTrunk

  class Reconciler {
    const config: Config
    /** The server withholds passwords. */
    const blanks: bool
    const hash: string -> string

    var trunks: seq<Trunk>
    var trunkId: Option<string>
    var pushed: Option<string>
    var writes: nat

    function View(): State
      reads this
    {
      State(trunks, trunkId, pushed, writes)
    }

    function WantedTrunk(): (t: Trunk)
      ensures t == Wanted(config)
    {
      var numbers := if config.number != "" then [config.number] else [];
      Trunk("", config.name, config.address, numbers, config.authUsername, config.authPassword)
    }

    /** One reconciliation. A request that fails ends it, perhaps although it took effect; the fingerprint pushed
        before is then still the one remembered. */
    method ReconcileTrunk() returns (ok: bool, ghost newId: string, ghost at: nat)
      modifies this
      ensures ok ==> config.address != "" && View() == Tick(config, blanks, hash, old(View()), newId, at)
      ensures !ok ==> pushed == old(pushed)
      ensures config.address == "" ==> !ok && View() == old(View())
    {
      newId, at := "", 0;
      if config.address == "" {
        return false, newId, at;
      }
      var failed: bool := *;
      if failed {
        return false, newId, at;
      }
      var want := WantedTrunk();
      var fp := hash(Terminated(Fields(want)));
      var k := 0;
      while k < |trunks|
        invariant k <= |trunks| && forall i :: 0 <= i < k ==> trunks[i].name != want.name
        invariant View() == old(View())
      {
        var t := Listed(trunks[k], blanks);
        if t.name == want.name {
          assert k == Find(trunks, want.name);
          ok := UpdateTrunk(k, t, want, fp);
          return ok, newId, at;
        }
        k := k + 1;
      }
      assert Find(trunks, want.name) == |trunks|;
      var id: string, p: nat := *, *;
      var takes: bool := *;
      ok := *;
      newId, at := id, p;
      p := if p <= |trunks| then p else |trunks|;
      if ok || takes {
        trunks, writes := trunks[..p] + [want.(id := id)] + trunks[p..], writes + 1;
      }
      if ok {
        trunkId, pushed := Some(id), Some(fp);
      }
    }

    /** The trunk of the name as it was listed. */
    method UpdateTrunk(k: nat, t: Trunk, want: Trunk, fp: string) returns (ok: bool)
      requires k < |trunks| && t == Listed(trunks[k], blanks)
      modifies this
      ensures trunkId == Some(t.id)
      ensures ok && (InOrder(t, want) || Withheld(t, want, old(pushed), fp)) ==>
        trunks == old(trunks) && writes == old(writes) && pushed == if InOrder(t, want) then Some(fp) else old(pushed)
      ensures ok && !InOrder(t, want) && !Withheld(t, want, old(pushed), fp) ==>
        trunks == old(trunks)[k := want.(id := t.id)] && writes == old(writes) + 1 && pushed == Some(fp)
      ensures !ok ==> pushed == old(pushed)
    {
      trunkId := Some(t.id);
      var diff := TrunkDiff(t, want);
      if diff == [] {
        pushed := Some(fp);
        return true;
      }
      if |diff| == 1 && diff[0] == AUTH_PASSWORD && t.authPassword == "" {
        if pushed.Some? && pushed.value == fp {
          return true;
        }
      }
      var takes: bool := *;
      ok := *;
      if ok || takes {
        trunks, writes := trunks[k := want.(id := t.id)], writes + 1;
      }
      if ok {
        pushed := Some(fp);
      }
    }

    /** currentTrunkID. */
    method CurrentTrunkId() returns (id: Option<string>)
      ensures id.Some? ==> trunkId == id && id.value != ""
      ensures id.None? ==> trunkId == None || trunkId == Some("")
    {
      id := if trunkId.None? || trunkId.value == "" then None else trunkId;
    }
  }
}
