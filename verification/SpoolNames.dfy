/** The file names of pkg/inbound/spool.go: what they sort as, and which of them are listed. */
module SpoolNames {
  import opened Text
  import opened InboundTable

  const SPOOL_SUFFIX := ".json"
  const BAD_SUFFIX := ".bad"
  const TMP_PREFIX := ".tmp-"

  function Digit(d: nat): char
    requires d < 10
  {
    '0' + d as char
  }

  /** The last w decimal digits of n, as a %0wd prints them when n has no more. */
  function Pad(n: nat, w: nat): (s: string)
    ensures |s| == w
  {
    if w == 0 then "" else Pad(n / 10, w - 1) + [Digit(n % 10)]
  }

  function Pow10(w: nat): (p: nat)
    ensures p > 0
  {
    if w == 0 then 1 else 10 * Pow10(w - 1)
  }

  lemma DigitLess(a: nat, b: nat)
    requires a < 10 && b < 10
    ensures Less([Digit(a)], [Digit(b)]) <==> a < b
    ensures Digit(a) == Digit(b) <==> a == b
  {
  }

  /** Zero-padded decimals of one width sort as the numbers do, and no two numbers share one. */
  lemma {:induction false} PadOrder(a: nat, b: nat, w: nat)
    requires a < Pow10(w) && b < Pow10(w)
    ensures Less(Pad(a, w), Pad(b, w)) <==> a < b
    ensures Pad(a, w) == Pad(b, w) <==> a == b
  {
    if w > 0 {
      PadOrder(a / 10, b / 10, w - 1);
      LessByField(Pad(a / 10, w - 1), [Digit(a % 10)], Pad(b / 10, w - 1), [Digit(b % 10)]);
      DigitLess(a % 10, b % 10);
      var p, q := Pad(a, w), Pad(b, w);
      assert p[..w - 1] == Pad(a / 10, w - 1) && q[..w - 1] == Pad(b / 10, w - 1);
      assert p[w - 1] == Digit(a % 10) && q[w - 1] == Digit(b % 10);
    }
  }

  const SEQ_MODULUS := 1_000_000

  function Tail(uid: string): string {
    uid + SPOOL_SUFFIX
  }

  /** Receive time, a per-process sequence number, the UID. */
  function FileName(ns: Nanos, sq: nat, uid: string): string {
    Pad(ns, 20) + ("-" + (Pad(sq % SEQ_MODULUS, 6) + ("-" + Tail(uid))))
  }

  lemma NanosFit(ns: Nanos)
    ensures ns < Pow10(20)
  {
    assert Pow10(20) == 100_000_000_000_000_000_000 by {
      assert Pow10(4) == 10_000;
      assert Pow10(8) == 100_000_000;
      assert Pow10(12) == 1_000_000_000_000;
      assert Pow10(16) == 10_000_000_000_000_000;
    }
  }

  lemma SeqFits(sq: nat)
    ensures sq % SEQ_MODULUS < Pow10(6)
  {
    assert Pow10(3) == 1000;
  }

  /** (a1, b1, c1) comes before (a2, b2, c2), the last compared as strings. */
  predicate TripleLess(a1: int, b1: int, c1: string, a2: int, b2: int, c2: string) {
    a1 < a2 || (a1 == a2 && (b1 < b2 || (b1 == b2 && Less(c1, c2))))
  }

  /** Sorting the names sorts by receive time, then sequence number, then UID with its suffix. */
  lemma NameOrder(ns1: Nanos, sq1: nat, uid1: string, ns2: Nanos, sq2: nat, uid2: string)
    ensures Less(FileName(ns1, sq1, uid1), FileName(ns2, sq2, uid2)) <==>
            TripleLess(ns1, sq1 % SEQ_MODULUS, Tail(uid1), ns2, sq2 % SEQ_MODULUS, Tail(uid2))
  {
    NanosFit(ns1);
    NanosFit(ns2);
    SeqFits(sq1);
    SeqFits(sq2);
    var q1, q2 := sq1 % SEQ_MODULUS, sq2 % SEQ_MODULUS;
    PadOrder(ns1, ns2, 20);
    PadOrder(q1, q2, 6);
    var x1, x2 := Pad(q1, 6) + ("-" + Tail(uid1)), Pad(q2, 6) + ("-" + Tail(uid2));
    LessByField(Pad(ns1, 20), "-" + x1, Pad(ns2, 20), "-" + x2);
    LessCommonPrefix("-", x1, x2);
    LessByField(Pad(q1, 6), "-" + Tail(uid1), Pad(q2, 6), "-" + Tail(uid2));
    LessCommonPrefix("-", Tail(uid1), Tail(uid2));
  }

  /** A name gives back the receive time, the sequence number and the UID. */
  lemma NameInjective(ns1: Nanos, sq1: nat, uid1: string, ns2: Nanos, sq2: nat, uid2: string)
    requires FileName(ns1, sq1, uid1) == FileName(ns2, sq2, uid2)
    ensures ns1 == ns2 && sq1 % SEQ_MODULUS == sq2 % SEQ_MODULUS && uid1 == uid2
  {
    var n := FileName(ns1, sq1, uid1);
    assert n[..20] == Pad(ns1, 20) == Pad(ns2, 20);
    assert n[21..27] == Pad(sq1 % SEQ_MODULUS, 6) == Pad(sq2 % SEQ_MODULUS, 6);
    assert n[28..] == Tail(uid1) == Tail(uid2);
    assert Tail(uid1)[..|uid1|] == uid1 && Tail(uid2)[..|uid2|] == uid2;
    NanosFit(ns1);
    NanosFit(ns2);
    SeqFits(sq1);
    SeqFits(sq2);
    PadOrder(ns1, ns2, 20);
    PadOrder(sq1 % SEQ_MODULUS, sq2 % SEQ_MODULUS, 6);
  }

  /** One UID starts with the other, and what it adds sorts before the suffix. */
  predicate SuffixDisturbs(uid1: string, uid2: string) {
    || (uid1 <= uid2 && Less(Tail(uid2[|uid1|..]), SPOOL_SUFFIX))
    || (uid2 <= uid1 && Less(Tail(uid1[|uid2|..]), SPOOL_SUFFIX))
  }

  lemma {:induction false} LessDiverging(a: string, x: string, b: string, y: string)
    requires !(a <= b) && !(b <= a)
    ensures Less(a + x, b + y) <==> Less(a, b)
  {
    if a[0] == b[0] {
      assert (a + x)[1..] == a[1..] + x && (b + y)[1..] == b[1..] + y;
      assert a == [a[0]] + a[1..] && b == [b[0]] + b[1..];
      LessDiverging(a[1..], x, b[1..], y);
    }
  }

  /** The suffix keeps the order of the UIDs but for those pairs. */
  lemma TailOrder(uid1: string, uid2: string)
    ensures (Less(Tail(uid1), Tail(uid2)) <==> Less(uid1, uid2)) <==> !SuffixDisturbs(uid1, uid2)
  {
    if uid1 == uid2 {
      LessIrreflexive(uid1);
      LessIrreflexive(Tail(uid1));
      LessIrreflexive(SPOOL_SUFFIX);
      assert Tail(uid1[|uid1|..]) == SPOOL_SUFFIX;
    } else if uid1 <= uid2 {
      PrefixTail(uid1, uid2[|uid1|..]);
      assert uid1 + uid2[|uid1|..] == uid2;
    } else if uid2 <= uid1 {
      PrefixTail(uid2, uid1[|uid2|..]);
      assert uid2 + uid1[|uid2|..] == uid1;
    } else {
      LessDiverging(uid1, SPOOL_SUFFIX, uid2, SPOOL_SUFFIX);
    }
  }

  lemma PrefixTail(uid: string, more: string)
    ensures Less(Tail(uid), Tail(uid + more)) <==> Less(SPOOL_SUFFIX, Tail(more))
    ensures Less(Tail(uid + more), Tail(uid)) <==> Less(Tail(more), SPOOL_SUFFIX)
    ensures Less(uid, uid + more) <==> more != ""
    ensures !Less(uid + more, uid)
    ensures Less(SPOOL_SUFFIX, Tail(more)) <==> more != "" && !Less(Tail(more), SPOOL_SUFFIX)
  {
    assert Tail(uid + more) == uid + Tail(more);
    LessCommonPrefix(uid, SPOOL_SUFFIX, Tail(more));
    LessCommonPrefix(uid, Tail(more), SPOOL_SUFFIX);
    assert uid + "" == uid;
    LessCommonPrefix(uid, "", more);
    LessCommonPrefix(uid, more, "");
    LessTotal(SPOOL_SUFFIX, Tail(more));
    LessIrreflexive(SPOOL_SUFFIX);
    assert more == "" ==> Tail(more) == SPOOL_SUFFIX;
    assert more != "" ==> |Tail(more)| != |SPOOL_SUFFIX|;
    if Less(SPOOL_SUFFIX, Tail(more)) && Less(Tail(more), SPOOL_SUFFIX) {
      LessTransitive(SPOOL_SUFFIX, Tail(more), SPOOL_SUFFIX);
    }
  }

  /** UUIDs all have one length, so they are never disturbed. */
  lemma SameLengthUndisturbed(uid1: string, uid2: string)
    requires |uid1| == |uid2|
    ensures Less(Tail(uid1), Tail(uid2)) <==> Less(uid1, uid2)
  {
    TailOrder(uid1, uid2);
    LessIrreflexive(SPOOL_SUFFIX);
    assert uid1 <= uid2 || uid2 <= uid1 ==> uid1 == uid2 && Tail(uid2[|uid1|..]) == SPOOL_SUFFIX;
  }

  /** A file that List returns. */
  predicate IsListed(name: string) {
    HasSuffix(name, SPOOL_SUFFIX) && !HasPrefix(name, TMP_PREFIX)
  }

  predicate IsTemp(name: string) {
    HasPrefix(name, TMP_PREFIX)
  }

  /** name is the spool file of a text, or that file set aside. */
  ghost predicate NamedFor(name: string, uid: string) {
    exists ns: Nanos, sq: nat :: name == FileName(ns, sq, uid) || name == FileName(ns, sq, uid) + BAD_SUFFIX
  }

  /** The same, of a text that was received then. */
  ghost predicate NamedAfter(name: string, ns: Nanos, uid: string) {
    exists sq: nat :: name == FileName(ns, sq, uid) || name == FileName(ns, sq, uid) + BAD_SUFFIX
  }

  lemma NamedAfterIsFor(name: string, ns: Nanos, uid: string)
    requires NamedAfter(name, ns, uid)
    ensures NamedFor(name, uid)
  {
  }

  /** A listed file that sorts before another one was received no later. */
  lemma ListedByTime(name1: string, ns1: Nanos, uid1: string, name2: string, ns2: Nanos, uid2: string)
    requires NamedAfter(name1, ns1, uid1) && IsListed(name1) && NamedAfter(name2, ns2, uid2) && IsListed(name2)
    requires Less(name1, name2)
    ensures ns1 <= ns2
  {
    var sq1: nat :| name1 == FileName(ns1, sq1, uid1) || name1 == FileName(ns1, sq1, uid1) + BAD_SUFFIX;
    var sq2: nat :| name2 == FileName(ns2, sq2, uid2) || name2 == FileName(ns2, sq2, uid2) + BAD_SUFFIX;
    NamesListed(ns1, sq1, uid1);
    NamesListed(ns2, sq2, uid2);
    NameOrder(ns1, sq1, uid1, ns2, sq2, uid2);
  }

  /** Spool files are listed; set aside or temporary files are not. */
  lemma NamesListed(ns: Nanos, sq: nat, uid: string)
    ensures IsListed(FileName(ns, sq, uid)) && !IsTemp(FileName(ns, sq, uid))
    ensures !IsListed(FileName(ns, sq, uid) + BAD_SUFFIX) && !IsTemp(FileName(ns, sq, uid) + BAD_SUFFIX)
  {
    var n := FileName(ns, sq, uid);
    assert n[|n| - 5..] == SPOOL_SUFFIX;
    assert n[0] == Pad(ns, 20)[0];
    PadStartsWithDigit(ns, 20);
    var b := n + BAD_SUFFIX;
    assert b[0] == n[0];
    assert b[|b| - 1] == 'd';
    assert b[|b| - 5..][4] == 'd';
  }

  lemma {:induction false} PadStartsWithDigit(n: nat, w: nat)
    requires w > 0
    ensures '0' <= Pad(n, w)[0] <= '9'
  {
    if w > 1 {
      PadStartsWithDigit(n / 10, w - 1);
    }
  }

  /** A file belongs to one text, set aside or not. */
  lemma NamedForOne(name: string, uid1: string, uid2: string)
    requires NamedFor(name, uid1) && NamedFor(name, uid2)
    ensures uid1 == uid2
  {
    var ns1: Nanos, sq1: nat :| name == FileName(ns1, sq1, uid1) || name == FileName(ns1, sq1, uid1) + BAD_SUFFIX;
    var ns2: Nanos, sq2: nat :| name == FileName(ns2, sq2, uid2) || name == FileName(ns2, sq2, uid2) + BAD_SUFFIX;
    NamesListed(ns1, sq1, uid1);
    NamesListed(ns2, sq2, uid2);
    if IsListed(name) {
      NameInjective(ns1, sq1, uid1, ns2, sq2, uid2);
    } else {
      var n := name[..|name| - 4];
      assert n == FileName(ns1, sq1, uid1) && n == FileName(ns2, sq2, uid2);
      NameInjective(ns1, sq1, uid1, ns2, sq2, uid2);
    }
  }

  lemma NamedNotTemp(name: string, uid: string)
    requires NamedFor(name, uid)
    ensures !IsTemp(name)
  {
    var ns: Nanos, sq: nat :| name == FileName(ns, sq, uid) || name == FileName(ns, sq, uid) + BAD_SUFFIX;
    NamesListed(ns, sq, uid);
  }

  /** Setting a file aside keeps it the same text's. */
  lemma NamedForBase(name: string, uid1: string, uid2: string)
    requires NamedFor(name, uid1) && NamedFor(name + BAD_SUFFIX, uid2)
    ensures uid1 == uid2
  {
    var b := name + BAD_SUFFIX;
    var ns: Nanos, sq: nat :| b == FileName(ns, sq, uid2) || b == FileName(ns, sq, uid2) + BAD_SUFFIX;
    var n := FileName(ns, sq, uid2);
    NamesListed(ns, sq, uid2);
    assert b[|b| - 1] == 'd' && n[|n| - 5..][4] == 'n';
    assert b[..|b| - 4] == name && (n + BAD_SUFFIX)[..|n|] == n;
    NamedForOne(name, uid1, uid2);
  }
}
