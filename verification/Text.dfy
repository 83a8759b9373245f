/** Facts about strings that several packages lean on: searching, the byte order file names
    are sorted by, and its relation to concatenation. */
module Text {
  /** Index of the first character of s that is in cs, |s| if there is none. */
  function FirstOf(s: string, cs: set<char>): (i: nat)
    ensures i <= |s|
  {
    if s == "" || s[0] in cs then 0 else 1 + FirstOf(s[1..], cs)
  }

  lemma {:induction false} FirstOfConcat(a: string, b: string, cs: set<char>)
    ensures FirstOf(a + b, cs) == if FirstOf(a, cs) < |a| then FirstOf(a, cs) else |a| + FirstOf(b, cs)
  {
    if a == "" {
      assert a + b == b;
    } else {
      assert (a + b)[1..] == a[1..] + b;
      FirstOfConcat(a[1..], b, cs);
    }
  }

  lemma {:induction false} FirstOfNone(s: string, cs: set<char>)
    requires forall i :: 0 <= i < |s| ==> s[i] !in cs
    ensures FirstOf(s, cs) == |s|
  {
    if s != "" {
      FirstOfNone(s[1..], cs);
    }
  }

  /** FirstOf stops on a character of cs and passes none. */
  lemma {:induction false} FirstOfStops(s: string, cs: set<char>)
    ensures forall k :: 0 <= k < FirstOf(s, cs) ==> s[k] !in cs
    ensures FirstOf(s, cs) < |s| ==> s[FirstOf(s, cs)] in cs
  {
    if s != "" && s[0] !in cs {
      FirstOfStops(s[1..], cs);
      assert forall k :: 0 < k < |s| ==> s[k] == s[1..][k - 1];
    }
  }

  predicate HasPrefix(s: string, p: string) {
    p <= s
  }

  predicate HasSuffix(s: string, p: string) {
    |p| <= |s| && s[|s| - |p|..] == p
  }

  /** Go's string order: the first differing character decides, a proper prefix comes first. */
  predicate Less(a: string, b: string) {
    b != "" && (a == "" || a[0] < b[0] || (a[0] == b[0] && Less(a[1..], b[1..])))
  }

  lemma {:induction false} LessIrreflexive(a: string)
    ensures !Less(a, a)
  {
    if a != "" {
      LessIrreflexive(a[1..]);
    }
  }

  lemma {:induction false} LessTransitive(a: string, b: string, c: string)
    requires Less(a, b) && Less(b, c)
    ensures Less(a, c)
  {
    if a != "" && a[0] == b[0] && b[0] == c[0] {
      LessTransitive(a[1..], b[1..], c[1..]);
    }
  }

  lemma {:induction false} LessTotal(a: string, b: string)
    ensures Less(a, b) || a == b || Less(b, a)
  {
    if a != "" && b != "" && a[0] == b[0] {
      LessTotal(a[1..], b[1..]);
      assert a == [a[0]] + a[1..] && b == [b[0]] + b[1..];
    }
  }

  /** A common prefix does not change the order. */
  lemma {:induction false} LessCommonPrefix(p: string, a: string, b: string)
    ensures Less(p + a, p + b) == Less(a, b)
  {
    if p == "" {
      assert p + a == a && p + b == b;
    } else {
      assert (p + a)[1..] == p[1..] + a && (p + b)[1..] == p[1..] + b;
      LessCommonPrefix(p[1..], a, b);
    }
  }

  /** Fields of one width compare field by field. */
  lemma {:induction false} LessByField(a: string, x: string, b: string, y: string)
    requires |a| == |b|
    ensures Less(a + x, b + y) <==> Less(a, b) || (a == b && Less(x, y))
  {
    if a == "" {
      assert a + x == x && b + y == y;
    } else {
      assert (a + x)[1..] == a[1..] + x && (b + y)[1..] == b[1..] + y;
      LessByField(a[1..], x, b[1..], y);
      assert a == [a[0]] + a[1..] && b == [b[0]] + b[1..];
    }
  }

  /** No later string sorts before an earlier one. */
  ghost predicate Sorted(s: seq<string>) {
    forall i, j :: 0 <= i < j < |s| ==> !Less(s[j], s[i])
  }

  function InsertSorted(s: seq<string>, x: string): seq<string> {
    if s == [] || Less(x, s[0]) then [x] + s else [s[0]] + InsertSorted(s[1..], x)
  }

  lemma {:induction false} InsertedSorted(s: seq<string>, x: string)
    requires Sorted(s)
    ensures Sorted(InsertSorted(s, x)) && multiset(InsertSorted(s, x)) == multiset(s) + multiset{x}
  {
    if s == [] {
    } else if Less(x, s[0]) {
      forall j | 0 <= j < |s| ensures !Less(s[j], x) {
        if Less(s[j], x) {
          LessTransitive(s[j], x, s[0]);
          LessIrreflexive(s[0]);
        }
      }
    } else {
      InsertedSorted(s[1..], x);
      var rest := InsertSorted(s[1..], x);
      assert s == [s[0]] + s[1..];
      forall j | 0 <= j < |rest| ensures !Less(rest[j], s[0]) {
        assert rest[j] in multiset(rest);
        assert rest[j] == x || rest[j] in s[1..];
      }
    }
  }

  predicate NoNul(s: string) {
    '\0' !in s
  }

  lemma {:induction false} CutAtNul(a: string, x: string, b: string, y: string)
    requires NoNul(a) && NoNul(b) && a + "\0" + x == b + "\0" + y
    ensures a == b && x == y
  {
    var p, q := a + "\0" + x, b + "\0" + y;
    assert p[0] == if a == "" then '\0' else a[0];
    assert q[0] == if b == "" then '\0' else b[0];
    if a == "" && b == "" {
      assert p[1..] == x && q[1..] == y;
    } else if a != "" && b != "" {
      assert p[1..] == a[1..] + "\0" + x && q[1..] == b[1..] + "\0" + y;
      CutAtNul(a[1..], x, b[1..], y);
      assert a == [a[0]] + a[1..] && b == [b[0]] + b[1..];
    }
  }
}
