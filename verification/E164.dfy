/** pkg/phonenum/e164.go: reading a loosely written number as E.164.

    A Go string is modelled as the sequence of runes a range loop yields. */
module E164 {
  import opened Results
  import opened Text

  datatype NumberError = ErrEmpty | ErrNotE164

  const MAX_E164_DIGITS := 15

  predicate IsDigit(c: char) {
    '0' <= c <= '9'
  }

  predicate IsSeparator(c: char) {
    c == ' ' || c == '-' || c == '.' || c == '(' || c == ')' || c == '/' || c == '\t'
  }

  /** The separators that strings.TrimSpace also strips. */
  predicate IsBlank(c: char) {
    c == ' ' || c == '\t'
  }

  /** unicode.IsSpace. */
  predicate IsSpace(c: char) {
    || '\t' <= c <= '\r'
    || c == ' ' || c == '\U{85}' || c == '\U{a0}' || c == '\U{1680}' || c == '\U{2028}' || c == '\U{2029}'
    || c == '\U{202f}' || c == '\U{205f}' || c == '\U{3000}'
    || '\U{2000}' <= c <= '\U{200a}'
  }

  predicate AllSpace(s: string) {
    forall i :: 0 <= i < |s| ==> IsSpace(s[i])
  }

  function TrimLeft(s: string): string {
    if s != "" && IsSpace(s[0]) then TrimLeft(s[1..]) else s
  }

  function TrimRight(s: string): (t: string)
    ensures |t| <= |s|
  {
    if s != "" && IsSpace(s[|s| - 1]) then TrimRight(s[..|s| - 1]) else s
  }

  /** strings.TrimSpace. */
  function TrimSpace(s: string): string {
    TrimRight(TrimLeft(s))
  }

  function Lower(c: char): char {
    if 'A' <= c <= 'Z' then c - 'A' + 'a' else c
  }

  const SCHEMES: seq<string> := ["tel:", "sips:", "sip:"]

  /** strings.EqualFold of the scheme with as much of s. The schemes are ASCII, and no letter outside
      ASCII that folds to one of theirs fits in as many bytes. */
  predicate HasScheme(s: string, scheme: string) {
    |scheme| <= |s| && forall i :: 0 <= i < |scheme| ==> Lower(s[i]) == scheme[i]
  }

  /** s without the scheme it starts with, if any. */
  function WithoutScheme(s: string): string {
    if HasScheme(s, "tel:") then s[4..]
    else if HasScheme(s, "sips:") then s[5..]
    else if HasScheme(s, "sip:") then s[4..]
    else s
  }

  function WithoutBracket(s: string): string {
    if HasPrefix(s, "<") then s[1..] else s
  }

  /** What a URI holds between its scheme and its ";param" or ">" tail. */
  function Address(s: string): string {
    var t := WithoutScheme(WithoutBracket(s));
    t[..FirstOf(t, {';', '>'})]
  }

  function UserPart(s: string): string {
    Address(s)[..FirstOf(Address(s), {'@'})]
  }

  function HostPart(s: string): string {
    var i := FirstOf(Address(s), {'@'});
    if i == |Address(s)| then ""
    else var host := Address(s)[i + 1..]; host[..FirstOf(host, {':', '?'})]
  }

  /** Splits a tel:, sip: or sips: URI into its user part and its host. */
  method SplitURI(uri: string) returns (user: string, host: string)
    ensures user == UserPart(uri) && host == HostPart(uri)
  {
    var s := uri;
    if HasPrefix(s, "<") {
      s := s[1..];
    }
    var n := 0;
    while n < |SCHEMES|
      invariant 0 <= n <= |SCHEMES|
      invariant s == WithoutBracket(uri)
      invariant forall k :: 0 <= k < n ==> !HasScheme(s, SCHEMES[k])
    {
      var scheme := SCHEMES[n];
      if HasScheme(s, scheme) {
        s := s[|scheme|..];
        break;
      }
      n := n + 1;
    }
    assert SCHEMES[0] == "tel:" && SCHEMES[1] == "sips:" && SCHEMES[2] == "sip:";
    assert s == WithoutScheme(WithoutBracket(uri));
    s := s[..FirstOf(s, {';', '>'})];
    var i := FirstOf(s, {'@'});
    if i < |s| {
      host := s[i + 1..];
      host := host[..FirstOf(host, {':', '?'})];
      return s[..i], host;
    }
    return s, "";
  }

  /** The digits of s, in order. */
  function Digits(s: string): string {
    if s == "" then ""
    else if IsDigit(s[0]) then [s[0]] + Digits(s[1..])
    else Digits(s[1..])
  }

  /** A number is spelled with digits and separators, and a "+" only in front. */
  predicate WellSpelled(s: string) {
    forall i :: 0 <= i < |s| ==> IsDigit(s[i]) || IsSeparator(s[i]) || (i == 0 && s[0] == '+')
  }

  /** A country code and subscriber number, clause 6 of ITU-T E.164. */
  predicate IsE164Digits(d: string) {
    1 <= |d| <= 15 && d[0] != '0' && forall i :: 0 <= i < |d| ==> IsDigit(d[i])
  }

  predicate IsE164(n: string) {
    n != "" && n[0] == '+' && IsE164Digits(n[1..])
  }

  /** The number that digits, read after an international prefix, are. */
  function International(digits: string): Result<string, NumberError> {
    if digits == "" then Err(ErrEmpty)
    else if digits[0] == '0' || |digits| > MAX_E164_DIGITS then Err(ErrNotE164)
    else Ok("+" + digits)
  }

  /** What a spelled number means. */
  function ReadNumber(u: string): Result<string, NumberError> {
    if !WellSpelled(u) then Err(ErrNotE164)
    else if Digits(u) == "" then Err(ErrEmpty)
    else if HasPrefix(u, "+") then International(Digits(u))
    else if HasPrefix(Digits(u), "00") then International(Digits(u)[2..])
    else Err(ErrNotE164)
  }

  /** What Normalize returns. */
  function Normal(input: string): Result<string, NumberError> {
    var s := TrimSpace(input);
    if s == "" then Err(ErrEmpty) else ReadNumber(UserPart(s))
  }

  lemma {:induction false} DigitsConcat(a: string, b: string)
    ensures Digits(a + b) == Digits(a) + Digits(b)
  {
    if a == "" {
      assert a + b == b;
    } else {
      assert (a + b)[1..] == a[1..] + b;
      DigitsConcat(a[1..], b);
    }
  }

  /** Turns a loosely written number into E.164. */
  method Normalize(input: string) returns (r: Result<string, NumberError>)
    ensures r == Normal(input)
  {
    var s := TrimSpace(input);
    if s == "" {
      return Err(ErrEmpty);
    }
    var user, _ := SplitURI(s);
    s := user;
    var digits := "";
    var plus := false;
    for i := 0 to |s|
      invariant WellSpelled(s[..i])
      invariant digits == Digits(s[..i])
      invariant plus == HasPrefix(s[..i], "+")
    {
      var r := s[i];
      DigitsConcat(s[..i], [r]);
      assert s[..i + 1] == s[..i] + [r];
      if r == '+' {
        if i != 0 || plus {
          assert !WellSpelled(s);
          return Err(ErrNotE164);
        }
        plus := true;
      } else if '0' <= r <= '9' {
        digits := digits + [r];
      } else if !(r == ' ' || r == '-' || r == '.' || r == '(' || r == ')' || r == '/' || r == '\t') {
        assert !WellSpelled(s);
        return Err(ErrNotE164);
      }
    }
    assert s[..|s|] == s;
    if digits == "" {
      return Err(ErrEmpty);
    }
    if !plus {
      if !HasPrefix(digits, "00") {
        return Err(ErrNotE164);
      }
      digits := digits[2..];
    }
    if digits == "" {
      return Err(ErrEmpty);
    }
    if digits[0] == '0' {
      return Err(ErrNotE164);
    }
    if |digits| > MAX_E164_DIGITS {
      return Err(ErrNotE164);
    }
    return Ok("+" + digits);
  }

  lemma {:induction false} DigitsAreDigits(s: string)
    ensures forall i :: 0 <= i < |Digits(s)| ==> IsDigit(Digits(s)[i])
  {
    if s != "" {
      DigitsAreDigits(s[1..]);
    }
  }

  lemma {:induction false} DigitsOfDigits(s: string)
    requires forall i :: 0 <= i < |s| ==> IsDigit(s[i])
    ensures Digits(s) == s
  {
    if s != "" {
      DigitsOfDigits(s[1..]);
    }
  }

  /** An accepted number is "+" and 1 to 15 digits with no leading zero. */
  lemma NormalIsE164(input: string)
    requires Normal(input).Ok?
    ensures IsE164(Normal(input).value)
  {
    var u := UserPart(TrimSpace(input));
    DigitsAreDigits(u);
  }

  /** An input is read as a number exactly if it is spelled with digits, separators and at most a sign in front, and the
      digits are those of the number behind the sign, or behind "00" if there is none. Digits with neither are refused:
      they are never taken for a number of some country. */
  lemma NormalExactly(input: string, n: string)
    ensures var u := UserPart(TrimSpace(input));
            Normal(input) == Ok(n) <==>
              && TrimSpace(input) != "" && WellSpelled(u) && IsE164(n)
              && Digits(u) == if HasPrefix(u, "+") then n[1..] else "00" + n[1..]
  {
    var u := UserPart(TrimSpace(input));
    DigitsAreDigits(u);
    hide UserPart, WellSpelled, TrimSpace;
    assert IsE164(n) ==> n == "+" + n[1..];
    assert Normal(input) == Ok(n) ==> n[1..] == if HasPrefix(u, "+") then Digits(u) else Digits(u)[2..];
  }

  /** It is called empty exactly if it holds nothing but space, or separators with no digit but those of a prefix. */
  lemma NormalEmptyExactly(input: string)
    ensures var u := UserPart(TrimSpace(input));
            Normal(input) == Err(ErrEmpty) <==>
              TrimSpace(input) == "" ||
              (WellSpelled(u) && (Digits(u) == "" || (!HasPrefix(u, "+") && Digits(u) == "00")))
  {
    var u := UserPart(TrimSpace(input));
    hide UserPart, WellSpelled, TrimSpace;
    assert HasPrefix(Digits(u), "00") && Digits(u)[2..] == "" ==> Digits(u) == "00";
  }

  /** TrimRight takes off exactly the spaces at the end. */
  lemma {:induction false} TrimRightSplits(s: string)
    ensures |TrimRight(s)| <= |s| && TrimRight(s) == s[..|TrimRight(s)|]
    ensures AllSpace(s[|TrimRight(s)|..])
    ensures TrimRight(s) == "" || !IsSpace(TrimRight(s)[|TrimRight(s)| - 1])
  {
    if s != "" && IsSpace(s[|s| - 1]) {
      var t := s[..|s| - 1];
      TrimRightSplits(t);
      assert s[|TrimRight(s)|..] == t[|TrimRight(t)|..] + [s[|s| - 1]];
    }
  }

  lemma {:induction false} TrimRightConcat(a: string, b: string)
    ensures TrimRight(a + b) == if AllSpace(b) then TrimRight(a) else a + TrimRight(b)
  {
    if b == "" {
      assert a + b == a;
    } else {
      var c := b[..|b| - 1];
      assert b == c + [b[|b| - 1]];
      assert (a + b)[..|a + b| - 1] == a + c;
      TrimRightConcat(a, c);
    }
  }

  predicate IsPlain(c: char) {
    IsDigit(c) || IsSeparator(c)
  }

  predicate AllPlain(s: string) {
    forall i :: 0 <= i < |s| ==> IsPlain(s[i])
  }

  lemma WellSpelledConcat(p: string, q: string)
    requires p != ""
    ensures WellSpelled(p + q) <==> WellSpelled(p) && AllPlain(q)
  {
    var s := p + q;
    if WellSpelled(s) {
      forall i | 0 <= i < |q| ensures IsPlain(q[i]) {
        assert q[i] == s[|p| + i];
      }
      forall i | 0 <= i < |p| ensures IsPlain(p[i]) || (i == 0 && p[0] == '+') {
        assert p[i] == s[i];
      }
    }
  }

  const CUTS := {';', '>', '@'}

  /** A string that starts with a digit or "+" has no bracket and no scheme, so the user part ends at the
      first of ";", ">" and "@". */
  lemma PlainUserPart(s: string)
    requires s != "" && (IsDigit(s[0]) || s[0] == '+')
    ensures UserPart(s) == s[..FirstOf(s, CUTS)]
  {
    assert Lower(s[0]) == s[0];
    assert WithoutScheme(WithoutBracket(s)) == s;
    CutTwice(s);
  }

  lemma {:induction false} CutTwice(s: string)
    ensures var a := s[..FirstOf(s, {';', '>'})]; a[..FirstOf(a, {'@'})] == s[..FirstOf(s, CUTS)]
  {
    if s != "" && s[0] !in CUTS {
      CutTwice(s[1..]);
      var t := s[1..];
      var a, b := s[..FirstOf(s, {';', '>'})], t[..FirstOf(t, {';', '>'})];
      assert a == [s[0]] + b && a[1..] == b;
      assert a[..FirstOf(a, {'@'})] == [s[0]] + b[..FirstOf(b, {'@'})];
    }
  }

  /** The part of a number that is read, for a string that starts with a digit or "+". */
  function Read(s: string): string {
    if FirstOf(s, CUTS) < |s| then s[..FirstOf(s, CUTS)] else TrimRight(s)
  }

  lemma ReadTrimmed(s: string)
    ensures var t := TrimRight(s); Read(s) == t[..FirstOf(t, CUTS)]
  {
    var t := TrimRight(s);
    TrimRightSplits(s);
    var rest := s[|t|..];
    assert s == t + rest;
    FirstOfConcat(t, rest, CUTS);
    FirstOfNone(rest, CUTS);
    assert s[..FirstOf(t, CUTS)] == t[..FirstOf(t, CUTS)];
  }

  lemma TrimRightKeepsFirst(s: string)
    requires s != "" && !IsSpace(s[0])
    ensures TrimRight(s) != "" && TrimRight(s)[0] == s[0]
  {
    TrimRightSplits(s);
    assert s[0..] == s;
  }

  lemma NormalReads(s: string)
    requires s != "" && (IsDigit(s[0]) || s[0] == '+')
    ensures Normal(s) == ReadNumber(Read(s))
  {
    TrimRightKeepsFirst(s);
    ReadTrimmed(s);
    PlainUserPart(TrimRight(s));
  }

  // ---- What may stand before a number

  /** tel:, sips: or sip: in any case, or nothing. */
  predicate IsScheme(w: string) {
    || w == ""
    || (|w| == 4 && (HasScheme(w, "tel:") || HasScheme(w, "sip:")))
    || (|w| == 5 && HasScheme(w, "sips:"))
  }

  /** A bracket and a scheme, either or neither. */
  predicate IsOpening(w: string) {
    IsScheme(WithoutBracket(w))
  }

  predicate StartsNumber(s: string) {
    s != "" && (IsDigit(s[0]) || s[0] == '+')
  }

  lemma SchemeDropped(w: string, s: string)
    requires IsScheme(w) && StartsNumber(s)
    ensures WithoutScheme(w + s) == s
  {
    var r := w + s;
    assert r[|w|..] == s && r[|w|] == s[0];
    assert forall i :: 0 <= i < |w| ==> r[i] == w[i];
    assert "tel:"[0] == 't' && "sips:"[3] == 's' && "sip:"[3] == ':' && "sip:"[0] == 's' && "sips:"[0] == 's';
    if w == "" {
      assert r == s && Lower(s[0]) == s[0];
    } else if HasScheme(w, "tel:") {
      assert HasScheme(r, "tel:");
    } else if |w| == 5 {
      assert Lower(w[0]) == 's' && HasScheme(r, "sips:") && !HasScheme(r, "tel:");
    } else {
      assert Lower(w[0]) == 's' && Lower(w[3]) == ':';
      assert HasScheme(r, "sip:") && !HasScheme(r, "tel:") && !HasScheme(r, "sips:");
    }
  }

  lemma OpeningDropped(w: string, s: string)
    requires IsOpening(w) && StartsNumber(s)
    ensures WithoutScheme(WithoutBracket(w + s)) == s == WithoutScheme(WithoutBracket(s))
    ensures w != "" ==> !IsSpace(w[0])
  {
    hide WithoutScheme;
    SchemeDropped(WithoutBracket(w), s);
    SchemeDropped("", s);
    assert "" + s == s && WithoutBracket(s) == s;
    if HasPrefix(w, "<") {
      assert WithoutBracket(w + s) == w[1..] + s;
    } else if w == "" {
      assert w + s == s;
    } else {
      assert Lower(w[0]) == 't' || Lower(w[0]) == 's';
      assert (w + s)[0] == w[0];
      assert WithoutBracket(w + s) == w + s;
    }
  }

  lemma OpeningParts(w: string, s: string)
    requires IsOpening(w) && StartsNumber(s)
    ensures UserPart(w + s) == UserPart(s) && HostPart(w + s) == HostPart(s) && Address(w + s) == Address(s)
  {
    hide FirstOf, WithoutScheme, WithoutBracket, IsOpening, StartsNumber;
    OpeningDropped(w, s);
  }

  lemma {:induction false} TrimLeftDrops(space: string, s: string)
    requires AllSpace(space) && s != "" && !IsSpace(s[0])
    ensures TrimLeft(space + s) == s
  {
    if space == "" {
      assert space + s == s;
    } else {
      assert (space + s)[1..] == space[1..] + s;
      TrimLeftDrops(space[1..], s);
    }
  }

  /** White space, a bracket and a scheme before a number change nothing. */
  lemma OpeningUnread(space: string, w: string, s: string)
    requires AllSpace(space) && IsOpening(w) && StartsNumber(s)
    ensures Normal(space + (w + s)) == Normal(s)
  {
    OpeningDropped(w, s);
    assert (w + s)[0] == if w == "" then s[0] else w[0];
    TrimLeftDrops(space, w + s);
    TrimLeftDrops("", s);
    assert "" + s == s;
    TrimRightConcat(w, s);
    TrimRightKeepsFirst(s);
    OpeningParts(w, TrimRight(s));
    hide UserPart;
    assert TrimSpace(space + (w + s)) == w + TrimRight(s);
    assert TrimSpace(s) == TrimRight(s);
  }

  lemma E164Reads(n: string)
    requires IsE164(n)
    ensures FirstOf(n, CUTS) == |n| && !IsSpace(n[|n| - 1]) && ReadNumber(n) == Ok(n)
  {
    var d := n[1..];
    assert n == "+" + d;
    FirstOfConcat("+", d, CUTS);
    FirstOfNone(d, CUTS);
    assert n[|n| - 1] == d[|d| - 1];
    WellSpelledConcat("+", d);
    DigitsOfDigits(d);
  }

  /** Normalize leaves an E.164 number alone. */
  lemma E164IsNormal(n: string)
    requires IsE164(n)
    ensures Normal(n) == Ok(n)
  {
    NormalReads(n);
    E164Reads(n);
  }

  /** Normalize is idempotent. */
  lemma NormalIdempotent(input: string)
    requires Normal(input).Ok?
    ensures Normal(Normal(input).value) == Normal(input)
  {
    NormalIsE164(input);
    E164IsNormal(Normal(input).value);
  }

  lemma TrimRightAppend(p: string, x: string)
    requires p != "" && !IsSpace(p[|p| - 1])
    ensures TrimRight(p + x) == p + TrimRight(x)
  {
    TrimRightConcat(p, x);
    TrimRightConcat("", x);
    assert "" + x == x && p + "" == p;
  }

  lemma TakeAppend(p: string, x: string, k: nat)
    requires k <= |x|
    ensures (p + x)[..|p| + k] == p + x[..k]
  {
  }

  lemma ReadConcat(p: string, x: string)
    requires p != "" && FirstOf(p, CUTS) == |p| && !IsSpace(p[|p| - 1])
    ensures Read(p + x) == p + Read(x)
  {
    hide FirstOf, TrimRight, IsSpace;
    FirstOfConcat(p, x, CUTS);
    TakeAppend(p, x, FirstOf(x, CUTS));
    TrimRightAppend(p, x);
  }

  lemma PrefixesAgree(r: string)
    ensures ReadNumber("00" + r) == ReadNumber("+" + r)
  {
    WellSpelledConcat("00", r);
    WellSpelledConcat("+", r);
    DigitsConcat("00", r);
    DigitsConcat("+", r);
    DigitsOfDigits("00");
    assert ("00" + Digits(r))[2..] == Digits(r);
    assert Digits("+") == "";
  }

  lemma DoubleZeroReads(x: string)
    ensures Normal("00" + x) == Normal("+" + x)
  {
    NormalReads("00" + x);
    NormalReads("+" + x);
    FirstOfNone("00", CUTS);
    FirstOfNone("+", CUTS);
    hide FirstOf, Read, ReadNumber, Normal;
    ReadConcat("00", x);
    ReadConcat("+", x);
    PrefixesAgree(Read(x));
  }

  /** "00" and "+" are the same international prefix, whatever follows and whatever opening they stand behind. */
  lemma DoubleZeroIsPlus(space: string, w: string, x: string)
    requires AllSpace(space) && IsOpening(w)
    ensures Normal(space + (w + ("00" + x))) == Normal(space + (w + ("+" + x)))
  {
    hide Normal, IsOpening;
    OpeningUnread(space, w, "00" + x);
    OpeningUnread(space, w, "+" + x);
    DoubleZeroReads(x);
  }

  /** Where a separator may be added to p + q, after its sign, without changing what it is read as:
      anywhere but after trailing whitespace that is no separator, which it would stop from being trimmed. */
  predicate SeparatorFits(p: string, c: char, q: string) {
    || IsBlank(c)
    || !AllSpace(q)
    || FirstOf(p, CUTS) < |p|
    || AllBlank(p[|TrimRight(p)|..])
  }

  predicate AllBlank(s: string) {
    forall i :: 0 <= i < |s| ==> IsBlank(s[i])
  }

  lemma SeparatorUnread(p: string, c: char, q: string)
    requires p != "" && IsSeparator(c)
    ensures ReadNumber(p + [c] + q) == ReadNumber(p + q)
  {
    WellSpelledConcat(p, q);
    assert p + [c] + q == p + ([c] + q);
    WellSpelledConcat(p, [c] + q);
    assert AllPlain([c] + q) <==> AllPlain(q) by {
      if AllPlain([c] + q) {
        forall i | 0 <= i < |q| ensures IsPlain(q[i]) { assert q[i] == ([c] + q)[i + 1]; }
      }
    }
    DigitsConcat(p, q);
    DigitsConcat(p, [c] + q);
    DigitsConcat([c], q);
    assert Digits([c]) == "";
    assert HasPrefix(p + q, "+") == HasPrefix(p, "+") == HasPrefix(p + ([c] + q), "+");
  }

  lemma {:induction false} BlanksUnread(p: string, tail: string)
    requires p != "" && AllBlank(tail)
    ensures ReadNumber(p + tail) == ReadNumber(p)
  {
    if tail == "" {
      assert p + tail == p;
    } else {
      SeparatorUnread(p, tail[0], tail[1..]);
      assert p + tail == p + [tail[0]] + tail[1..];
      BlanksUnread(p, tail[1..]);
    }
  }

  /** The user part ends in p, in q, or nowhere. */
  lemma ReadCutFirst(p: string, q: string)
    requires FirstOf(p, CUTS) < |p|
    ensures Read(p + q) == p[..FirstOf(p, CUTS)]
  {
    FirstOfConcat(p, q, CUTS);
  }

  lemma ReadCutSecond(p: string, q: string)
    requires FirstOf(p, CUTS) == |p| && FirstOf(q, CUTS) < |q|
    ensures Read(p + q) == p + q[..FirstOf(q, CUTS)]
  {
    FirstOfConcat(p, q, CUTS);
    var j := FirstOf(q, CUTS);
    assert (p + q)[..|p| + j] == p + q[..j];
  }

  lemma ReadUncut(p: string, q: string)
    requires FirstOf(p, CUTS) == |p| && FirstOf(q, CUTS) == |q|
    ensures Read(p + q) == if AllSpace(q) then TrimRight(p) else p + TrimRight(q)
  {
    FirstOfConcat(p, q, CUTS);
    TrimRightConcat(p, q);
  }

  lemma SeparatorUncut(p: string, c: char)
    requires IsSeparator(c)
    ensures FirstOf(p, CUTS) < |p| ==> FirstOf(p + [c], CUTS) == FirstOf(p, CUTS)
    ensures FirstOf(p, CUTS) == |p| ==> FirstOf(p + [c], CUTS) == |p + [c]|
    ensures TrimRight(p + [c]) == if IsBlank(c) then TrimRight(p) else p + [c]
  {
    FirstOfConcat(p, [c], CUTS);
    FirstOfNone([c], CUTS);
    TrimRightConcat(p, [c]);
    assert TrimRight([c]) == if IsBlank(c) then "" else [c];
  }

  lemma SeparatorLast(p: string, c: char)
    requires HasPrefix(p, "+") && IsSeparator(c)
    ensures AllBlank(p[|TrimRight(p)|..]) ==> ReadNumber(p + [c]) == ReadNumber(TrimRight(p))
    ensures !AllBlank(p[|TrimRight(p)|..]) ==> ReadNumber(p + [c]) == Err(ErrNotE164)
  {
    var r := TrimRight(p);
    TrimRightKeepsFirst(p);
    TrimRightSplits(p);
    var tail := p[|r|..];
    assert p == r + tail;
    SeparatorUnread(p, c, "");
    assert p + [c] + "" == p + [c] && p + "" == p;
    if AllBlank(tail) {
      BlanksUnread(r, tail);
    } else {
      WellSpelledConcat(r, tail);
    }
  }

  lemma SeparatorRead(p: string, c: char, q: string)
    requires HasPrefix(p, "+") && IsSeparator(c)
    ensures SeparatorFits(p, c, q) ==> ReadNumber(Read(p + [c] + q)) == ReadNumber(Read(p + q))
    ensures !SeparatorFits(p, c, q) ==> ReadNumber(Read(p + [c] + q)) == Err(ErrNotE164)
  {
    SeparatorUncut(p, c);
    if FirstOf(p, CUTS) < |p| {
      ReadCutFirst(p, q);
      ReadCutFirst(p + [c], q);
      assert (p + [c])[..FirstOf(p, CUTS)] == p[..FirstOf(p, CUTS)];
    } else if FirstOf(q, CUTS) < |q| {
      ReadCutSecond(p, q);
      ReadCutSecond(p + [c], q);
      SeparatorUnread(p, c, q[..FirstOf(q, CUTS)]);
      FirstOfStops(q, CUTS);
    } else {
      ReadUncut(p, q);
      ReadUncut(p + [c], q);
      if !AllSpace(q) {
        SeparatorUnread(p, c, TrimRight(q));
      } else if !IsBlank(c) {
        SeparatorLast(p, c);
      }
    }
  }

  /** A visual separator added after the sign changes nothing where it fits, and where it does not the number is
      refused (section 5.1.1 of RFC 3966), whatever opening the sign stands behind. */
  lemma SeparatorAdded(space: string, w: string, p: string, c: char, q: string)
    requires AllSpace(space) && IsOpening(w) && HasPrefix(p, "+") && IsSeparator(c)
    ensures Normal(space + (w + (p + [c] + q))) ==
            if SeparatorFits(p, c, q) then Normal(space + (w + (p + q))) else Err(ErrNotE164)
  {
    OpeningUnread(space, w, p + q);
    OpeningUnread(space, w, p + [c] + q);
    NormalReads(p + q);
    NormalReads(p + [c] + q);
    SeparatorRead(p, c, q);
  }

  lemma NewlineTrimmed()
    ensures FirstOf("+1" + "\n", CUTS) == 3 && TrimRight("+1" + "\n") == "+1" && AllSpace("\n") && !IsBlank('\n')
  {
    E164Reads("+1");
    FirstOfConcat("+1", "\n", CUTS);
    assert FirstOf("\n", CUTS) == 1;
    TrimRightConcat("+1", "\n");
    assert TrimRight("+1") == "+1";
  }

  /** The one place a separator does not fit: between a trailing newline and the end. */
  lemma SeparatorAfterNewline()
    ensures Normal("tel:" + ("+1" + "\n")) == Ok("+1")
    ensures Normal("tel:" + ("+1" + "\n" + "-")) == Err(ErrNotE164)
  {
    hide FirstOf, TrimRight, Normal, ReadNumber, IsOpening, IsE164, AllSpace;
    var p := "+1" + "\n";
    TelOpens();
    OneIsE164();
    E164Reads("+1");
    NewlineTrimmed();
    NothingIsSpace();
    OpeningUnread("", "tel:", p);
    NormalReads(p);
    assert p[2..] == "\n" && p[2..][0] == '\n';
    assert p + ['-'] + "" == p + "-";
    SeparatorAdded("", "tel:", p, '-', "");
    assert "" + ("tel:" + p) == "tel:" + p && "" + ("tel:" + (p + "-")) == "tel:" + (p + "-");
  }

  lemma OneIsE164()
    ensures IsE164("+1")
  {
    assert "+1"[1..] == "1";
  }

  lemma NothingIsSpace()
    ensures AllSpace("")
  {
  }

  lemma TelOpens()
    ensures IsOpening("tel:")
  {
    var w := "tel:";
    assert w[0] == 't' && w[1] == 'e' && w[2] == 'l' && w[3] == ':';
    assert Lower('t') == 't' && Lower('e') == 'e' && Lower('l') == 'l' && Lower(':') == ':';
    assert WithoutBracket(w) == w;
  }

  lemma E164HasNone(n: string, cs: set<char>)
    requires IsE164(n) && forall c :: c in cs ==> !IsDigit(c) && c != '+'
    ensures FirstOf(n, cs) == |n|
  {
    var d := n[1..];
    assert n == "+" + d;
    FirstOfConcat("+", d, cs);
    FirstOfNone(d, cs);
    FirstOfNone("+", cs);
  }

  lemma CutBehind(n: string, x: string, cs: set<char>)
    requires FirstOf(n, cs) == |n|
    ensures (n + x)[..FirstOf(n + x, cs)] == n + x[..FirstOf(x, cs)]
  {
    FirstOfConcat(n, x, cs);
    TakeAppend(n, x, FirstOf(x, cs));
  }

  lemma URIAddress(w: string, n: string, rest: string)
    requires IsOpening(w) && IsE164(n)
    ensures Address(w + (n + ("@" + rest))) == n + ("@" + rest[..FirstOf(rest, {';', '>'})])
  {
    hide FirstOf, IsE164, IsOpening, WithoutScheme, WithoutBracket;
    OpeningDropped(w, n + ("@" + rest)) by {
      E164Starts(n);
    }
    E164HasNone(n, {';', '>'});
    AtSignUncut();
    CutBehind(n, "@" + rest, {';', '>'});
    CutBehind("@", rest, {';', '>'});
  }

  lemma E164Starts(n: string)
    requires IsE164(n)
    ensures n != "" && n[0] == '+'
  {
  }

  lemma AtSignUncut()
    ensures FirstOf("@", {';', '>'}) == 1
  {
  }

  lemma SplitAtSign(n: string, host: string)
    requires IsE164(n)
    ensures FirstOf(n + ("@" + host), {'@'}) == |n|
    ensures (n + ("@" + host))[..|n|] == n && (n + ("@" + host))[|n| + 1..] == host
  {
    E164HasNone(n, {'@'});
    FirstOfConcat(n, "@" + host, {'@'});
  }

  /** The user part of a URI is what precedes the "@", the host what follows it, with or without a bracket and
      for every scheme in any case. */
  lemma URIParts(w: string, n: string, rest: string)
    requires IsOpening(w) && IsE164(n)
    ensures UserPart(w + (n + ("@" + rest))) == n
    ensures HostPart(w + (n + ("@" + rest)))
         == var a := rest[..FirstOf(rest, {';', '>'})]; a[..FirstOf(a, {':', '?'})]
  {
    URIAddress(w, n, rest);
    SplitAtSign(n, rest[..FirstOf(rest, {';', '>'})]);
  }

  /** A number arrives in a URI as it is written, whatever host and parameters follow. */
  lemma NumberOfURI(space: string, w: string, n: string, rest: string)
    requires AllSpace(space) && IsOpening(w) && IsE164(n)
    ensures Normal(space + (w + (n + ("@" + rest)))) == Ok(n)
  {
    var s := n + ("@" + rest);
    OpeningUnread(space, w, s);
    NormalReads(s);
    E164Reads(n);
    E164HasNone(n, CUTS);
    FirstOfConcat(n, "@" + rest, CUTS);
    assert s[..|n|] == n;
  }

  /** Strips the leading "+" to give the form used as a line-less portal ID. */
  function ToID(e164: string): string {
    if HasPrefix(e164, "+") then e164[1..] else e164
  }

  /** ToID loses nothing on the numbers Normalize accepts. */
  lemma ToIDInjective(a: string, b: string)
    requires IsE164(a) && IsE164(b) && ToID(a) == ToID(b)
    ensures a == b
  {
    assert a == "+" + a[1..] && b == "+" + b[1..];
  }
}
