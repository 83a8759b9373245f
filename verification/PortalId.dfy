/** pkg/phonenum/portalid.go: portal IDs, the three things they name, and the line in a SIP URI. */
module PortalId {
  import opened Results
  import opened Text
  import opened E164

  datatype IDError = BadNumber(number: NumberError) | BadLine

  datatype Kind = KindNumber | KindSpace | KindDial

  predicate AllDigits(s: string) {
    forall i :: 0 <= i < |s| ==> IsDigit(s[i])
  }

  /** `\+?[0-9]+`, the number half of a composite ID. */
  predicate IsNumber(s: string) {
    var d := if HasPrefix(s, "+") then s[1..] else s;
    d != "" && AllDigits(d)
  }

  predicate IsLineChar(c: char) {
    'a' <= c <= 'z' || 'A' <= c <= 'Z' || IsDigit(c)
  }

  /** `^[A-Za-z0-9][A-Za-z0-9_-]*$`, what a line may be called. */
  predicate IsLineName(s: string) {
    && s != "" && IsLineChar(s[0])
    && forall i :: 0 <= i < |s| ==> IsLineChar(s[i]) || s[i] == '_' || s[i] == '-'
  }

  /** Index of the last hyphen of s, -1 if there is none. */
  function LastHyphen(s: string): (k: int)
    ensures -1 <= k < |s|
    ensures k >= 0 ==> s[k] == '-'
    ensures forall i :: k < i < |s| ==> s[i] != '-'
  {
    if s == "" then -1
    else if s[|s| - 1] == '-' then |s| - 1
    else LastHyphen(s[..|s| - 1])
  }

  /** `^(.*)-(\+?[0-9]+)$` matches id with its hyphen at k. A dot is any character but a newline. */
  predicate MatchesAt(id: string, k: int) {
    && 0 <= k < |id| && id[k] == '-'
    && (forall i :: 0 <= i < k ==> id[i] != '\n')
    && IsNumber(id[k + 1..])
  }

  predicate IsComposite(id: string) {
    MatchesAt(id, LastHyphen(id))
  }

  /** Splits a portal ID into its line and its number as the ID spells it; an ID that is not composite is
      all number. */
  function SplitID(id: string): (string, string) {
    if IsComposite(id) then (id[..LastHyphen(id)], id[LastHyphen(id) + 1..]) else ("", id)
  }

  /** The number to dial, which a line-less ID spells without its "+". */
  function NumberFromID(id: string): string {
    if IsComposite(id) then id[LastHyphen(id) + 1..]
    else if id == "" then ""
    else "+" + id
  }

  function LineFromID(id: string): string {
    SplitID(id).0
  }

  function MakeID(line: string, number: string): Result<string, IDError> {
    if !IsLineName(line) then Err(BadLine)
    else
      var id := line + "-" + number;
      if SplitID(id) != (line, number) then Err(BadLine) else Ok(id)
  }

  /** The portal ID of a number on a line, or on none. */
  function IDFor(line: string, input: string): Result<string, IDError> {
    match Normal(input)
    case Err(e) => Err(BadNumber(e))
    case Ok(e164) => if line == "" then Ok(ToID(e164)) else MakeID(line, e164)
  }

  function LineFromURI(uri: string): string {
    var host := HostPart(uri);
    if IsLineName(host) then host else ""
  }

  const SPACE_SUFFIX := "-space"
  const DIAL_SUFFIX := "-dial"

  function LineRoomID(line: string, suffix: string): Result<string, IDError> {
    if IsLineName(line) then Ok(line + suffix) else Err(BadLine)
  }

  function LineFromRoomID(id: string, suffix: string): string {
    if HasSuffix(id, suffix) && IsLineName(id[..|id| - |suffix|]) then id[..|id| - |suffix|] else ""
  }

  function SpaceIDFor(line: string): Result<string, IDError> {
    LineRoomID(line, SPACE_SUFFIX)
  }

  function DialIDFor(line: string): Result<string, IDError> {
    LineRoomID(line, DIAL_SUFFIX)
  }

  predicate IsLineRoomID(id: string) {
    LineFromRoomID(id, SPACE_SUFFIX) != "" || LineFromRoomID(id, DIAL_SUFFIX) != ""
  }

  /** What a portal ID names, and on which line. */
  function KindOf(id: string): (Kind, string) {
    if LineFromRoomID(id, SPACE_SUFFIX) != "" then (KindSpace, LineFromRoomID(id, SPACE_SUFFIX))
    else if LineFromRoomID(id, DIAL_SUFFIX) != "" then (KindDial, LineFromRoomID(id, DIAL_SUFFIX))
    else (KindNumber, LineFromID(id))
  }

  /** The composite pattern matches in at most one place, so SplitID does not depend on how a regular
      expression is searched. */
  lemma MatchIsUnique(id: string, k: int)
    requires MatchesAt(id, k)
    ensures k == LastHyphen(id)
  {
    var tail := id[k + 1..];
    forall i | k < i < |id| ensures id[i] != '-' {
      assert id[i] == tail[i - k - 1];
      assert HasPrefix(tail, "+") && i > k + 1 ==> id[i] == tail[1..][i - k - 2];
    }
  }

  /** SplitID inverts joining a line and a number, for every line without a newline. */
  lemma SplitJoined(line: string, number: string)
    requires IsNumber(number) && forall i :: 0 <= i < |line| ==> line[i] != '\n'
    ensures SplitID(line + "-" + number) == (line, number)
    ensures NumberFromID(line + "-" + number) == number
    ensures IsComposite(line + "-" + number)
  {
    var id := line + "-" + number;
    assert id[|line| + 1..] == number && id[..|line|] == line;
    MatchIsUnique(id, |line|);
  }

  /** Joining inverts SplitID: a composite ID is its line, a hyphen and its number. */
  lemma JoinSplit(id: string)
    ensures var (line, number) := SplitID(id);
            if IsComposite(id) then id == line + "-" + number && IsNumber(number) && NumberFromID(id) == number
            else line == "" && number == id
  {
  }

  lemma NotReadBack(id: string, line: string, number: string)
    requires line != "" && !IsNumber(number)
    ensures SplitID(id) != (line, number)
  {
    JoinSplit(id);
  }

  /** MakeID accepts exactly a line name and a number, and its ID reads back as both. */
  lemma MakeIDAccepts(line: string, number: string)
    ensures MakeID(line, number).Ok? <==> IsLineName(line) && IsNumber(number)
    ensures MakeID(line, number).Ok? ==>
              && SplitID(MakeID(line, number).value) == (line, number)
              && NumberFromID(MakeID(line, number).value) == number
  {
    if IsLineName(line) {
      if IsNumber(number) {
        SplitJoined(line, number);
      } else {
        NotReadBack(line + "-" + number, line, number);
      }
    }
  }

  lemma E164IsNumber(n: string)
    requires IsE164(n)
    ensures IsNumber(n) && ToID(n) == n[1..] && AllDigits(ToID(n)) && ToID(n) != ""
  {
  }

  /** A line-less ID has no line and gives its number back with the "+". */
  lemma LinelessID(n: string)
    requires IsE164(n)
    ensures !IsComposite(ToID(n)) && LineFromID(ToID(n)) == "" && NumberFromID(ToID(n)) == n
  {
    E164IsNumber(n);
    var id := ToID(n);
    assert forall i :: 0 <= i < |id| ==> id[i] != '-';
    assert n == "+" + id;
  }

  /** IDFor refuses exactly what Normalize refuses and, on a line, what is no line name: MakeID's read-back
      check never fires here. */
  lemma IDForAccepts(line: string, input: string)
    ensures IDFor(line, input) ==
            if Normal(input).Err? then Err(BadNumber(Normal(input).error))
            else if line == "" then Ok(ToID(Normal(input).value))
            else if IsLineName(line) then Ok(line + "-" + Normal(input).value)
            else Err(BadLine)
  {
    if Normal(input).Ok? {
      NormalIsE164(input);
      E164IsNumber(Normal(input).value);
      MakeIDAccepts(line, Normal(input).value);
    }
  }

  /** An ID reads back as the line and the E.164 number it was made from, in both forms. */
  lemma IDForRoundTrip(line: string, input: string)
    requires IDFor(line, input).Ok?
    ensures LineFromID(IDFor(line, input).value) == line
    ensures NumberFromID(IDFor(line, input).value) == Normal(input).value
  {
    NormalIsE164(input);
    var n := Normal(input).value;
    E164IsNumber(n);
    if line == "" {
      LinelessID(n);
    } else {
      MakeIDAccepts(line, n);
    }
  }

  /** Two conversations share a portal only if they are the same number on the same line. */
  lemma IDForInjective(line1: string, input1: string, line2: string, input2: string)
    requires IDFor(line1, input1).Ok? && IDFor(line1, input1) == IDFor(line2, input2)
    ensures line1 == line2 && Normal(input1) == Normal(input2)
  {
    IDForRoundTrip(line1, input1);
    IDForRoundTrip(line2, input2);
  }

  lemma EndsInDigit(line: string, input: string)
    requires IDFor(line, input).Ok?
    ensures var id := IDFor(line, input).value; id != "" && IsDigit(id[|id| - 1])
  {
    IDForAccepts(line, input);
    NormalIsE164(input);
    var n := Normal(input).value;
    assert n[|n| - 1] == n[1..][|n| - 2];
  }

  lemma LineRoomReadsBack(line: string, suffix: string)
    requires IsLineName(line)
    ensures LineFromRoomID(line + suffix, suffix) == line
  {
    var id := line + suffix;
    assert id[|line|..] == suffix && id[..|line|] == line;
  }

  lemma SuffixEnds(id: string, suffix: string)
    requires HasSuffix(id, suffix) && suffix != ""
    ensures id[|id| - 1] == suffix[|suffix| - 1]
  {
    assert id[|id| - |suffix|..][|suffix| - 1] == id[|id| - 1];
  }

  lemma CompositeEnds(id: string)
    requires IsComposite(id)
    ensures IsDigit(id[|id| - 1])
  {
    var number := id[LastHyphen(id) + 1..];
    var d := if HasPrefix(number, "+") then number[1..] else number;
    assert id[|id| - 1] == number[|number| - 1] == d[|d| - 1];
  }

  /** An ID that ends otherwise than a suffix is no room of that suffix. */
  lemma LastLetterTells(id: string, suffix: string)
    requires id != "" && suffix != "" && id[|id| - 1] != suffix[|suffix| - 1]
    ensures LineFromRoomID(id, suffix) == ""
  {
    if HasSuffix(id, suffix) {
      SuffixEnds(id, suffix);
    }
  }

  /** KindOf inverts the three ways of making a portal ID. */
  lemma KindOfNumber(line: string, input: string)
    requires IDFor(line, input).Ok?
    ensures KindOf(IDFor(line, input).value) == (KindNumber, line)
    ensures !IsLineRoomID(IDFor(line, input).value)
  {
    var id := IDFor(line, input).value;
    EndsInDigit(line, input);
    LastLetterTells(id, SPACE_SUFFIX);
    LastLetterTells(id, DIAL_SUFFIX);
    IDForRoundTrip(line, input);
  }

  lemma KindOfLineRooms(line: string)
    requires IsLineName(line)
    ensures SpaceIDFor(line).Ok? && KindOf(SpaceIDFor(line).value) == (KindSpace, line)
    ensures DialIDFor(line).Ok? && KindOf(DialIDFor(line).value) == (KindDial, line)
  {
    LineRoomReadsBack(line, SPACE_SUFFIX);
    LineRoomReadsBack(line, DIAL_SUFFIX);
    var id := line + DIAL_SUFFIX;
    assert id[|id| - 1] == 'l';
    LastLetterTells(id, SPACE_SUFFIX);
  }

  /** No ID is made in two ways, whatever the lines are called. */
  lemma KindsDisjoint(l: string, input: string, m: string, k: string)
    requires IDFor(l, input).Ok? && IsLineName(m) && IsLineName(k)
    ensures IDFor(l, input) != SpaceIDFor(m)
    ensures IDFor(l, input) != DialIDFor(m)
    ensures SpaceIDFor(m) != DialIDFor(k)
    ensures (SpaceIDFor(m) == SpaceIDFor(k) || DialIDFor(m) == DialIDFor(k)) ==> m == k
  {
    KindOfNumber(l, input);
    KindOfLineRooms(m);
    KindOfLineRooms(k);
  }

  /** A room of a line is never read as a number: SplitID keeps it whole. */
  lemma LineRoomIsNoNumber(line: string)
    requires IsLineName(line)
    ensures SplitID(SpaceIDFor(line).value) == ("", SpaceIDFor(line).value)
    ensures SplitID(DialIDFor(line).value) == ("", DialIDFor(line).value)
  {
    forall suffix | suffix == SPACE_SUFFIX || suffix == DIAL_SUFFIX
      ensures !IsComposite(line + suffix)
    {
      var id := line + suffix;
      assert HasSuffix(id, suffix);
      SuffixEnds(id, suffix);
      if IsComposite(id) {
        CompositeEnds(id);
      }
    }
  }

  /** What may follow a line in a URI: a port, a header or a parameter. */
  predicate IsURITail(tail: string) {
    tail == "" || tail[0] == ':' || tail[0] == '?' || tail[0] == ';' || tail[0] == '>'
  }

  lemma LineHasNone(line: string, cs: set<char>)
    requires IsLineName(line) && '.' !in cs
    requires forall c :: c in cs ==> !IsLineChar(c) && c != '_' && c != '-'
    ensures FirstOf(line, cs) == |line|
  {
    FirstOfNone(line, cs);
  }

  /** A host as it stands in a URI: without a port, a header or a parameter. */
  predicate IsHost(host: string) {
    FirstOf(host, {';', '>'}) == |host| && FirstOf(host, {':', '?'}) == |host|
  }

  lemma HostOfURI(host: string, tail: string)
    requires IsHost(host) && IsURITail(tail)
    ensures var rest := (host + tail)[..FirstOf(host + tail, {';', '>'})];
            rest[..FirstOf(rest, {':', '?'})] == host
  {
    var cs, ds := {';', '>'}, {':', '?'};
    FirstOfConcat(host, tail, cs);
    var t := tail[..FirstOf(tail, cs)];
    assert (host + tail)[..|host| + |t|] == host + t;
    FirstOfConcat(host, t, ds);
    assert FirstOf(t, ds) == 0;
    assert (host + t)[..|host|] == host;
  }

  lemma LineIsHost(line: string)
    requires IsLineName(line)
    ensures IsHost(line)
  {
    LineHasNone(line, {';', '>'});
    LineHasNone(line, {':', '?'});
  }

  /** A message or call that the SIP server resolved to a line keys that line's portal, with any port, header
      or parameter behind the line. */
  lemma URIKeysItsLine(w: string, n: string, line: string, tail: string)
    requires IsOpening(w) && IsE164(n) && IsLineName(line) && IsURITail(tail)
    ensures var uri := w + (n + ("@" + (line + tail)));
            && LineFromURI(uri) == line
            && IDFor(LineFromURI(uri), uri) == Ok(line + "-" + n)
  {
    hide IsE164, IsLineName, IsURITail, HostPart, Normal, IDFor, IsOpening;
    var uri := w + (n + ("@" + (line + tail)));
    URIParts(w, n, line + tail);
    LineIsHost(line);
    HostOfURI(line, tail);
    NumberOfURI("", w, n, line + tail);
    assert "" + uri == uri;
    IDForAccepts(line, uri);
    LineNameNotEmpty(line);
  }

  /** One that it could not resolve comes with the host of its trunk, which has a dot. It keys the portal of the number
      on no line, never one named after a trunk. */
  lemma TrunkKeysNoLine(w: string, n: string, host: string, tail: string)
    requires IsOpening(w) && IsE164(n) && IsHost(host) && '.' in host && IsURITail(tail)
    ensures var uri := w + (n + ("@" + (host + tail)));
            LineFromURI(uri) == "" && IDFor(LineFromURI(uri), uri) == Ok(ToID(n))
  {
    NoLineHasDots(host);
    hide IsE164, IsLineName, IsURITail, HostPart, Normal, IsOpening, IsHost;
    var uri := w + (n + ("@" + (host + tail)));
    URIParts(w, n, host + tail);
    HostOfURI(host, tail);
    NumberOfURI("", w, n, host + tail);
    assert "" + uri == uri;
  }

  lemma NoLineHasDots(host: string)
    requires '.' in host
    ensures !IsLineName(host)
  {
  }

  lemma LineNameNotEmpty(line: string)
    requires IsLineName(line)
    ensures line != ""
  {
  }

  /** What LineFromURI returns can always be spelled into a portal ID: a trunk's hostname gives no line. */
  lemma LineFromURIIsUsable(uri: string, input: string)
    requires Normal(input).Ok?
    ensures IDFor(LineFromURI(uri), input).Ok?
    ensures '.' !in LineFromURI(uri)
  {
    IDForAccepts(LineFromURI(uri), input);
  }
}
