/** Which portal a conference or a typed number means: conferenceFor, portalIDFromConference and
    portalIDForNumber of pkg/calls/subsystem.go. */
module Dialling {
  import opened Results
  import opened Text
  import opened E164
  import opened PortalId
  import Calls

  /** The number has a room on each of several lines. */
  datatype AmbiguousNumber = AmbiguousNumber(number: string, lines: seq<string>)

  // ---- Conferences

  /** Every conference of this bridge names one portal, and every portal but "" has one conference. */
  lemma ConferenceRoundTrip(prefix: string, portalId: string)
    ensures Calls.PortalIdOf(prefix, Calls.ConferenceFor(prefix, portalId)) ==
            if prefix != "" && portalId != "" then Some(portalId) else None
  {
    var c := Calls.ConferenceFor(prefix, portalId);
    assert c[..|prefix|] == prefix && c[|prefix|..] == portalId;
  }

  lemma PortalRoundTrip(prefix: string, conference: string)
    requires Calls.PortalIdOf(prefix, conference).Some?
    ensures Calls.ConferenceFor(prefix, Calls.PortalIdOf(prefix, conference).value) == conference
  {
    assert conference == conference[..|prefix|] + conference[|prefix|..];
  }

  // ---- Numbers

  /** A room of the number on a line. */
  predicate OnLine(e164: string, id: string) {
    !IsLineRoomID(id) && NumberFromID(id) == e164 && LineFromID(id) != ""
  }

  /** The rooms of the number on lines, in the order they are listed. */
  function OnLines(e164: string, existing: seq<string>): (ids: seq<string>)
    ensures forall id :: id in ids <==> id in existing && OnLine(e164, id)
  {
    if existing == [] then []
    else
      var n := |existing| - 1;
      OnLines(e164, existing[..n]) + if OnLine(e164, existing[n]) then [existing[n]] else []
  }

  function LinesOf(ids: seq<string>): seq<string> {
    if ids == [] then []
    else
      var n := |ids| - 1;
      LinesOf(ids[..n]) + [LineFromID(ids[n])]
  }

  /** Which of the portals that exist a bare number dials. */
  method PortalIDForNumber(e164: string, existing: seq<string>) returns (r: Result<string, AmbiguousNumber>)
    ensures var ids := OnLines(e164, existing);
            match r
            case Ok(id) => id == if |ids| == 1 then ids[0] else ToID(e164)
            case Err(e) =>
              |ids| > 1 && e.number == e164 && Sorted(e.lines) && multiset(e.lines) == multiset(LinesOf(ids))
    ensures r.Ok? <==> |OnLines(e164, existing)| <= 1
  {
    var onLines: seq<string> := [];
    for i := 0 to |existing|
      invariant onLines == OnLines(e164, existing[..i])
    {
      var id := existing[i];
      assert existing[..i + 1][..i] == existing[..i];
      if IsLineRoomID(id) {
        continue;
      }
      if NumberFromID(id) == e164 && LineFromID(id) != "" {
        onLines := onLines + [id];
      }
    }
    assert existing[..|existing|] == existing;
    if |onLines| == 0 {
      return Ok(ToID(e164));
    }
    if |onLines| == 1 {
      return Ok(onLines[0]);
    }
    var lines := SortedLines(onLines);
    r := Err(AmbiguousNumber(e164, lines));
  }

  lemma NoneSorted()
    ensures Sorted([])
  {
  }

  method SortedLines(ids: seq<string>) returns (lines: seq<string>)
    ensures Sorted(lines) && multiset(lines) == multiset(LinesOf(ids))
  {
    hide Sorted, InsertSorted, LineFromID;
    lines := [];
    NoneSorted();
    for i := 0 to |ids|
      invariant Sorted(lines) && multiset(lines) == multiset(LinesOf(ids[..i]))
    {
      var line := LineFromID(ids[i]);
      InsertedSorted(lines, line);
      lines := InsertSorted(lines, line);
      assert ids[..i + 1][..i] == ids[..i];
    }
    assert ids[..|ids|] == ids;
  }

  /** A candidate is an existing conversation with the number itself, and on a line: neither a room of a line, nor the
      conversation of the number on no line. */
  lemma CandidatesAreOnLines(e164: string, existing: seq<string>, id: string)
    ensures id in OnLines(e164, existing) <==>
            && id in existing && NumberFromID(id) == e164
            && KindOf(id).0 == KindNumber && KindOf(id).1 != ""
  {
  }

  /** The portal dialled is one of the number itself, never of a number that it ends or of a line whose name ends
      in a digit. */
  lemma DialsTheNumber(e164: string, existing: seq<string>, id: string)
    requires IsE164(e164)
    requires id == if |OnLines(e164, existing)| == 1 then OnLines(e164, existing)[0] else ToID(e164)
    ensures NumberFromID(id) == e164 && !IsLineRoomID(id)
  {
    if |OnLines(e164, existing)| == 1 {
      assert id in OnLines(e164, existing);
    } else {
      LinelessID(e164);
      LinelessIsNoRoom(e164);
    }
  }

  lemma LinelessIsNoRoom(e164: string)
    requires IsE164(e164)
    ensures !IsLineRoomID(ToID(e164))
  {
    E164IsNormal(e164);
    assert IDFor("", e164) == Ok(ToID(e164));
    KindOfNumber("", e164);
  }

  /** A number that has a room on a line, dialled bare, reaches the room where that line's inbound calls land,
      unless it has rooms on more lines. */
  lemma DialsTheLinesRoom(line: string, input: string, existing: seq<string>)
    requires line != "" && IDFor(line, input).Ok? && IDFor(line, input).value in existing
    ensures var ids := OnLines(Normal(input).value, existing);
            |ids| >= 1 && (|ids| == 1 ==> ids[0] == IDFor(line, input).value)
  {
    var id := IDFor(line, input).value;
    IDForRoundTrip(line, input);
    KindOfNumber(line, input);
    hide IDFor, NumberFromID, LineFromID, IsLineRoomID, Normal;
    assert OnLine(Normal(input).value, id);
    assert id in OnLines(Normal(input).value, existing);
  }
}
