/** Which stored venues a follow-up asks to assess (`handle_risk_assessment_request`
    in agent/venue_graph.py), and the clarification sent when it names none. */
module VenueSelection {
  import opened Types
  import opened Text

  /** Any of these in the lower-cased input selects every stored venue. */
  const SelectAllPhrases: seq<string> := ["yes", "all venues", "all", "risk assessment", "assess risks"]

  predicate SelectsAll(input: string) {
    ContainsAny(Lower(input), SelectAllPhrases)
  }

  /** Ordinal cues, matched case-sensitively on the raw input: position k is
      named by `OrdinalDigits[k]` or `OrdinalWords[k]`. */
  const OrdinalDigits: seq<string> := ["1", "2", "3"]
  const OrdinalWords: seq<string> := ["first", "second", "third"]

  predicate MentionsOrdinal(input: string, k: nat)
    requires k < 3
  {
    Contains(input, OrdinalDigits[k]) || Contains(input, OrdinalWords[k])
  }

  function OrdinalPick(input: string, venues: seq<Venue>, k: nat): seq<Venue>
    requires k < 3
  {
    if MentionsOrdinal(input, k) && k < |venues| then [venues[k]] else []
  }

  /** The venues picked by ordinal, in 1, 2, 3 order. */
  function OrdinalPicks(input: string, venues: seq<Venue>): seq<Venue> {
    OrdinalPick(input, venues, 0) + OrdinalPick(input, venues, 1) + OrdinalPick(input, venues, 2)
  }

  /** `venue.get('name', '').lower()`. */
  function VenueKey(v: Venue): string {
    Lower(v.name.GetOr(""))
  }

  predicate NameMentioned(lowerInput: string, v: Venue) {
    Contains(lowerInput, VenueKey(v))
  }

  /** The stored venues whose full lower-cased name occurs in the lower-cased input, in stored order. */
  function NameMatches(lowerInput: string, venues: seq<Venue>): seq<Venue> {
    if venues == [] then []
    else
      var last := venues[|venues| - 1];
      NameMatches(lowerInput, venues[..|venues| - 1]) + (if NameMentioned(lowerInput, last) then [last] else [])
  }

  /** The venues to assess. */
  function Selection(input: string, venues: seq<Venue>): seq<Venue> {
    if SelectsAll(input) then venues
    else OrdinalPicks(input, venues) + NameMatches(Lower(input), venues)
  }

  /** Builds the selection by appending, as `handle_risk_assessment_request` does. */
  method SelectVenues(input: string, venues: seq<Venue>) returns (selected: seq<Venue>)
    ensures selected == Selection(input, venues)
  {
    if SelectsAll(input) {  // any select-all phrase in the lower-cased input
      return venues;
    }
    selected := [];
    if MentionsOrdinal(input, 0) {  // '1' or 'first' in the raw input
      if |venues| >= 1 { selected := selected + [venues[0]]; }
    }
    if MentionsOrdinal(input, 1) {  // '2' or 'second' in the raw input
      if |venues| >= 2 { selected := selected + [venues[1]]; }
    }
    if MentionsOrdinal(input, 2) {  // '3' or 'third' in the raw input
      if |venues| >= 3 { selected := selected + [venues[2]]; }
    }
    assert selected == OrdinalPicks(input, venues);
    selected := AppendNameMatches(Lower(input), venues, selected);
  }

  /** The name-matching loop: appends, in stored order, every venue whose
      lower-cased name occurs in the lower-cased input. */
  method AppendNameMatches(lowerInput: string, venues: seq<Venue>, prefix: seq<Venue>) returns (selected: seq<Venue>)
    ensures selected == prefix + NameMatches(lowerInput, venues)
  {
    selected := prefix;
    var i := 0;
    assert venues[..i] == [];
    while i < |venues|
      invariant 0 <= i <= |venues|
      invariant selected == prefix + NameMatches(lowerInput, venues[..i])
    {
      var venue := venues[i];
      assert venues[..i + 1][..i] == venues[..i];
      if Contains(lowerInput, Lower(venue.name.GetOr(""))) {
        selected := selected + [venue];
      }
      i := i + 1;
    }
    assert venues[..i] == venues;
  }

  lemma {:induction false} NameMatchesMembers(lowerInput: string, venues: seq<Venue>)
    ensures |NameMatches(lowerInput, venues)| <= |venues|
    ensures forall v :: v in NameMatches(lowerInput, venues) <==> v in venues && NameMentioned(lowerInput, v)
  {
    if venues != [] {
      var n := |venues| - 1;
      NameMatchesMembers(lowerInput, venues[..n]);
      assert venues == venues[..n] + [venues[n]];
    }
  }

  /** A venue is selected exactly when it is stored and either the input selects
      all, or it sits at a mentioned ordinal position (1 to 3), or its name occurs
      in the input; the selection never holds more than three extra entries. */
  lemma SelectionMembers(input: string, venues: seq<Venue>)
    ensures |Selection(input, venues)| <= |venues| + 3
    ensures forall v :: v in Selection(input, venues) <==>
      v in venues &&
      (SelectsAll(input) ||
       (exists k :: 0 <= k < 3 && k < |venues| && venues[k] == v && MentionsOrdinal(input, k)) ||
       NameMentioned(Lower(input), v))
  {
    NameMatchesMembers(Lower(input), venues);
    var picks := OrdinalPicks(input, venues);
    forall v
      ensures v in picks <==> exists k :: 0 <= k < 3 && k < |venues| && venues[k] == v && MentionsOrdinal(input, k)
    {
      if v in picks {
        if v in OrdinalPick(input, venues, 0) {
          assert 0 < |venues| && venues[0] == v && MentionsOrdinal(input, 0);
        } else if v in OrdinalPick(input, venues, 1) {
          assert 1 < |venues| && venues[1] == v && MentionsOrdinal(input, 1);
        } else {
          assert v in OrdinalPick(input, venues, 2);
          assert 2 < |venues| && venues[2] == v && MentionsOrdinal(input, 2);
        }
      }
      if exists k :: 0 <= k < 3 && k < |venues| && venues[k] == v && MentionsOrdinal(input, k) {
        var k :| 0 <= k < 3 && k < |venues| && venues[k] == v && MentionsOrdinal(input, k);
        assert v in OrdinalPick(input, venues, k);
      }
    }
  }

  /** A venue without a name (or with an empty one) is picked by every reply that
      does not select all: the empty key occurs in every input. */
  lemma NamelessVenueAlwaysSelected(input: string, venues: seq<Venue>, v: Venue)
    requires v in venues && v.name.GetOr("") == ""
    ensures v in Selection(input, venues)
  {
    ContainsEmpty(Lower(input));
    SelectionMembers(input, venues);
  }

  /** "venue 2"-style replies: only the second venue is selected, and nothing
      when fewer than two venues are stored. */
  lemma SecondVenueOnly(input: string, venues: seq<Venue>)
    requires !SelectsAll(input)
    requires Contains(input, "2")
    requires !Contains(input, "1") && !Contains(input, "first")
    requires !Contains(input, "3") && !Contains(input, "third")
    requires forall v :: v in venues ==> !NameMentioned(Lower(input), v)
    ensures Selection(input, venues) == if |venues| >= 2 then [venues[1]] else []
  {
    NameMatchesNone(Lower(input), venues);
  }

  lemma {:induction false} NameMatchesNone(lowerInput: string, venues: seq<Venue>)
    requires forall v :: v in venues ==> !NameMentioned(lowerInput, v)
    ensures NameMatches(lowerInput, venues) == []
  {
    if venues != [] {
      NameMatchesNone(lowerInput, venues[..|venues| - 1]);
    }
  }

  // ----- Clarification -----

  /** The line for the venue numbered `n`: "n. name", 'Unknown' for a missing name. */
  function ClarificationLine(n: nat, v: Venue): string {
    NatToString(n) + ". " + v.name.GetOr("Unknown")
  }

  function ClarificationLines(venues: seq<Venue>): seq<string> {
    seq(|venues|, i requires 0 <= i < |venues| => ClarificationLine(i + 1, venues[i]))
  }

  const ClarificationHead: string := "I'm not sure which venues you'd like me to assess for risks. \n\n"
  const ClarificationTail: string :=
    "\n\nPlease specify which venues you'd like me to assess by responding with:\n"
    + "- \"All venues\" or \"Yes\" - for all venues\n"
    + "- \"Venue 1\" or \"The Leela\" - for specific venue(s)\n"
    + "- Venue numbers like \"1 and 3\" or \"first and third\""

  /** The reply when the selection is empty: the stored venues numbered from 1. */
  function ClarificationText(venues: seq<Venue>): string {
    ClarificationHead + Join("\n", ClarificationLines(venues)) + ClarificationTail
  }

  /** The clarification lists every stored venue as "i. name", i counted from 1,
      with 'Unknown' for a missing name. */
  lemma ClarificationListsEveryVenue(venues: seq<Venue>, i: nat)
    requires i < |venues|
    ensures Contains(ClarificationText(venues), ClarificationLine(i + 1, venues[i]))
  {
    var lines := ClarificationLines(venues);
    var joined := Join("\n", lines);
    assert lines[i] == ClarificationLine(i + 1, venues[i]);
    JoinContainsPart("\n", lines, i);
    ContainsExtend(ClarificationHead, joined, ClarificationTail, lines[i]);
    assert ClarificationText(venues) == ClarificationHead + joined + ClarificationTail;
  }
}
