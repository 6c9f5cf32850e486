/** The follow-up gate and the three-way branch at the start of every turn
    (`interactive_collaborative_node` in agent/venue_graph.py). */
module Routing {
  import opened Types
  import opened Text

  /** The continuation phrases; the gate matches them against the lower-cased input. */
  const FollowUpPhrases: seq<string> := [
    "yes", "risk assessment", "assess risks", "check risks", "all venues",
    "venue 1", "venue 2", "first venue", "second venue", "the leela", "taj palace"
  ]

  /** The turn continues a previous venue offer. */
  predicate IsFollowUp(input: string) {
    ContainsAny(Lower(input), FollowUpPhrases)
  }

  /** The gate ignores letter case: upper-casing letters never changes the decision. */
  lemma FollowUpCaseInsensitive(input: string)
    ensures IsFollowUp(Lower(input)) == IsFollowUp(input)
  {
    LowerIdempotent(input);
  }

  /** Surrounding text never turns a follow-up into a new query. */
  lemma {:induction false} FollowUpSurvivesContext(before: string, input: string, after: string)
    requires IsFollowUp(input)
    ensures IsFollowUp(before + input + after)
  {
    var k :| 0 <= k < |FollowUpPhrases| && Contains(Lower(input), FollowUpPhrases[k]);
    LowerAppend(before, input);
    LowerAppend(before + input, after);
    ContainsExtend(Lower(before), Lower(input), Lower(after), FollowUpPhrases[k]);
  }

  /** Where a turn goes. */
  datatype Route =
    | AssessRisks     // a follow-up while venues are stored
    | NoVenuesStored  // a follow-up with an empty store
    | FindVenues      // anything else: a new venue search

  function RouteOf(input: string, stored: seq<Venue>): (r: Route)
    ensures r == AssessRisks <==> IsFollowUp(input) && stored != []
    ensures r == NoVenuesStored <==> IsFollowUp(input) && stored == []
    ensures r == FindVenues <==> !IsFollowUp(input)
  {
    var followUp := IsFollowUp(input);
    if followUp && stored != [] then AssessRisks
    else if followUp then NoVenuesStored
    else FindVenues
  }

  /** The fixed reply to a follow-up when nothing is stored. */
  const NoVenuesStoredText: string :=
    "I don't have any venues stored from our previous conversation. Please start by asking for venue recommendations."
}
