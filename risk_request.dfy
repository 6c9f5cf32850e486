/** The risk-assessment branch of a turn (`handle_risk_assessment_request` in
    agent/venue_graph.py): resolve the user's reply against the stored venues,
    ask for clarification when it names none, otherwise assess the selected
    venues in one batch with the time window found in recent history. */
module RiskRequestHandler {
  import opened Types
  import opened Text
  import opened Routing
  import opened VenueSelection
  import opened TimePeriod
  import opened BatchPrompt

  const RiskErrorPrefix: string := "I apologize, but I encountered an error during risk assessment: "

  function RiskErrorText(e: string): string {
    RiskErrorPrefix + e
  }

  /** The answer once the batch assessment has run: its report, or the apology. */
  function Assessed(report: Outcome<string>, history: seq<Message>, stored: seq<Venue>): NodeResult {
    match report
    case Raised(e) => NodeResult(RiskErrorText(e), history, stored)
    case Returned(text) => NodeResult(text, history, stored)
  }

  /** The branch, given the user's reply, the history and the stored venues. */
  function RiskRequest(env: Env, input: string, history: seq<Message>, stored: seq<Venue>): (r: NodeResult)
    ensures r.history == history && r.venues == stored
  {
    if stored == [] then NodeResult(NoVenuesStoredText, history, stored)
    else
      var selected := Selection(input, stored);
      if selected == [] then NodeResult(ClarificationText(stored), history, stored)
      else Assessed(BatchAssess(env, selected, TimeWindow(history)), history, stored)
  }

  method HandleRiskAssessmentRequest(env: Env, input: string, history: seq<Message>, stored: seq<Venue>)
    returns (r: NodeResult)
    ensures r == RiskRequest(env, input, history, stored)
  {
    if stored == [] {
      return NodeResult(NoVenuesStoredText, history, stored);
    }
    var selected := SelectVenues(input, stored);
    if selected == [] {
      return NodeResult(ClarificationText(stored), history, stored);
    }
    var period := FindTimeWindow(history);
    var report := BatchAssessVenueRisks(env, selected, period);
    r := Assessed(report, history, stored);
  }

  /** When the reply names no stored venue, the answer is the numbered
      clarification and no search or LLM call is made: any collaborators give
      the same result. */
  lemma ClarificationCallsNothing(env: Env, env2: Env, input: string, history: seq<Message>, stored: seq<Venue>)
    requires stored != [] && Selection(input, stored) == []
    ensures RiskRequest(env, input, history, stored) == NodeResult(ClarificationText(stored), history, stored)
    ensures RiskRequest(env2, input, history, stored) == RiskRequest(env, input, history, stored)
  {
  }

  /** A select-all reply assesses exactly the stored venues, in stored order. */
  lemma SelectAllAssessesStore(env: Env, input: string, history: seq<Message>, stored: seq<Venue>)
    requires stored != [] && SelectsAll(input)
    ensures RiskRequest(env, input, history, stored) ==
      Assessed(BatchAssess(env, stored, TimeWindow(history)), history, stored)
  {
  }

  /** A reply that selects something is never answered with the clarification;
      the venues sent for assessment are then all stored ones. */
  lemma AssessesOnlyStoredVenues(env: Env, input: string, history: seq<Message>, stored: seq<Venue>)
    requires stored != [] && Selection(input, stored) != []
    ensures RiskRequest(env, input, history, stored) ==
      Assessed(BatchAssess(env, Selection(input, stored), TimeWindow(history)), history, stored)
    ensures forall v :: v in Selection(input, stored) ==> v in stored
  {
    SelectionMembers(input, stored);
  }
}
