/** The single-location risk node (`event_risk_assessment_node` in
    agent/event_risk_agent.py): find a known city and a time period in the
    input, assess the city's risks, and record the exchange in the history. */
module RiskNode {
  import opened Types
  import opened Text
  import opened TimePeriod

  /** The cities the node recognises, in the order it tries them. */
  const Delhi: string := "Delhi"
  const Mumbai: string := "Mumbai"
  const Bangalore: string := "Bangalore"
  const Chennai: string := "Chennai"
  const Kolkata: string := "Kolkata"
  const Hyderabad: string := "Hyderabad"
  const Pune: string := "Pune"
  const Ahmedabad: string := "Ahmedabad"
  const Jaipur: string := "Jaipur"
  const Lucknow: string := "Lucknow"
  const Cities: seq<string> := [Delhi, Mumbai, Bangalore, Chennai, Kolkata, Hyderabad, Pune, Ahmedabad, Jaipur, Lucknow]

  const UnknownLocation: string := "Unknown"

  /** The position of the first name from position `k` on whose lower-cased
      form occurs in `lowered`, or `|names|`. */
  function FirstMentioned(lowered: string, names: seq<string>, k: nat): (i: nat)
    requires k <= |names|
    ensures k <= i <= |names|
    ensures i < |names| ==> Contains(lowered, Lower(names[i]))
    ensures forall j :: k <= j < i ==> !Contains(lowered, Lower(names[j]))
    decreases |names| - k
  {
    if k == |names| then k
    else if Contains(lowered, Lower(names[k])) then k
    else FirstMentioned(lowered, names, k + 1)
  }

  /** The location of the input: the first recognised city mentioned in it,
      whatever the letter case, in its own spelling; "Unknown" when none is. */
  function LocationOf(input: string): (location: string)
    ensures (forall k :: 0 <= k < |Cities| ==> !Contains(Lower(input), Lower(Cities[k]))) ==>
      location == UnknownLocation
    ensures (exists k :: 0 <= k < |Cities| && Contains(Lower(input), Lower(Cities[k]))) ==>
      exists k :: (0 <= k < |Cities| && location == Cities[k] && Contains(Lower(input), Lower(Cities[k])) &&
        forall j :: 0 <= j < k ==> !Contains(Lower(input), Lower(Cities[j])))
  {
    var i := FirstMentioned(Lower(input), Cities, 0);
    if i < |Cities| then Cities[i] else UnknownLocation
  }

  /** The city loop with `break`. */
  method FindCity(lowered: string) returns (location: string)
    ensures location == (if FirstMentioned(lowered, Cities, 0) < |Cities| then Cities[FirstMentioned(lowered, Cities, 0)] else UnknownLocation)
  {
    location := UnknownLocation;
    var k := 0;
    while k < |Cities|
      invariant 0 <= k <= |Cities|
      invariant FirstMentioned(lowered, Cities, 0) == FirstMentioned(lowered, Cities, k)
    {
      var city := Cities[k];
      if Contains(lowered, Lower(city)) {
        location := city;
        return;
      }
      k := k + 1;
    }
  }

  /** The location and the time period the node extracts from its input. */
  method ExtractLocationAndTime(input: string) returns (location: string, period: string)
    ensures location == LocationOf(input)
    ensures period == TimePatternIn(Lower(input))
  {
    var lowered := Lower(input);
    location := FindCity(lowered);
    period := ScanTimePatterns(lowered);
  }

  /** No recognised city is spelled "Unknown", so a found city always counts as known. */
  lemma CitiesAreKnown()
    ensures forall k :: 0 <= k < |Cities| ==> Cities[k] != UnknownLocation
  {
  }

  // ----- The node -----

  /** The state keys the node writes: `risk_report` and `chat_history`. */
  datatype RiskNodeResult = RiskNodeResult(riskReport: string, history: seq<Message>)

  const MissingLlmMessage: string := "LLM not found in state! State keys: "
  const UnknownLocationReport: string :=
    "## Event Risk Assessment\n\nUnable to determine the location from your query. Please specify the city/location for a proper risk assessment."
  const NodeErrorPrefix: string :=
    "## Event Risk Assessment\n\nI apologize, but I encountered an error while assessing event risk: "

  /** The node, given whether the state holds an LLM, the input, the history
      and the direct assessment of a (location, time period) (`Raised` when it
      raises). A missing LLM raises; otherwise the report and the history it
      leaves. */
  function AssessEventRisk(hasLlm: bool, input: string, history: seq<Message>,
                           assess: (string, string) -> Outcome<string>): Outcome<RiskNodeResult>
  {
    if !hasLlm then Raised(MissingLlmMessage)
    else
      var location := LocationOf(input);
      var period := TimePatternIn(Lower(input));
      if location == UnknownLocation then
        Returned(RiskNodeResult(UnknownLocationReport, history + [Message(input), Message(UnknownLocationReport)]))
      else
        match assess(location, period)
        case Raised(e) => Returned(RiskNodeResult(NodeErrorPrefix + e, history))
        case Returned(report) => Returned(RiskNodeResult(report, history + [Message(input), Message(report)]))
  }

  method EventRiskAssessmentNode(hasLlm: bool, input: string, history: seq<Message>,
                                 assess: (string, string) -> Outcome<string>) returns (r: Outcome<RiskNodeResult>)
    ensures r == AssessEventRisk(hasLlm, input, history, assess)
  {
    if !hasLlm {
      return Raised(MissingLlmMessage);
    }
    var location, period := ExtractLocationAndTime(input);
    var report: string;
    if location == UnknownLocation {
      report := UnknownLocationReport;
    } else {
      var assessed := assess(location, period);
      if assessed.Raised? {
        return Returned(RiskNodeResult(NodeErrorPrefix + assessed.message, history));
      }
      report := assessed.value;
    }
    r := Returned(RiskNodeResult(report, history + [Message(input), Message(report)]));
  }

  /** The node raises exactly when the state has no LLM. Otherwise the history
      grows by exactly the input and the report, unless the assessment of a
      recognised city raised, in which case it comes back unchanged with the
      error report. */
  lemma NodeHistoryUpdate(hasLlm: bool, input: string, history: seq<Message>, assess: (string, string) -> Outcome<string>)
    ensures AssessEventRisk(hasLlm, input, history, assess).Raised? <==> !hasLlm
    ensures hasLlm ==>
      var r := AssessEventRisk(hasLlm, input, history, assess).value;
      var failed := LocationOf(input) != UnknownLocation && assess(LocationOf(input), TimePatternIn(Lower(input))).Raised?;
      (!failed ==> r.history == history + [Message(input), Message(r.riskReport)]) &&
      (failed ==> r.history == history && NodeErrorPrefix <= r.riskReport)
  {
  }

  /** With no recognised city, the report is the fixed request for a location
      and the assessment is never called: any assessor gives the same result. */
  lemma UnknownLocationCallsNothing(input: string, history: seq<Message>,
                                    assess: (string, string) -> Outcome<string>, assess2: (string, string) -> Outcome<string>)
    requires forall k :: 0 <= k < |Cities| ==> !Contains(Lower(input), Lower(Cities[k]))
    ensures AssessEventRisk(true, input, history, assess) ==
      Returned(RiskNodeResult(UnknownLocationReport, history + [Message(input), Message(UnknownLocationReport)]))
    ensures AssessEventRisk(true, input, history, assess2) == AssessEventRisk(true, input, history, assess)
  {
  }

  /** With a recognised city, the assessment is asked about that city and the
      time period of the input, and its report is what the node returns. */
  lemma KnownCityIsAssessed(input: string, history: seq<Message>, assess: (string, string) -> Outcome<string>, k: nat)
    requires k < |Cities| && Contains(Lower(input), Lower(Cities[k]))
    requires forall j :: 0 <= j < k ==> !Contains(Lower(input), Lower(Cities[j]))
    requires assess(Cities[k], TimePatternIn(Lower(input))).Returned?
    ensures var report := assess(Cities[k], TimePatternIn(Lower(input))).value;
      AssessEventRisk(true, input, history, assess) ==
        Returned(RiskNodeResult(report, history + [Message(input), Message(report)]))
  {
    var i := FirstMentioned(Lower(input), Cities, 0);
    assert i == k;
    CitiesAreKnown();
  }
}
