/** The time-window keywords: found in recent chat history before a batch risk
    assessment (agent/venue_graph.py) and in the query of the single-location
    risk node (agent/event_risk_agent.py, which uses the same five patterns). */
module TimePeriod {
  import opened Types
  import opened Text

  const NextWeek: string := "next week"
  const ThisWeek: string := "this week"
  const NextMonth: string := "next month"
  const Tomorrow: string := "tomorrow"
  const Today: string := "today"

  /** The time-period keywords, in the order they are tried. */
  const TimePatterns: seq<string> := [NextWeek, ThisWeek, NextMonth, Tomorrow, Today]

  /** The first pattern, in list order, that the (already lower-cased) text
      contains; "" when it contains none. */
  function TimePatternIn(lowered: string): (p: string)
    ensures p == "" <==> !ContainsAny(lowered, TimePatterns)
    ensures p != "" ==> exists k :: (0 <= k < |TimePatterns| && p == TimePatterns[k] &&
      Contains(lowered, p) && forall j :: 0 <= j < k ==> !Contains(lowered, TimePatterns[j]))
  {
    var k := FirstContained(lowered, TimePatterns);
    FirstContainedAny(lowered, TimePatterns);
    if k < |TimePatterns| then TimePatterns[k] else ""
  }

  /** `for pattern in time_patterns: if pattern in text: ...; break`. */
  method ScanTimePatterns(lowered: string) returns (period: string)
    ensures period == TimePatternIn(lowered)
  {
    period := "";
    var k := 0;
    while k < |TimePatterns|
      invariant 0 <= k <= |TimePatterns|
      invariant forall q :: 0 <= q < k ==> !Contains(lowered, TimePatterns[q])
    {
      if Contains(lowered, TimePatterns[k]) {
        period := TimePatterns[k];
        assert FirstContained(lowered, TimePatterns) == k;
        return;
      }
      k := k + 1;
    }
    assert FirstContained(lowered, TimePatterns) == |TimePatterns|;
  }

  /** The pattern a history message mentions, if any. */
  function PatternOf(m: Message): Option<string> {
    var p := TimePatternIn(Lower(m.content));
    if p == "" then None else Some(p)
  }

  /** The time window: the pattern of the newest of the last five history
      messages that mentions one, else "". */
  function TimeWindow(history: seq<Message>): string {
    NewestSome(Recent(history, 5), PatternOf).GetOr("")
  }

  /** The nested scan with early exits, as `handle_risk_assessment_request` writes it. */
  method FindTimeWindow(history: seq<Message>) returns (period: string)
    ensures period == TimeWindow(history)
  {
    period := "";
    if history == [] {
      return;
    }
    var recent := Recent(history, 5);
    var j := |recent|;
    assert recent[..j] == recent;
    while j > 0
      invariant 0 <= j <= |recent|
      invariant period == ""
      invariant NewestSome(recent, PatternOf) == NewestSome(recent[..j], PatternOf)
    {
      NewestSomeStep(recent, PatternOf, j);
      period := ScanTimePatterns(Lower(recent[j - 1].content));
      if period != "" {
        return;
      }
      j := j - 1;
    }
    assert recent[..j] == [];
  }

  /** The window is "" exactly when none of the last five messages mentions a
      pattern; otherwise it is the pattern of one of them, and every newer one
      mentions none. */
  lemma TimeWindowSpec(history: seq<Message>)
    ensures var recent := Recent(history, 5);
      (TimeWindow(history) == "" <==> forall i :: 0 <= i < |recent| ==> PatternOf(recent[i]).None?) &&
      (TimeWindow(history) != "" ==> exists i :: (0 <= i < |recent| &&
        PatternOf(recent[i]) == Some(TimeWindow(history)) &&
        forall j :: i < j < |recent| ==> PatternOf(recent[j]).None?))
  {
    var recent := Recent(history, 5);
    NewestSomeSpec(recent, PatternOf);
    if NewestSome(recent, PatternOf).Some? {
      var i :| 0 <= i < |recent| && PatternOf(recent[i]) == NewestSome(recent, PatternOf);
      assert TimeWindow(history) != "";
    }
  }

  /** Messages older than the last five never affect the window. */
  lemma TimeWindowIgnoresOlder(older: seq<Message>, history: seq<Message>)
    requires |history| >= 5
    ensures TimeWindow(older + history) == TimeWindow(history)
  {
    assert Recent(older + history, 5) == Recent(history, 5);
  }
}
