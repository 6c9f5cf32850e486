/** The overall score of a risk report (`calculate_venue_score` in
    agent/event_risk_agent.py): every "N/10" in the report is a score; their
    mean decides the risk level. */
module RiskScore {
  import opened Text

  // ----- Finding the scores -----

  /** The length of the run of digits that starts `s`. */
  function DigitRun(s: string): (n: nat)
    ensures n <= |s|
    ensures AllDigits(s[..n])
    ensures n < |s| ==> !IsDigit(s[n])
  {
    if s != [] && IsDigit(s[0]) then
      var n := 1 + DigitRun(s[1..]);
      assert s[..n] == [s[0]] + s[1..][..n - 1];
      n
    else 0
  }

  const ScoreSuffix: string := "/10"

  /** `re.findall(r'(\d+)/10', s)` converted with `int`: the value of every
      maximal digit run directly followed by "/10", left to right, resuming
      after each match. A digit run not followed by "/10" is no match from any
      of its positions, so the scan moves on one character at a time. */
  function Scores(s: string): seq<nat>
    decreases |s|
  {
    if s == [] then []
    else if IsDigit(s[0]) then
      var n := DigitRun(s);
      if ScoreSuffix <= s[n..] then [DigitsValue(s[..n])] + Scores(s[n + |ScoreSuffix|..])
      else Scores(s[1..])
    else Scores(s[1..])
  }

  lemma {:induction false} DigitRunOfDigitsThen(d: string, t: string)
    requires AllDigits(d)
    requires t == [] || !IsDigit(t[0])
    ensures DigitRun(d + t) == |d|
  {
    if d != [] {
      assert (d + t)[1..] == d[1..] + t;
      DigitRunOfDigitsThen(d[1..], t);
    } else {
      assert d + t == t;
    }
  }

  /** A score written as "N/10" at the front of the text is read back as N, and
      the scan carries on right after it. */
  lemma ScoresOfScore(n: nat, rest: string)
    ensures Scores(NatToString(n) + ScoreSuffix + rest) == [n] + Scores(rest)
  {
    var d := NatToString(n);
    var s := d + ScoreSuffix + rest;
    assert s == d + (ScoreSuffix + rest);
    DigitRunOfDigitsThen(d, ScoreSuffix + rest);
    assert s[..|d|] == d;
    assert s[|d|..] == ScoreSuffix + rest;
    assert s[|d| + |ScoreSuffix|..] == rest;
    DigitsValueOfNatToString(n);
  }

  predicate NoDigits(t: string) {
    forall i :: 0 <= i < |t| ==> !IsDigit(t[i])
  }

  /** Text without digits contributes no score. */
  lemma {:induction false} ScoresSkipText(t: string, rest: string)
    requires NoDigits(t)
    ensures Scores(t + rest) == Scores(rest)
  {
    if t != [] {
      assert (t + rest)[1..] == t[1..] + rest;
      ScoresSkipText(t[1..], rest);
    } else {
      assert t + rest == rest;
    }
  }

  /** A report listing each score as "label N/10" for digit-free labels. */
  function Report(labels: seq<string>, scores: seq<nat>): string
    requires |labels| == |scores|
  {
    if scores == [] then ""
    else labels[0] + NatToString(scores[0]) + ScoreSuffix + Report(labels[1..], scores[1..])
  }

  /** Reading the scores of such a report gives back exactly its scores, in order. */
  lemma {:induction false} ScoresOfReport(labels: seq<string>, scores: seq<nat>)
    requires |labels| == |scores|
    requires forall i :: 0 <= i < |labels| ==> NoDigits(labels[i])
    ensures Scores(Report(labels, scores)) == scores
  {
    if scores != [] {
      var rest := Report(labels[1..], scores[1..]);
      ScoresOfReport(labels[1..], scores[1..]);
      assert Report(labels, scores) == labels[0] + (NatToString(scores[0]) + ScoreSuffix + rest);
      ScoresSkipText(labels[0], NatToString(scores[0]) + ScoreSuffix + rest);
      ScoresOfScore(scores[0], rest);
      assert scores == [scores[0]] + scores[1..];
    }
  }

  // ----- The overall score -----

  datatype RiskLevel = Low | Medium | High

  /** The result dictionary: `average_score`, `risk_level`, `individual_scores`. */
  datatype VenueScore = VenueScore(average: real, level: RiskLevel, individual: seq<nat>)

  function Sum(ns: seq<nat>): nat {
    if ns == [] then 0 else Sum(ns[..|ns| - 1]) + ns[|ns| - 1]
  }

  /** The level of an average: Low up to 3, Medium up to 6, High above. */
  function LevelOf(average: real): RiskLevel {
    if average <= 3.0 then Low else if average <= 6.0 then Medium else High
  }

  const DefaultScores: seq<nat> := [5, 5, 5, 5, 5]

  lemma DefaultSum()
    ensures Sum(DefaultScores) == 25
  {
    var s0: seq<nat> := [];
    var s1 := s0 + [5];
    var s2 := s1 + [5];
    var s3 := s2 + [5];
    var s4 := s3 + [5];
    var s5 := s4 + [5];
    assert s1[..0] == s0 && s2[..1] == s1 && s3[..2] == s2 && s4[..3] == s3 && s5[..4] == s4;
    assert Sum(s1) == 5;
    assert Sum(s2) == 10;
    assert Sum(s3) == 15;
    assert Sum(s4) == 20;
    assert Sum(s5) == 25;
    assert s5 == DefaultScores;
  }

  /** The score of a report: the mean of its scores and the level of that mean,
      or average 5.0, Medium and five 5s when the report holds no score. */
  function CalculateVenueScore(report: string): (r: VenueScore)
    ensures r.individual == if Scores(report) == [] then DefaultScores else Scores(report)
    ensures r.individual != [] && r.average * |r.individual| as real == Sum(r.individual) as real
    ensures r.level == LevelOf(r.average)
  {
    var scores := Scores(report);
    if scores == [] then
      DefaultSum();
      VenueScore(5.0, Medium, DefaultScores)
    else
      var average := Sum(scores) as real / |scores| as real;
      VenueScore(average, LevelOf(average), scores)
  }

  /** The thresholds restated over the sum and the count, without division:
      Low when the sum is at most three times the count, Medium when it is at
      most six times, High otherwise. */
  lemma LevelBySum(report: string)
    ensures var r := CalculateVenueScore(report);
      var sum := Sum(r.individual);
      var count := |r.individual|;
      (r.level == Low <==> sum <= 3 * count) &&
      (r.level == Medium <==> 3 * count < sum <= 6 * count) &&
      (r.level == High <==> 6 * count < sum)
  {
    var r := CalculateVenueScore(report);
    LevelOfMean(r.average, Sum(r.individual), |r.individual|);
  }

  /** The level of the mean of `count` scores summing to `sum`, by sum and count. */
  lemma LevelOfMean(average: real, sum: nat, count: nat)
    requires count > 0 && average * count as real == sum as real
    ensures LevelOf(average) == Low <==> sum <= 3 * count
    ensures LevelOf(average) == Medium <==> 3 * count < sum <= 6 * count
    ensures LevelOf(average) == High <==> 6 * count < sum
  {
    MeanBound(average, count as real, sum as real, 3.0);
    MeanBound(average, count as real, sum as real, 6.0);
  }

  /** For a positive count, a mean is at most a bound exactly when the sum is at
      most the bound times the count. */
  lemma MeanBound(average: real, count: real, sum: real, bound: real)
    requires count > 0.0 && average * count == sum
    ensures average <= bound <==> sum <= bound * count
  {
    if average <= bound {
      assert average * count <= bound * count;
    } else {
      assert average * count > bound * count;
    }
  }
}
