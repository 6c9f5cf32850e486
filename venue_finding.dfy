/** The venue-finding branch of a turn (`handle_venue_finding` in
    agent/venue_graph.py): run the venue finder, let the classifier decide what
    its reply is, and answer accordingly. */
module VenueFindingHandler {
  import opened Types
  import opened Text
  import opened Classifier

  const FinderErrorPrefix: string := "I apologize, but I encountered an error during venue finding: "

  function FinderErrorText(e: string): string {
    FinderErrorPrefix + e
  }

  const InformationHeading: string := "## Venue Information\n"
  const RiskHeading: string := "\n\n## Risk Assessment\n"
  const NoVenuesFoundNote: string :=
    "Unable to identify specific venues for risk assessment. Please provide more specific details about your event requirements."
  const FallbackNote: string :=
    "Unable to process venue information for risk assessment. Please try rephrasing your query."

  function NoVenuesFoundText(output: string): string {
    InformationHeading + output + RiskHeading + NoVenuesFoundNote
  }

  function FallbackText(output: string): string {
    InformationHeading + output + RiskHeading + FallbackNote
  }

  // ----- The offer of a risk assessment -----

  const RecommendationsHeading: string := "## Venue Recommendations\n"
  const OptionHeading: string := "\n\n## Risk Assessment Option\n\nI found "
  const OfferQuestion: string :=
    " venues that match your requirements. Would you like me to perform a detailed risk assessment for these venues?\n\n**Available venues:**\n"

  function OfferHead(output: string, count: nat): string {
    RecommendationsHeading + output + OptionHeading + NatToString(count) + OfferQuestion
  }

  const OfferTail: string :=
    "\n**To get risk assessment, please respond with:**\n"
    + "- \"Yes\" or \"Risk assessment\" - to assess risks for all venues\n"
    + "- \"Venue 1\" or \"The Leela\" - to assess risks for specific venue(s)\n"
    + "- \"No\" - if you don't need risk assessment\n\n"
    + "The risk assessment will include venue-specific information about:\n"
    + "\U{2022} Current weather alerts and warnings\n"
    + "\U{2022} Recent security incidents in the area\n"
    + "\U{2022} Health alerts and disease outbreaks\n"
    + "\U{2022} Traffic and infrastructure issues\n"
    + "\U{2022} Conflicting events or VIP movements"

  /** The line offering venue number `i`, with 'Unknown' for a missing name or location. */
  function OfferLine(i: nat, v: Venue): string {
    NatToString(i) + ". **" + v.name.GetOr("Unknown") + "** - " + v.location.GetOr("Unknown") + "\n"
  }

  /** The offer lines of all venues, numbered from 1 in order. */
  function OfferLines(venues: seq<Venue>): string {
    if venues == [] then "" else OfferLines(venues[..|venues| - 1]) + OfferLine(|venues|, venues[|venues| - 1])
  }

  function OfferText(output: string, venues: seq<Venue>): string {
    OfferHead(output, |venues|) + OfferLines(venues) + OfferTail
  }

  /** The `venue_section` accumulation loop. */
  method ComposeOffer(output: string, venues: seq<Venue>) returns (text: string)
    ensures text == OfferText(output, venues)
  {
    var lines := "";
    var i := 0;
    while i < |venues|
      invariant 0 <= i <= |venues|
      invariant lines == OfferLines(venues[..i])
    {
      assert venues[..i + 1][..i] == venues[..i];
      lines := lines + OfferLine(i + 1, venues[i]);
      i := i + 1;
    }
    assert venues[..i] == venues;
    text := OfferHead(output, |venues|) + lines + OfferTail;
  }

  lemma {:induction false} OfferLinesContainLine(venues: seq<Venue>, i: nat)
    requires i < |venues|
    ensures Contains(OfferLines(venues), OfferLine(i + 1, venues[i]))
  {
    var n := |venues| - 1;
    var line := OfferLine(n + 1, venues[n]);
    assert OfferLines(venues) == OfferLines(venues[..n]) + line;
    if i == n {
      assert OfferLines(venues) == OfferLines(venues[..n]) + line + "";
      ContainsWithin(OfferLines(venues[..n]), line, "");
    } else {
      assert venues[..n][i] == venues[i];
      OfferLinesContainLine(venues[..n], i);
      ContainsAppend(OfferLines(venues[..n]), line, OfferLine(i + 1, venues[i]));
    }
  }

  /** The offer numbers every extracted venue from 1 as "i. **name** - location". */
  lemma OfferListsEveryVenue(output: string, venues: seq<Venue>, i: nat)
    requires i < |venues|
    ensures Contains(OfferText(output, venues),
      NatToString(i + 1) + ". **" + venues[i].name.GetOr("Unknown") + "** - " + venues[i].location.GetOr("Unknown") + "\n")
  {
    OfferLinesContainLine(venues, i);
    ContainsExtend(OfferHead(output, |venues|), OfferLines(venues), OfferTail, OfferLine(i + 1, venues[i]));
  }

  // ----- Dispatch -----

  /** The answer for the finder's reply once the classifier has decided. */
  function Dispatch(d: Decision, reply: FinderReply, stored: seq<Venue>): NodeResult {
    if d.action == AskForInfo then NodeResult(reply.output, reply.history, stored)
    else if d.action == NoVenuesFound then NodeResult(NoVenuesFoundText(reply.output), reply.history, stored)
    else if d.action == ExtractVenues && d.venues != [] then NodeResult(OfferText(reply.output, d.venues), reply.history, d.venues)
    else NodeResult(FallbackText(reply.output), reply.history, stored)
  }

  /** The venue-finding branch, given the user's input, the history and the
      venues the incoming state carries. */
  function VenueFinding(env: Env, input: string, history: seq<Message>, stored: seq<Venue>): NodeResult {
    match env.finder(input, history)
    case Raised(e) => NodeResult(FinderErrorText(e), history, stored)
    case Returned(reply) => Dispatch(Decide(env.classify(input, reply.output), env.parseDecision), reply, stored)
  }

  method HandleVenueFinding(env: Env, input: string, history: seq<Message>, stored: seq<Venue>) returns (r: NodeResult)
    ensures r == VenueFinding(env, input, history, stored)
  {
    var found := env.finder(input, history);
    if found.Raised? {
      return NodeResult(FinderErrorText(found.message), history, stored);
    }
    var reply := found.value;
    var d := Decide(env.classify(input, reply.output), env.parseDecision);
    r := DispatchDecision(d, reply, stored);
  }

  /** The `if next_action == ...` chain. */
  method DispatchDecision(d: Decision, reply: FinderReply, stored: seq<Venue>) returns (r: NodeResult)
    ensures r == Dispatch(d, reply, stored)
  {
    if d.action == AskForInfo {
      r := NodeResult(reply.output, reply.history, stored);
    } else if d.action == NoVenuesFound {
      r := NodeResult(NoVenuesFoundText(reply.output), reply.history, stored);
    } else if d.action == ExtractVenues && d.venues != [] {
      var offer := ComposeOffer(reply.output, d.venues);
      r := NodeResult(offer, reply.history, d.venues);
    } else {
      r := NodeResult(FallbackText(reply.output), reply.history, stored);
    }
  }

  /** The stored venues change only when the finder answered and the classifier's
      parsed reply says `extract_venues` with a non-empty venue list, which
      becomes the new store; the offer then lists them. */
  lemma StoreChangesOnlyOnExtraction(env: Env, input: string, history: seq<Message>, stored: seq<Venue>)
    ensures var r := VenueFinding(env, input, history, stored);
      r.venues != stored ==>
        env.finder(input, history).Returned? &&
        var reply := env.finder(input, history).value;
        var text := env.classify(input, reply.output);
        text.Returned? && JsonSpan(text.value).Some? &&
        env.parseDecision(JsonSpan(text.value).value) ==
          Some(ParsedDecision(Some(ExtractVenues), Some(r.venues))) &&
        r.venues != [] &&
        r.output == OfferText(reply.output, r.venues)
  {
    var r := VenueFinding(env, input, history, stored);
    if r.venues != stored {
      var reply := env.finder(input, history).value;
      var d := Decide(env.classify(input, reply.output), env.parseDecision);
      assert d.action == ExtractVenues && d.venues == r.venues;
    }
  }

  /** Once the classifier's reply has been parsed, its action decides the
      answer: a missing action or `ask_for_info` echoes the finder;
      `no_venues_found` reports that, keeping the store; `extract_venues` with a
      non-empty list offers that list and stores it; `extract_venues` without
      venues, or any other action, gives the fallback text, keeping the store. */
  lemma ParsedReplyOutcomes(env: Env, input: string, history: seq<Message>, stored: seq<Venue>)
    requires env.finder(input, history).Returned?
    requires var text := env.classify(input, env.finder(input, history).value.output);
      text.Returned? && JsonSpan(text.value).Some? && env.parseDecision(JsonSpan(text.value).value).Some?
    ensures var reply := env.finder(input, history).value;
      var p := env.parseDecision(JsonSpan(env.classify(input, reply.output).value).value).value;
      var r := VenueFinding(env, input, history, stored);
      var action := p.action.GetOr(AskForInfo);
      var venues := p.venues.GetOr([]);
      (action == AskForInfo ==> r == NodeResult(reply.output, reply.history, stored)) &&
      (action == NoVenuesFound ==> r == NodeResult(NoVenuesFoundText(reply.output), reply.history, stored)) &&
      (action == ExtractVenues && venues != [] ==> r == NodeResult(OfferText(reply.output, venues), reply.history, venues)) &&
      (action == ExtractVenues && venues == [] ==> r == NodeResult(FallbackText(reply.output), reply.history, stored)) &&
      (action !in {AskForInfo, NoVenuesFound, ExtractVenues} ==> r == NodeResult(FallbackText(reply.output), reply.history, stored))
  {
  }

  /** An `extract_venues` reply with a non-empty list stores exactly that list,
      replacing whatever was stored, and answers with the offer listing it. */
  lemma ExtractionStoresAndOffers(env: Env, input: string, history: seq<Message>, stored: seq<Venue>, venues: seq<Venue>)
    requires env.finder(input, history).Returned?
    requires var text := env.classify(input, env.finder(input, history).value.output);
      text.Returned? && JsonSpan(text.value).Some? &&
      env.parseDecision(JsonSpan(text.value).value) == Some(ParsedDecision(Some(ExtractVenues), Some(venues)))
    requires venues != []
    ensures var reply := env.finder(input, history).value;
      VenueFinding(env, input, history, stored) == NodeResult(OfferText(reply.output, venues), reply.history, venues)
  {
  }

  /** A classifier that raises, or answers without a `{...}` object, leaves the
      finder's reply and history as the answer, and the store as it was. */
  lemma ClassifierFailureEchoesFinder(env: Env, input: string, history: seq<Message>, stored: seq<Venue>)
    requires env.finder(input, history).Returned?
    requires var text := env.classify(input, env.finder(input, history).value.output);
      text.Raised? || !(exists i, j :: 0 <= i < j < |text.value| && text.value[i] == '{' && text.value[j] == '}')
    ensures VenueFinding(env, input, history, stored) ==
      NodeResult(env.finder(input, history).value.output, env.finder(input, history).value.history, stored)
  {
  }

  /** A finder that raises gives the apology with the original history, and
      the classifier is not consulted. */
  lemma FinderFailureKeepsHistory(env: Env, env2: Env, input: string, history: seq<Message>, stored: seq<Venue>)
    requires env.finder(input, history).Raised?
    requires env2.finder == env.finder
    ensures VenueFinding(env, input, history, stored) ==
      NodeResult(FinderErrorText(env.finder(input, history).message), history, stored)
    ensures VenueFinding(env2, input, history, stored) == VenueFinding(env, input, history, stored)
  {
  }
}
