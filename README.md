# Venue assistant turn logic in Dafny

This project models the deterministic core of the venue and event-risk
assistant. That core is the turn logic in `agent/venue_graph.py` and the
risk-report helpers in `agent/event_risk_agent.py`. The venue finder agent,
every LLM call, every web search and the JSON codec are opaque parameters
(`Types.Env`). A call that may raise returns an `Outcome`, either
`Raised(str(e))` or `Returned(value)`, so each `except Exception as e`
branch of the source is modelled with the text it produces.

One turn (`Session.Turn`, `Session.RunVenueFinderGraph`) works like this:

- It recovers the venues stored in the newest `VENUES_STORED:` message among
  the last three history messages.
- A case-insensitive phrase gate (`Routing.RouteOf`) sends the input to one of
  three branches:
  - the risk-request branch: venue selection, clarification, time window from
    the last five messages, and the batch assessment with its prompt;
  - a fixed "no venues stored" reply;
  - the venue-finding branch: finder, classifier JSON fallback, and a dispatch
    on `ask_for_info`, `no_venues_found`, `extract_venues` or the fallback.
- It appends one sentinel message when the resulting state holds venues.

Every handler returns `{**state, ...}`. The incoming venues therefore stay in
the result unless a new extraction replaces them. `Types.NodeResult` carries
them, and the sentinel message is written again on every turn that has
stored venues.

The risk helpers are:

- the `N/10` score scan and its Low/Medium/High classification, stated over
  sum and count;
- the city and time-period keyword extraction of the single-location risk
  node, with its history update;
- the search-and-prompt enumeration of the batch assessment.

Each loop of the source, whether a scan with `break` or an appending or
accumulating loop, is a method. Its `ensures` ties the result to a function,
and lemmas state the properties of that function. Pure expressions
(`any(...)`, the dispatch returning new dictionaries, the score
computation) are functions.

Module layout:

- `types.dfy`: venues, messages, the collaborators, and the newest-first scan.
- `text.dfy`: Python string operations.
- `routing.dfy`: the follow-up gate and the three-way branch.
- `selection.dfy`: venue selection and the clarification.
- `time_window.dfy`: the time patterns and the history scan.
- `classifier.dfy`: the `{...}` grab and its fallbacks.
- `batch_prompt.dfy`: `batch_assess_venue_risks`.
- `venue_finding.dfy`: `handle_venue_finding`.
- `risk_request.dfy`: `handle_risk_assessment_request`.
- `session.dfy`: recovery, persistence, `interactive_collaborative_node` and `run_venue_finder_graph`.
- `risk_score.dfy`: `calculate_venue_score`.
- `risk_node.dfy`: `event_risk_assessment_node`.

## Model

| member | source | states |
|---|---|---|
| Types.RecentKeepsLast | agent/venue_graph.py:378 | The newest history message is always among the last three (or five) that are scanned. |
| Types.NewestSomeSpec | agent/venue_graph.py:378-387 | The newest-first scan with `break` finds nothing iff no element yields a value. Otherwise it returns the value of an element after which no element yields one. |
| Routing.RouteOf | agent/venue_graph.py:113-132 | Risk request iff the input is a follow-up and venues are stored. "No venues stored" iff it is a follow-up and the store is empty. Venue finding iff it is not a follow-up. |
| Routing.FollowUpCaseInsensitive | agent/venue_graph.py:113-116 | The follow-up gate ignores letter case. |
| Routing.FollowUpSurvivesContext | agent/venue_graph.py:113-116 | The gate is a plain substring test: text around a follow-up never turns it into a new query. |
| VenueSelection.SelectVenues | agent/venue_graph.py:268-293 | The appending code (select-all, then ordinals 1, 2, 3, then name matches) builds exactly `Selection`. |
| VenueSelection.AppendNameMatches | agent/venue_graph.py:289-293 | The name loop appends, in stored order, each venue whose lower-cased name occurs in the lower-cased input. |
| VenueSelection.NameMatchesMembers | agent/venue_graph.py:289-293 | Name matches are at most as many as the stored venues. A venue is matched iff it is stored and its lower-cased name occurs in the input. |
| VenueSelection.SelectionMembers | agent/venue_graph.py:268-293 | A venue is selected iff it is stored and one of these holds: the input selects all; it is at a mentioned ordinal position 1 to 3; or its name occurs in the input. The selection holds at most n + 3 entries. |
| VenueSelection.NamelessVenueAlwaysSelected | agent/venue_graph.py:276-293 | A stored venue with no name or an empty name is selected by every reply, because the empty key occurs in every input. |
| VenueSelection.SecondVenueOnly | agent/venue_graph.py:279-293 | A "venue 2" reply that mentions no other ordinal and no name selects exactly the second venue, or nothing when fewer than two are stored. |
| VenueSelection.NameMatchesNone | agent/venue_graph.py:289-293 | When no stored name occurs in the input, the name loop appends nothing. |
| VenueSelection.ClarificationListsEveryVenue | agent/venue_graph.py:295-302 | The clarification contains "i. name" for every stored venue, i counted from 1, with 'Unknown' for a missing name. |
| TimePeriod.TimePatternIn | agent/event_risk_agent.py:253-259 | The period is "" iff the text holds none of the five patterns. Otherwise it is the first pattern in list order that the text holds. |
| TimePeriod.ScanTimePatterns | agent/venue_graph.py:316-321 | The pattern loop with `break` yields the first contained pattern, else "". |
| TimePeriod.FindTimeWindow | agent/venue_graph.py:309-323 | The nested newest-first scan with early exits yields `TimeWindow` of the history. |
| TimePeriod.TimeWindowSpec | agent/venue_graph.py:309-323 | The window is "" iff none of the last five messages mentions a pattern. Otherwise it is the pattern of one of them, and no newer one mentions any. |
| TimePeriod.TimeWindowIgnoresOlder | agent/venue_graph.py:313 | Messages older than the last five never change the window. |
| Classifier.JsonSpan | agent/venue_graph.py:68-71 | `\{.*\}` with DOTALL matches iff some '{' precedes some '}'. The match runs from the first '{' to the last '}'. |
| Classifier.Decide | agent/venue_graph.py:60-99 | An LLM exception, a reply without a '{' before a '}', or a parse failure gives `ask_for_info` with no venues. A parsed reply gives its `action` and `venues`, defaulting to `ask_for_info` and []. |
| BatchPrompt.Gather | agent/event_risk_agent.py:295-312 | Gathered data carries the venue's name and location, defaulting to 'Unknown Venue' and 'Unknown'. |
| BatchPrompt.GatherAllAligned | agent/event_risk_agent.py:295-312 | There is one data entry per venue, in input order, each with that venue's defaulted name and location. |
| BatchPrompt.CollectVenueData | agent/event_risk_agent.py:294-312 | The appending search loop yields `GatherAll`, and aborts on the first search that raises. |
| BatchPrompt.GatherAllAborts | agent/event_risk_agent.py:295-303 | Once the searches for a prefix raise, the whole batch raises with the same error. |
| BatchPrompt.BuildPrompt | agent/event_risk_agent.py:314-322 | The accumulating loop yields the head, the numbered venue blocks in order, and the tail. |
| BatchPrompt.BlocksContainHeading | agent/event_risk_agent.py:315-316 | Every venue's heading "Venue i: name (location)" occurs in the blocks. |
| BatchPrompt.BatchAssessVenueRisks | agent/event_risk_agent.py:291-325 | The batch is the LLM's answer to the prompt for all gathered data, or the first search exception. |
| BatchPrompt.PromptNamesEveryVenue | agent/event_risk_agent.py:295-316 | The prompt contains "Venue i: name (location)" for each venue, i from 1 in input order, with the 'Unknown Venue' and 'Unknown' defaults. |
| VenueFindingHandler.ComposeOffer | agent/venue_graph.py:197-221 | The `venue_section` loop yields the offer text: heading, finder output, count, numbered lines and instructions. |
| VenueFindingHandler.OfferLinesContainLine | agent/venue_graph.py:207-208 | Every venue's line occurs in the numbered list. |
| VenueFindingHandler.OfferListsEveryVenue | agent/venue_graph.py:197-221 | The offer contains "i. **name** - location" for every extracted venue, from 1, with 'Unknown' defaults. |
| VenueFindingHandler.HandleVenueFinding | agent/venue_graph.py:134-249 | The branch yields `VenueFinding`: the finder exception gives an apology, otherwise the result is the dispatch on the classifier's decision. |
| VenueFindingHandler.DispatchDecision | agent/venue_graph.py:169-240 | The `next_action` chain yields `Dispatch`. `ParsedReplyOutcomes` states what each action produces. |
| VenueFindingHandler.ParsedReplyOutcomes | agent/venue_graph.py:169-240 | For a parsed classifier reply: a missing action or `ask_for_info` echoes the finder's output and history. `no_venues_found` gives the no-venues text and keeps the store. `extract_venues` with a non-empty list offers it and stores it. `extract_venues` without venues, or any other action, gives the fallback text and keeps the store. |
| VenueFindingHandler.ExtractionStoresAndOffers | agent/venue_graph.py:189-228 | An `extract_venues` reply with a non-empty list stores exactly that list, replacing the old store, and answers with the offer listing it. |
| VenueFindingHandler.StoreChangesOnlyOnExtraction | agent/venue_graph.py:189-228 | The store changes only when the finder answered and the parsed reply says `extract_venues` with a non-empty list. That list becomes the store and the offer lists it. |
| VenueFindingHandler.ClassifierFailureEchoesFinder | agent/venue_graph.py:169-176 | A classifier that raises, or a reply without a JSON object, returns the finder's output and history verbatim and keeps the store. |
| VenueFindingHandler.FinderFailureKeepsHistory | agent/venue_graph.py:242-249 | A finder exception gives the apology with the original history, whatever the classifier would do. |
| RiskRequestHandler.RiskRequest | agent/venue_graph.py:251-341 | The risk branch never changes the history or the stored venues. |
| RiskRequestHandler.HandleRiskAssessmentRequest | agent/venue_graph.py:251-341 | The imperative branch (selection, clarification, time window, batch call, error apology) yields `RiskRequest`. |
| RiskRequestHandler.ClarificationCallsNothing | agent/venue_graph.py:295-302 | An empty selection gives the clarification with the history unchanged, and no search or LLM is called. |
| RiskRequestHandler.SelectAllAssessesStore | agent/venue_graph.py:270-273 | A select-all reply assesses exactly the stored venues, in stored order. |
| RiskRequestHandler.AssessesOnlyStoredVenues | agent/venue_graph.py:304-333 | A non-empty selection is assessed in one batch with the history's time window, and every venue sent is a stored one. |
| Session.RecoverStoredVenues | agent/venue_graph.py:374-387 | The newest-first scan with `break` and `except: pass` yields `Recover`. |
| Session.RecoverSpec | agent/venue_graph.py:374-387 | Recovery gives [] when none of the last three messages holds a sentinel whose text decodes. Otherwise it gives what the newest decoding one stores, which may itself be []. |
| Session.PersistAddsOneSentinel | agent/venue_graph.py:399-407 | The history is kept as a prefix. Exactly one sentinel message is added iff the result holds venues. |
| Session.StoreThenRecover | agent/venue_graph.py:374-407 | With a faithful codec, persisting venues and recovering them gives them back, whatever the history. |
| Session.InteractiveCollaborativeNode | agent/venue_graph.py:102-132 | The node yields `Collaborative`, the branch `RouteOf` picks. |
| Session.RunVenueFinderGraph | agent/venue_graph.py:366-418 | The turn method yields `Turn`: recover, run the node, persist, then choose the reply. |
| Session.TurnReplyIsOutput | agent/venue_graph.py:409-418 | The reply is the branch's output, never the fixed apology, because no branch sets `risk_report`. |
| Session.TurnCarriesVenuesForward | agent/venue_graph.py:374-407 | With a faithful codec, the venues a turn ends with are the ones the next turn recovers. |
| Session.FollowUpWithEmptyStore | agent/venue_graph.py:122-128 | A follow-up with an empty store gives the fixed text with the history unchanged. No finder, classifier, search or LLM matters. |
| Session.FollowUpRestoresVenues | agent/venue_graph.py:399-407 | A follow-up with stored venues returns its history plus a fresh sentinel for the same venues. |
| Session.NewQueryFindsVenues | agent/venue_graph.py:129-132 | Input that is not a follow-up always runs venue finding, whatever is stored. |
| RiskScore.ScoresOfScore | agent/event_risk_agent.py:144-149 | "N/10" at the front is read back as N, and the scan resumes right after it. |
| RiskScore.ScoresSkipText | agent/event_risk_agent.py:144-145 | Digit-free text contributes no score. |
| RiskScore.ScoresOfReport | agent/event_risk_agent.py:144-149 | Scanning a report of "label N/10" entries gives back exactly its scores, in order. |
| RiskScore.CalculateVenueScore | agent/event_risk_agent.py:140-170 | The individual scores are the found scores, or five 5s when none are found. The average times the count is their sum. The level is the level of the average. |
| RiskScore.LevelOfMean | agent/event_risk_agent.py:150-158 | For a mean of count scores: Low iff sum ≤ 3·count, Medium iff 3·count < sum ≤ 6·count, High iff sum > 6·count. |
| RiskScore.LevelBySum | agent/event_risk_agent.py:150-158 | The computed level, restated by sum and count, without division. |
| RiskScore.DefaultSum | agent/event_risk_agent.py:165-170 | The default scores sum to 25, which fits the default average 5.0. |
| RiskNode.LocationOf | agent/event_risk_agent.py:245-251 | 'Unknown' when no city occurs in the lower-cased input. Otherwise the first city in list order that occurs, in its own spelling. |
| RiskNode.FindCity | agent/event_risk_agent.py:245-251 | The city loop with `break` yields the first mentioned city, else 'Unknown'. |
| RiskNode.ExtractLocationAndTime | agent/event_risk_agent.py:244-259 | The extracted location is `LocationOf` and the period is `TimePatternIn` of the lower-cased input. |
| RiskNode.CitiesAreKnown | agent/event_risk_agent.py:245-246 | No recognised city is spelled 'Unknown'. |
| RiskNode.EventRiskAssessmentNode | agent/event_risk_agent.py:228-289 | The node yields `AssessEventRisk`. |
| RiskNode.NodeHistoryUpdate | agent/event_risk_agent.py:230-289 | The node raises iff the state has no LLM. Otherwise the history grows by exactly [input, report], unless the assessment raised. Then it is unchanged and the report is the error text. |
| RiskNode.UnknownLocationCallsNothing | agent/event_risk_agent.py:263-267 | With no recognised city, the report is the fixed request for a location, and the assessor is never called. |
| RiskNode.KnownCityIsAssessed | agent/event_risk_agent.py:265-279 | With a recognised city, the assessor gets that city and the input's period, and its report is returned and recorded. |

## Left out

- Text is compared with ASCII-only lower-casing and whitespace, and `\d` covers ASCII digits only. Python's Unicode `lower()`, `strip()` and `\d` are not modelled.
- Message content is always a string, and message roles are not modelled. Non-string content, and the `AttributeError` it would raise in the time-window scan, are out of the model.
- The prompt wording of the classifier call (agent/venue_graph.py:28-58) is not modelled. The classifier is an opaque function of the query and the finder output.
- `assess_risks_directly` is an opaque assessor of a location and a period. Its search query and prompt are not modelled, nor is the venue finder agent in agent/venue_agent.py.
- `json.loads` and `json.dumps` are opaque functions. Decoded values of the wrong shape are not modelled: a non-list venue list, `null` entries, or a non-dictionary venue.
- The `reasoning` and `llm_analysis` keys are not modelled, because nothing reads them.
- RiskScore.CalculateVenueScore: the average is the exact rational mean. `round(average, 1)` is not applied, because floating point is out of scope. The thresholds apply to the unrounded mean, as in the source.
- RiskScore.CalculateVenueScore: the `except` branch (agent/event_risk_agent.py:171-177) is not modelled. Python's limits are out of scope: `sum / len` raises `OverflowError` once the mean exceeds the float range, e.g. for a report holding one 400-digit "N/10". `int()` of a digit run over 4300 digits raises `ValueError` on Python 3.11 and later. The source then returns 5.0, Medium and five 5s; the model returns the exact mean and High.
- RiskNode.AssessEventRisk: the `ValueError` text lists the state's keys. The model keeps only the fixed message prefix.
- Session.RunVenueFinderGraph: `append` mutates the list that may be the caller's own history, and that aliasing is not modelled. A `None` history and an empty one are the same empty sequence.
- Nothing in the graph sets `risk_report`, so the `risk_report` branch of the reply choice is modelled (`Session.ChooseReply`) but never taken.
- `router_node` only records the route and `build_venue_finder_graph` only wires the two nodes, so both are the identity before `interactive_collaborative_node`. `print` logging is left out.
