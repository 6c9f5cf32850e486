/** The LLM venue-analysis step (`intelligent_venue_processor_node` in
    agent/venue_graph.py): grab the `{...}` text from the reply, parse it, and
    fall back to asking for information whenever anything goes wrong. */
module Classifier {
  import opened Types
  import opened Text

  const AskForInfo: string := "ask_for_info"
  const ExtractVenues: string := "extract_venues"
  const NoVenuesFound: string := "no_venues_found"

  /** The classifier's outcome: `next_action` and `extracted_venues`. */
  datatype Decision = Decision(action: string, venues: seq<Venue>)

  /** The index of the first `c` in `s`, if any. */
  function FirstIndexOfChar(s: string, c: char): (r: Option<nat>)
    ensures r.Some? ==> r.value < |s| && s[r.value] == c && forall k :: 0 <= k < r.value ==> s[k] != c
    ensures r.None? ==> forall k :: 0 <= k < |s| ==> s[k] != c
  {
    if s == [] then None
    else if s[0] == c then Some(0)
    else match FirstIndexOfChar(s[1..], c)
      case None => None
      case Some(i) => Some(i + 1)
  }

  /** The index of the last `c` in `s`, if any. */
  function LastIndexOfChar(s: string, c: char): (r: Option<nat>)
    ensures r.Some? ==> r.value < |s| && s[r.value] == c && forall k :: r.value < k < |s| ==> s[k] != c
    ensures r.None? ==> forall k :: 0 <= k < |s| ==> s[k] != c
  {
    if s == [] then None
    else if s[|s| - 1] == c then Some(|s| - 1)
    else LastIndexOfChar(s[..|s| - 1], c)
  }

  /** `re.search(r'\{.*\}', text, re.DOTALL)`: the leftmost match runs from the
      first '{' to the last '}' after it, the `.*` being greedy. So there is a
      match exactly when some '{' precedes some '}'. */
  function JsonSpan(text: string): (r: Option<string>)
    ensures r.None? <==> !exists i, j :: 0 <= i < j < |text| && text[i] == '{' && text[j] == '}'
    ensures r.Some? ==> exists i, j :: (0 <= i < j < |text| &&
      text[i] == '{' && text[j] == '}' &&
      (forall k :: 0 <= k < i ==> text[k] != '{') &&
      (forall k :: j < k < |text| ==> text[k] != '}') &&
      r.value == text[i..j + 1])
  {
    match FirstIndexOfChar(text, '{')
    case None => None
    case Some(open) =>
      match LastIndexOfChar(text, '}')
      case None => None
      case Some(close) => if open < close then Some(text[open..close + 1]) else None
  }

  /** The analysis outcome for the LLM's reply (`Raised` when `llm.invoke`
      raised) and the JSON parser (`None` when `json.loads` raised). Without a
      reply, without a '{' before a '}' in it, or when parsing fails, it is to
      ask for information with no venues; an action other than that default, and
      any non-empty venue list, is exactly what the parsed reply states; a
      parsed reply gives its action and venues, defaulting to asking for
      information and no venues. */
  function Decide(reply: Outcome<string>, parse: string -> Option<ParsedDecision>): (d: Decision)
    ensures reply.Raised? ==> d == Decision(AskForInfo, [])
    ensures reply.Returned? && !(exists i, j :: 0 <= i < j < |reply.value| && reply.value[i] == '{' && reply.value[j] == '}')
      ==> d == Decision(AskForInfo, [])
    ensures d.action != AskForInfo ==>
      reply.Returned? && JsonSpan(reply.value).Some? &&
      parse(JsonSpan(reply.value).value).Some? &&
      parse(JsonSpan(reply.value).value).value.action == Some(d.action)
    ensures d.venues != [] ==>
      reply.Returned? && JsonSpan(reply.value).Some? &&
      parse(JsonSpan(reply.value).value).Some? &&
      parse(JsonSpan(reply.value).value).value.venues == Some(d.venues)
    ensures reply.Returned? && JsonSpan(reply.value).Some? && parse(JsonSpan(reply.value).value).Some? ==>
      var p := parse(JsonSpan(reply.value).value).value;
      d == Decision(p.action.GetOr(AskForInfo), p.venues.GetOr([]))
  {
    match reply
    case Raised(_) => Decision(AskForInfo, [])
    case Returned(text) =>
      match JsonSpan(text)
      case None => Decision(AskForInfo, [])
      case Some(json) =>
        match parse(json)
        case None => Decision(AskForInfo, [])
        case Some(parsed) => Decision(parsed.action.GetOr(AskForInfo), parsed.venues.GetOr([]))
  }
}
