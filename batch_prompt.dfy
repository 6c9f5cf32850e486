/** The batch risk assessment of several venues in one LLM call
    (`batch_assess_venue_risks` in agent/event_risk_agent.py): five web searches
    per venue, then one prompt that enumerates the venues. */
module BatchPrompt {
  import opened Types
  import opened Text

  /** What the searches gathered about one venue (`all_venue_data` entries). */
  datatype VenueData = VenueData(
    name: string, location: string,
    weather: string, security: string, health: string, logistics: string, events: string)

  const WeatherTopic: string := "current weather alerts warnings "
  const WeatherTerms: string := " monsoon rain flood heat wave"
  const SecurityTopic: string := "recent incidents protests security issues crime "
  const SecurityTerms: string := " last week month"
  const HealthTopic: string := "health alerts disease outbreak COVID dengue health issues "
  const LogisticsTopic: string := "traffic construction road closure infrastructure issues parking "
  const CurrentTerm: string := " current"
  const EventsTopic: string := "upcoming events VIP movement Prime Minister rally concert festival "

  function WeatherQuery(name: string, location: string, period: string): string {
    WeatherTopic + name + " " + location + " " + period + WeatherTerms
  }
  function SecurityQuery(name: string, location: string): string {
    SecurityTopic + name + " " + location + SecurityTerms
  }
  function HealthQuery(name: string, location: string): string {
    HealthTopic + name + " " + location + CurrentTerm
  }
  function LogisticsQuery(name: string, location: string): string {
    LogisticsTopic + name + " " + location + CurrentTerm
  }
  function EventsQuery(name: string, location: string, period: string): string {
    EventsTopic + name + " " + location + " " + period
  }

  /** The five searches for one venue, in order; the first that raises aborts. */
  function Gather(v: Venue, period: string, search: string -> Outcome<string>): (r: Outcome<VenueData>)
    ensures r.Returned? ==> r.value.name == v.name.GetOr("Unknown Venue") && r.value.location == v.location.GetOr("Unknown")
  {
    var name := v.name.GetOr("Unknown Venue");
    var location := v.location.GetOr("Unknown");
    match search(WeatherQuery(name, location, period))
    case Raised(e) => Raised(e)
    case Returned(weather) =>
      match search(SecurityQuery(name, location))
      case Raised(e) => Raised(e)
      case Returned(security) =>
        match search(HealthQuery(name, location))
        case Raised(e) => Raised(e)
        case Returned(health) =>
          match search(LogisticsQuery(name, location))
          case Raised(e) => Raised(e)
          case Returned(logistics) =>
            match search(EventsQuery(name, location, period))
            case Raised(e) => Raised(e)
            case Returned(events) => Returned(VenueData(name, location, weather, security, health, logistics, events))
  }

  /** The data for every venue, in input order; the first failing search aborts. */
  function GatherAll(venues: seq<Venue>, period: string, search: string -> Outcome<string>): Outcome<seq<VenueData>> {
    if venues == [] then Returned([])
    else
      match GatherAll(venues[..|venues| - 1], period, search)
      case Raised(e) => Raised(e)
      case Returned(data) =>
        match Gather(venues[|venues| - 1], period, search)
        case Raised(e) => Raised(e)
        case Returned(d) => Returned(data + [d])
  }

  /** Gathered data lines up with the venues, one entry each, in order, with the
      'Unknown Venue' / 'Unknown' defaults for missing keys. */
  lemma {:induction false} GatherAllAligned(venues: seq<Venue>, period: string, search: string -> Outcome<string>)
    requires GatherAll(venues, period, search).Returned?
    ensures var data := GatherAll(venues, period, search).value;
      |data| == |venues| &&
      forall i :: 0 <= i < |venues| ==>
        data[i].name == venues[i].name.GetOr("Unknown Venue") && data[i].location == venues[i].location.GetOr("Unknown")
  {
    if venues != [] {
      var n := |venues| - 1;
      GatherAllAligned(venues[..n], period, search);
      assert forall i :: 0 <= i < n ==> venues[..n][i] == venues[i];
    }
  }

  /** The search loop, appending to `all_venue_data`. */
  method CollectVenueData(venues: seq<Venue>, period: string, search: string -> Outcome<string>)
    returns (r: Outcome<seq<VenueData>>)
    ensures r == GatherAll(venues, period, search)
  {
    var data: seq<VenueData> := [];
    var i := 0;
    assert venues[..i] == [];
    while i < |venues|
      invariant 0 <= i <= |venues|
      invariant GatherAll(venues[..i], period, search) == Returned(data)
    {
      assert venues[..i + 1][..i] == venues[..i];
      var d := Gather(venues[i], period, search);
      if d.Raised? {
        r := Raised(d.message);
        GatherAllAborts(venues, period, search, i + 1);
        return;
      }
      data := data + [d.value];
      i := i + 1;
    }
    assert venues[..i] == venues;
    r := Returned(data);
  }

  /** Once the data for a prefix fails, the data for the whole list fails the same way. */
  lemma {:induction false} GatherAllAborts(venues: seq<Venue>, period: string, search: string -> Outcome<string>, k: nat)
    requires k <= |venues| && GatherAll(venues[..k], period, search).Raised?
    ensures GatherAll(venues, period, search) == GatherAll(venues[..k], period, search)
    decreases |venues| - k
  {
    if k < |venues| {
      assert venues[..k + 1][..k] == venues[..k];
      GatherAllAborts(venues, period, search, k + 1);
    } else {
      assert venues[..k] == venues;
    }
  }

  const PromptHead: string :=
    "You are an Event Risk Assessment AI. For each venue below, analyze the search results and provide a risk assessment and risk score (1-10):\n\n"
  const PromptTail: string :=
    "For each venue, provide:\n- A risk assessment by category\n- An overall risk score (1-10)\n- A summary and recommendations\n"

  /** The line that introduces venue number `i`. */
  function VenueHeading(i: nat, d: VenueData): string {
    "Venue " + NatToString(i) + ": " + d.name + " (" + d.location + ")\n"
  }

  /** The search results of one venue, one category per line. */
  function VenueBody(d: VenueData): string {
    "Weather: " + d.weather + "\n"
    + "Security: " + d.security + "\n"
    + "Health: " + d.health + "\n"
    + "Logistics: " + d.logistics + "\n"
    + "Events: " + d.events + "\n\n"
  }

  function VenueBlock(i: nat, d: VenueData): string {
    VenueHeading(i, d) + VenueBody(d)
  }

  /** The blocks of all venues, numbered from 1 in order. */
  function Blocks(data: seq<VenueData>): string {
    if data == [] then "" else Blocks(data[..|data| - 1]) + VenueBlock(|data|, data[|data| - 1])
  }

  /** The single prompt sent to the LLM. */
  function Prompt(data: seq<VenueData>): string {
    PromptHead + Blocks(data) + PromptTail
  }

  /** The prompt-building loop. */
  method BuildPrompt(data: seq<VenueData>) returns (prompt: string)
    ensures prompt == Prompt(data)
  {
    var blocks := "";
    var i := 0;
    while i < |data|
      invariant 0 <= i <= |data|
      invariant blocks == Blocks(data[..i])
    {
      assert data[..i + 1][..i] == data[..i];
      blocks := blocks + VenueBlock(i + 1, data[i]);
      i := i + 1;
    }
    assert data[..i] == data;
    prompt := PromptHead + blocks + PromptTail;
  }

  /** Every venue's heading occurs in the blocks. */
  lemma {:induction false} BlocksContainHeading(data: seq<VenueData>, i: nat)
    requires i < |data|
    ensures Contains(Blocks(data), VenueHeading(i + 1, data[i]))
  {
    var n := |data| - 1;
    var heading := VenueHeading(i + 1, data[i]);
    var block := VenueBlock(n + 1, data[n]);
    assert Blocks(data) == Blocks(data[..n]) + block;
    if i == n {
      assert block == heading + VenueBody(data[n]);
      assert Blocks(data) == Blocks(data[..n]) + heading + VenueBody(data[n]);
      ContainsWithin(Blocks(data[..n]), heading, VenueBody(data[n]));
    } else {
      assert data[..n][i] == data[i];
      BlocksContainHeading(data[..n], i);
      ContainsAppend(Blocks(data[..n]), block, heading);
    }
  }

  /** The whole batch assessment: the LLM's answer to the prompt, or the first exception. */
  function BatchAssess(env: Env, venues: seq<Venue>, period: string): Outcome<string> {
    match GatherAll(venues, period, env.search)
    case Raised(e) => Raised(e)
    case Returned(data) => env.complete(Prompt(data))
  }

  method BatchAssessVenueRisks(env: Env, venues: seq<Venue>, period: string) returns (r: Outcome<string>)
    ensures r == BatchAssess(env, venues, period)
  {
    var gathered := CollectVenueData(venues, period, env.search);
    if gathered.Raised? {
      return Raised(gathered.message);
    }
    var prompt := BuildPrompt(gathered.value);
    r := env.complete(prompt);
  }

  /** The prompt introduces every venue as "Venue i: name (location)", i counted
      from 1 in input order, with the defaults for missing keys. */
  lemma PromptNamesEveryVenue(venues: seq<Venue>, period: string, search: string -> Outcome<string>, i: nat)
    requires GatherAll(venues, period, search).Returned? && i < |venues|
    ensures Contains(Prompt(GatherAll(venues, period, search).value),
      "Venue " + NatToString(i + 1) + ": " + venues[i].name.GetOr("Unknown Venue") + " (" + venues[i].location.GetOr("Unknown") + ")\n")
  {
    var data := GatherAll(venues, period, search).value;
    GatherAllAligned(venues, period, search);
    BlocksContainHeading(data, i);
    ContainsExtend(PromptHead, Blocks(data), PromptTail, VenueHeading(i + 1, data[i]));
  }
}
