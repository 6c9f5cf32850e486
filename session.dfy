/** One turn of the venue assistant (`run_venue_finder_graph` and
    `interactive_collaborative_node` in agent/venue_graph.py): recover the venues
    stored in recent history, route the input, run the chosen branch, and
    persist the resulting venues as a `VENUES_STORED:` message for the next turn. */
module Session {
  import opened Types
  import opened Text
  import opened Routing
  import opened RiskRequestHandler
  import opened VenueFindingHandler

  const Sentinel: string := "VENUES_STORED:"

  const ProcessingErrorText: string := "I apologize, but I encountered an error processing your request."

  // ----- Recovering stored venues -----

  /** The venues a history message stores: the JSON after the first sentinel
      (up to the next one), stripped and decoded; None when the message has no
      sentinel or the text does not decode. */
  function StoredVenuesOf(m: Message, loads: string -> Option<seq<Venue>>): Option<seq<Venue>> {
    if Contains(m.content, Sentinel) then loads(Strip(SecondField(m.content, Sentinel))) else None
  }

  function Reader(loads: string -> Option<seq<Venue>>): Message -> Option<seq<Venue>> {
    m => StoredVenuesOf(m, loads)
  }

  /** The venues of the newest of the last three messages that stores any; [] when none does. */
  function Recover(history: seq<Message>, loads: string -> Option<seq<Venue>>): seq<Venue> {
    NewestSome(Recent(history, 3), Reader(loads)).GetOr([])
  }

  /** The newest-first scan with `break`, skipping messages that fail to decode. */
  method RecoverStoredVenues(history: seq<Message>, loads: string -> Option<seq<Venue>>) returns (venues: seq<Venue>)
    ensures venues == Recover(history, loads)
  {
    venues := [];
    if history == [] {
      return;
    }
    var recent := Recent(history, 3);
    var j := |recent|;
    assert recent[..j] == recent;
    while j > 0
      invariant 0 <= j <= |recent|
      invariant venues == []
      invariant NewestSome(recent, Reader(loads)) == NewestSome(recent[..j], Reader(loads))
    {
      var m := recent[j - 1];
      NewestSomeStep(recent, Reader(loads), j);
      if Contains(m.content, Sentinel) {
        var loaded := loads(Strip(SecondField(m.content, Sentinel)));
        if loaded.Some? {
          venues := loaded.value;
          assert Reader(loads)(m) == loaded;
          return;
        }
      }
      assert Reader(loads)(m).None?;
      j := j - 1;
    }
    assert recent[..j] == [];
  }

  /** Recovery gives [] exactly when none of the last three messages stores
      venues; otherwise it gives what one of them stores, and no newer one
      stores anything. */
  lemma RecoverSpec(history: seq<Message>, loads: string -> Option<seq<Venue>>)
    ensures var recent := Recent(history, 3);
      ((forall i :: 0 <= i < |recent| ==> StoredVenuesOf(recent[i], loads).None?) ==> Recover(history, loads) == []) &&
      ((exists i :: 0 <= i < |recent| && StoredVenuesOf(recent[i], loads).Some?) ==>
        exists i :: (0 <= i < |recent| && StoredVenuesOf(recent[i], loads) == Some(Recover(history, loads)) &&
          forall j :: i < j < |recent| ==> StoredVenuesOf(recent[j], loads).None?))
  {
    var recent := Recent(history, 3);
    var f := Reader(loads);
    NewestSomeSpec(recent, f);
    if exists i :: 0 <= i < |recent| && StoredVenuesOf(recent[i], loads).Some? {
      var k :| 0 <= k < |recent| && StoredVenuesOf(recent[k], loads).Some?;
      assert f(recent[k]).Some?;
      var i :| 0 <= i < |recent| && f(recent[i]) == NewestSome(recent, f) && forall j :: i < j < |recent| ==> f(recent[j]).None?;
      assert StoredVenuesOf(recent[i], loads) == Some(Recover(history, loads));
      assert forall j :: i < j < |recent| ==> StoredVenuesOf(recent[j], loads).None? by {
        forall j | i < j < |recent| ensures StoredVenuesOf(recent[j], loads).None? {
          assert f(recent[j]).None?;
        }
      }
    } else {
      forall i | 0 <= i < |recent| ensures f(recent[i]).None? {
        assert StoredVenuesOf(recent[i], loads).None?;
      }
    }
  }

  // ----- Persisting venues -----

  /** The history handed back to the caller: the node's history, plus one
      sentinel message holding the venues when there are any. */
  function Persist(history: seq<Message>, venues: seq<Venue>, dumps: seq<Venue> -> string): seq<Message> {
    if venues != [] then history + [Message(Sentinel + dumps(venues))] else history
  }

  /** How many messages of `history` hold the sentinel. */
  function SentinelCount(history: seq<Message>): nat {
    if history == [] then 0
    else SentinelCount(history[..|history| - 1]) + (if Contains(history[|history| - 1].content, Sentinel) then 1 else 0)
  }

  /** Persisting keeps the history as a prefix and adds exactly one sentinel
      message when there are venues to store, and none otherwise. */
  lemma PersistAddsOneSentinel(history: seq<Message>, venues: seq<Venue>, dumps: seq<Venue> -> string)
    ensures history <= Persist(history, venues, dumps)
    ensures SentinelCount(Persist(history, venues, dumps)) == SentinelCount(history) + (if venues != [] then 1 else 0)
  {
    if venues != [] {
      var p := Persist(history, venues, dumps);
      assert p[..|p| - 1] == history;
      ContainsWithin("", Sentinel, dumps(venues));
      assert "" + Sentinel + dumps(venues) == p[|p| - 1].content;
    }
  }

  /** What json.dumps / json.loads must do for a venue list to survive the trip
      through history: decoding the encoding gives the list back, and the
      encoding neither holds the sentinel nor starts or ends with whitespace. */
  predicate Faithful(venues: seq<Venue>, dumps: seq<Venue> -> string, loads: string -> Option<seq<Venue>>) {
    var text := dumps(venues);
    loads(text) == Some(venues) && !Contains(text, Sentinel) &&
    text != [] && !IsSpace(text[0]) && !IsSpace(text[|text| - 1])
  }

  /** Whatever the history, persisting venues and recovering them gives them back. */
  lemma StoreThenRecover(history: seq<Message>, venues: seq<Venue>, dumps: seq<Venue> -> string, loads: string -> Option<seq<Venue>>)
    requires venues != [] && Faithful(venues, dumps, loads)
    ensures Recover(Persist(history, venues, dumps), loads) == venues
  {
    var text := dumps(venues);
    var p := Persist(history, venues, dumps);
    SecondFieldOfPrefixed(Sentinel, text);
    StripUnpadded(text);
    assert p == history + [Message(Sentinel + text)];
    var recent := Recent(p, 3);
    RecentKeepsLast(p, 3);
    var last := recent[|recent| - 1];
    assert last == Message(Sentinel + text);
    assert Contains(last.content, Sentinel);
    assert Strip(SecondField(last.content, Sentinel)) == text;
    assert StoredVenuesOf(last, loads) == Some(venues);
    assert Reader(loads)(last) == Some(venues);
  }

  // ----- The collaborative node -----

  /** `interactive_collaborative_node`: the branch the route picks. */
  function Collaborative(env: Env, input: string, history: seq<Message>, stored: seq<Venue>): NodeResult {
    match RouteOf(input, stored)
    case AssessRisks => RiskRequest(env, input, history, stored)
    case NoVenuesStored => NodeResult(NoVenuesStoredText, history, stored)
    case FindVenues => VenueFinding(env, input, history, stored)
  }

  method InteractiveCollaborativeNode(env: Env, input: string, history: seq<Message>, stored: seq<Venue>)
    returns (r: NodeResult)
    ensures r == Collaborative(env, input, history, stored)
  {
    var followUp := IsFollowUp(input);
    if followUp && stored != [] {
      r := HandleRiskAssessmentRequest(env, input, history, stored);
    } else if followUp {
      r := NodeResult(NoVenuesStoredText, history, stored);
    } else {
      r := HandleVenueFinding(env, input, history, stored);
    }
  }

  // ----- The whole turn -----

  /** The reply and the history handed back to the caller. */
  datatype TurnResult = TurnResult(reply: string, history: seq<Message>)

  /** The reply: the risk report when the result has one, else its output,
      else a fixed apology. */
  function ChooseReply(riskReport: Option<string>, output: Option<string>): string {
    match riskReport
    case Some(report) => report
    case None => output.GetOr(ProcessingErrorText)
  }

  /** `run_venue_finder_graph`. The collaborative node never sets a risk
      report and always sets an output. */
  function Turn(env: Env, input: string, history: seq<Message>): TurnResult {
    var stored := Recover(history, env.loadVenues);
    var r := Collaborative(env, input, history, stored);
    TurnResult(ChooseReply(None, Some(r.output)), Persist(r.history, r.venues, env.dumpVenues))
  }

  method RunVenueFinderGraph(env: Env, input: string, history: seq<Message>) returns (reply: string, updated: seq<Message>)
    ensures TurnResult(reply, updated) == Turn(env, input, history)
  {
    var stored := RecoverStoredVenues(history, env.loadVenues);
    var r := InteractiveCollaborativeNode(env, input, history, stored);
    updated := r.history;
    if r.venues != [] {
      updated := updated + [Message(Sentinel + env.dumpVenues(r.venues))];
    }
    reply := ChooseReply(None, Some(r.output));
  }

  /** The reply of a turn is the output of the branch that ran; the fixed
      apology is never returned. */
  lemma TurnReplyIsOutput(env: Env, input: string, history: seq<Message>)
    ensures Turn(env, input, history).reply ==
      Collaborative(env, input, history, Recover(history, env.loadVenues)).output
  {
  }

  /** The venues a turn ends with are the ones the next turn starts with, when
      the codec is faithful for them. */
  lemma TurnCarriesVenuesForward(env: Env, input: string, history: seq<Message>)
    requires var r := Collaborative(env, input, history, Recover(history, env.loadVenues));
      r.venues != [] && Faithful(r.venues, env.dumpVenues, env.loadVenues)
    ensures Recover(Turn(env, input, history).history, env.loadVenues) ==
      Collaborative(env, input, history, Recover(history, env.loadVenues)).venues
  {
    var r := Collaborative(env, input, history, Recover(history, env.loadVenues));
    StoreThenRecover(r.history, r.venues, env.dumpVenues, env.loadVenues);
  }

  /** A follow-up with nothing stored is answered with the fixed text, the
      history comes back unchanged, and no finder, classifier, search or LLM
      is consulted: any collaborators with the same decoder give the same turn. */
  lemma FollowUpWithEmptyStore(env: Env, env2: Env, input: string, history: seq<Message>)
    requires IsFollowUp(input) && Recover(history, env.loadVenues) == []
    requires env2.loadVenues == env.loadVenues
    ensures Turn(env, input, history) == TurnResult(NoVenuesStoredText, history)
    ensures Turn(env2, input, history) == Turn(env, input, history)
  {
  }

  /** A follow-up with stored venues keeps the history it was given and stores
      the same venues again, in a fresh sentinel message. */
  lemma FollowUpRestoresVenues(env: Env, input: string, history: seq<Message>)
    requires IsFollowUp(input) && Recover(history, env.loadVenues) != []
    ensures var stored := Recover(history, env.loadVenues);
      Turn(env, input, history).history == history + [Message(Sentinel + env.dumpVenues(stored))]
  {
  }

  /** A new query (not a follow-up) runs the venue finder, whatever is stored. */
  lemma NewQueryFindsVenues(env: Env, input: string, history: seq<Message>, stored: seq<Venue>)
    requires !IsFollowUp(input)
    ensures Collaborative(env, input, history, stored) == VenueFinding(env, input, history, stored)
  {
  }
}
