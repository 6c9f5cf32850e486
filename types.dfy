/** The values that travel through one conversational turn: venues, chat
    messages, the classifier's parsed reply, and the external collaborators
    (LLM calls, web search, JSON codec) that the orchestration only calls. */
module Types {

  datatype Option<T> = None | Some(value: T) {
    /** Python's `d.get(key, default)`: the value when present, else the default. */
    function GetOr(default: T): T {
      match this
      case Some(v) => v
      case None => default
    }
  }

  /** The result of a call that may raise: the exception's `str(e)`, or the value. */
  datatype Outcome<T> = Raised(message: string) | Returned(value: T)

  /** A venue dictionary as the classifier extracts it; each key may be absent. */
  datatype Venue = Venue(name: Option<string>, location: Option<string>, kind: Option<string>)

  /** One chat-history message; only its text content matters to the turn logic. */
  datatype Message = Message(content: string)

  /** The dictionary `json.loads` produces from the classifier's reply: the
      `action` and `venues` keys, each possibly absent. */
  datatype ParsedDecision = ParsedDecision(action: Option<string>, venues: Option<seq<Venue>>)

  /** What `venue_finder_node` returns: its `output` text and its chat history. */
  datatype FinderReply = FinderReply(output: string, history: seq<Message>)

  /** What a collaborative-node handler returns in place of the state dictionary:
      its `output`, its `chat_history`, and the `extracted_venues` the returned
      state carries (the incoming ones, since handlers return `{**state, ...}`,
      unless the handler stored new ones). */
  datatype NodeResult = NodeResult(output: string, history: seq<Message>, venues: seq<Venue>)

  /** The external collaborators of one turn. Each is opaque here.
      - finder: the venue-finding agent, given the user's input and history;
      - classify: the LLM applied to the venue-analysis prompt built from the
        user's query and the finder's output (the prompt wording is not modelled);
      - parseDecision: `json.loads` on the extracted `{...}` text (None: it raised);
      - search: one web search (Serper);
      - complete: the LLM applied to a prompt (the batch risk prompt);
      - dumpVenues / loadVenues: `json.dumps` / `json.loads` of a venue list. */
  datatype Env = Env(
    finder: (string, seq<Message>) -> Outcome<FinderReply>,
    classify: (string, string) -> Outcome<string>,
    parseDecision: string -> Option<ParsedDecision>,
    search: string -> Outcome<string>,
    complete: string -> Outcome<string>,
    dumpVenues: seq<Venue> -> string,
    loadVenues: string -> Option<seq<Venue>>)

  /** Python's `s[-n:]`: the last `n` elements, or all of them when there are fewer. */
  function Recent<T>(s: seq<T>, n: nat): (r: seq<T>)
    ensures |r| == if |s| <= n then |s| else n
    ensures r == s[|s| - |r|..]
  {
    if |s| <= n then s else s[|s| - n..]
  }

  /** The newest element is always among the recent ones. */
  lemma RecentKeepsLast<T>(s: seq<T>, n: nat)
    requires s != [] && n > 0
    ensures |Recent(s, n)| > 0 && Recent(s, n)[|Recent(s, n)| - 1] == s[|s| - 1]
  {
    var r := Recent(s, n);
    assert r == s[|s| - |r|..];
  }

  /** Scans `s` newest first (`for x in reversed(s): ...; break`) and gives the
      value `f` yields for the newest element for which it yields one. */
  function NewestSome<T, U>(s: seq<T>, f: T -> Option<U>): Option<U> {
    if s == [] then None
    else if f(s[|s| - 1]).Some? then f(s[|s| - 1])
    else NewestSome(s[..|s| - 1], f)
  }

  /** One step of the scan: the newest element decides, else the older ones do. */
  lemma NewestSomeStep<T, U>(s: seq<T>, f: T -> Option<U>, j: nat)
    requires 0 < j <= |s|
    ensures NewestSome(s[..j], f) == if f(s[j - 1]).Some? then f(s[j - 1]) else NewestSome(s[..j - 1], f)
  {
    assert s[..j][..j - 1] == s[..j - 1];
  }

  /** The scan finds nothing exactly when `f` yields nothing for every element;
      otherwise it returns what `f` yields for some element after which `f`
      yields nothing. */
  lemma {:induction false} NewestSomeSpec<T, U>(s: seq<T>, f: T -> Option<U>)
    ensures NewestSome(s, f).None? <==> forall i :: 0 <= i < |s| ==> f(s[i]).None?
    ensures NewestSome(s, f).Some? ==> exists i :: (0 <= i < |s| && f(s[i]) == NewestSome(s, f) &&
      forall j :: i < j < |s| ==> f(s[j]).None?)
  {
    if s == [] {
      return;
    }
    var n := |s| - 1;
    var t := s[..n];
    NewestSomeSpec(t, f);
    if f(s[n]).Some? {
      assert NewestSome(s, f) == f(s[n]);
    } else if NewestSome(t, f).Some? {
      assert NewestSome(s, f) == NewestSome(t, f);
      var i :| 0 <= i < |t| && f(t[i]) == NewestSome(t, f) && forall j :: i < j < |t| ==> f(t[j]).None?;
      assert t[i] == s[i];
      forall j | i < j < |s| ensures f(s[j]).None? {
        if j < n { assert t[j] == s[j]; }
      }
    } else {
      assert NewestSome(s, f) == NewestSome(t, f);
      forall i | 0 <= i < |s| ensures f(s[i]).None? {
        if i < n { assert t[i] == s[i]; }
      }
    }
  }
}
