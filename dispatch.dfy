/**
 * The two collaboration dispatchers the repository ships for its tests:
 * `SimpleOrchestrator` (services/ai_providers_simple.py), which also
 * records sessions and a bridge flag, and the stateless
 * `EnhancedOrchestrator` with `enter_autonomous_sdlc_mode`
 * (refactored_orchestrator.py). Neither branches on the paradigm: both echo
 * the request into the same canned result.
 */
module Dispatch {
  import opened Values

  /** The arguments of `collaborate(session_id, paradigm, task, agents, context=None)`. */
  datatype Request = Request(
    sessionId: string,
    paradigm: string,
    task: string,
    agents: seq<string>,
    context: Option<Value>)

  /** The fields of a collaboration result dictionary. */
  datatype SessionResult = SessionResult(
    success: bool,
    paradigm: string,
    task: string,
    agents: seq<string>,
    status: string)

  /** The result as the Python dictionary the dispatchers return. */
  function Encode(r: SessionResult): Value {
    Dict(map[
      "success" := Bool(r.success),
      "paradigm" := Str(r.paradigm),
      "task" := Str(r.task),
      "agents" := StrList(r.agents),
      "status" := Str(r.status)])
  }

  /** Reads a result dictionary back; `None` when a field is missing or of the wrong type. */
  function Decode(v: Value): Option<SessionResult> {
    if !v.Dict? then None
    else
      var e := v.entries;
      if !("success" in e && e["success"].Bool?) then None
      else if !("paradigm" in e && e["paradigm"].Str?) then None
      else if !("task" in e && e["task"].Str?) then None
      else if !("agents" in e && e["agents"].List?) then None
      else if !("status" in e && e["status"].Str?) then None
      else match StringsOf(e["agents"].items)
        case None => None
        case Some(agents) =>
          Some(SessionResult(e["success"].b, e["paradigm"].s, e["task"].s, agents, e["status"].s))
  }

  /** Decoding an encoded result gives it back. */
  lemma DecodeEncode(r: SessionResult)
    ensures Decode(Encode(r)) == Some(r)
  {
    StringsOfStrList(r.agents);
  }

  /**
   * The canned answer of both dispatchers: success, status "ok", and the
   * paradigm, task and agents echoed, whatever the paradigm is.
   */
  function Collaboration(paradigm: string, task: string, agents: seq<string>): (v: Value)
    ensures v.Dict? && v.entries.Keys == {"success", "paradigm", "task", "agents", "status"}
    ensures Decode(v) == Some(SessionResult(true, paradigm, task, agents, "ok"))
  {
    var r := SessionResult(true, paradigm, task, agents, "ok");
    DecodeEncode(r);
    Encode(r)
  }

  // ---------------------------------------------------------------------
  // SimpleOrchestrator (services/ai_providers_simple.py)
  // ---------------------------------------------------------------------

  datatype Provider = Provider(name: string)

  /** The provider registry built by the constructor: each backend under its own name. */
  function DefaultProviders(): (p: map<string, Provider>)
    ensures p.Keys == {"gemini", "claude", "openai", "blackbox"}
    ensures forall k :: k in p ==> p[k].name == k
  {
    map["gemini" := Provider("gemini"), "claude" := Provider("claude"),
        "openai" := Provider("openai"), "blackbox" := Provider("blackbox")]
  }

  /**
   * `active_sessions[session_id] = task`: the session now maps to its task,
   * every other session is untouched, and the count grows only for a new id.
   */
  function RecordSession(sessions: map<string, string>, sessionId: string, task: string): (r: map<string, string>)
    ensures sessionId in r && r[sessionId] == task
    ensures forall s :: s != sessionId ==> (s in r <==> s in sessions)
    ensures forall s :: s in sessions && s != sessionId ==> r[s] == sessions[s]
    ensures |r| == if sessionId in sessions then |sessions| else |sessions| + 1
  {
    var r := sessions[sessionId := task];
    assert r.Keys == sessions.Keys + {sessionId};
    r
  }

  /** The `{'success': True}` answer of `initialize_bridges`. */
  function BridgesReady(): Value {
    Dict(map["success" := Bool(true)])
  }

  const CodePrefix := "// code for "

  class SimpleOrchestrator {
    var providers: map<string, Provider>
    var activeSessions: map<string, string>
    var bridgeInitialized: bool

    constructor ()
      ensures providers == DefaultProviders()
      ensures activeSessions == map[] && !bridgeInitialized
    {
      providers := DefaultProviders();
      activeSessions := map[];
      bridgeInitialized := false;
    }

    /** Records the session and returns the canned answer; `context` is ignored. */
    method Collaborate(sessionId: string, paradigm: string, task: string, agents: seq<string>, context: Option<Value>)
      returns (r: Value)
      modifies this`activeSessions
      ensures r == Collaboration(paradigm, task, agents)
      ensures activeSessions == RecordSession(old(activeSessions), sessionId, task)
    {
      activeSessions := RecordSession(activeSessions, sessionId, task);
      r := Collaboration(paradigm, task, agents);
    }

    /** Idempotent: the flag ends up set whatever it was. */
    method InitializeBridges() returns (r: Value)
      modifies this`bridgeInitialized
      ensures bridgeInitialized && r == BridgesReady()
    {
      bridgeInitialized := true;
      r := BridgesReady();
    }

    /** Reads no state and changes none; the code is the prompt behind a fixed comment marker. */
    method GenerateCodeWithBridges(prompt: string, language: string, paradigm: string) returns (r: Value)
      ensures r.Dict? && r.entries.Keys == {"success", "code"} && r.entries["success"] == Bool(true)
      ensures r.entries["code"].Str? && StartsWith(r.entries["code"].s, CodePrefix)
      ensures r.entries["code"].s[|CodePrefix|..] == prompt
    {
      r := Dict(map["success" := Bool(true), "code" := Str(CodePrefix + prompt)]);
    }
  }

  // ---------------------------------------------------------------------
  // EnhancedOrchestrator and enter_autonomous_sdlc_mode (refactored_orchestrator.py)
  // ---------------------------------------------------------------------

  /** The provider registry of `EnhancedOrchestrator`: each backend maps to an empty dict. */
  function EnhancedProviders(): (p: map<string, Value>)
    ensures p.Keys == {"gemini", "claude", "openai", "blackbox"}
    ensures forall k :: k in p ==> p[k] == Dict(map[])
  {
    map["gemini" := Dict(map[]), "claude" := Dict(map[]),
        "openai" := Dict(map[]), "blackbox" := Dict(map[])]
  }

  /** `EnhancedOrchestrator.collaborate`: stateless, and blind to the session id and the context. */
  function EnhancedCollaborate(req: Request): (v: Value)
    ensures Decode(v) == Some(SessionResult(true, req.paradigm, req.task, req.agents, "ok"))
  {
    Collaboration(req.paradigm, req.task, req.agents)
  }

  /** Two requests that differ only in session id and context get the same answer. */
  lemma EnhancedIgnoresSessionAndContext(a: Request, b: Request)
    requires a.paradigm == b.paradigm && a.task == b.task && a.agents == b.agents
    ensures EnhancedCollaborate(a) == EnhancedCollaborate(b)
  {
  }

  /** `EnhancedOrchestrator` as a dispatcher script: every call returns normally. */
  function EnhancedReply(n: nat, req: Request): Outcome<Value> {
    Ok(EnhancedCollaborate(req))
  }

  /** `enter_autonomous_sdlc_mode(task, agents)`: a deterministic summary. */
  function EnterAutonomousSdlcMode(task: string, agents: seq<string>): string {
    "completed " + task + " with " + Join(agents, ", ")
  }

  /** The summary names its task and every agent. */
  lemma SummaryMentionsAgents(task: string, agents: seq<string>)
    ensures OccursAt(task, EnterAutonomousSdlcMode(task, agents), |"completed "|)
    ensures forall i :: 0 <= i < |agents| ==> Contains(EnterAutonomousSdlcMode(task, agents), agents[i])
  {
    var head := "completed " + task + " with ";
    var s := EnterAutonomousSdlcMode(task, agents);
    assert s[|"completed "|..|"completed "| + |task|] == task;
    forall i | 0 <= i < |agents|
      ensures Contains(s, agents[i])
    {
      JoinContains(agents, ", ", i);
      var j := Join(agents, ", ");
      var k: nat :| OccursAt(agents[i], j, k);
      assert s[|head| + k..|head| + k + |agents[i]|] == j[k..k + |agents[i]|];
      assert OccursAt(agents[i], s, |head| + k);
    }
  }
}
