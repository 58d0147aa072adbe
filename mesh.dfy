/**
 * The agent mesh of a2a_framework.py: agents, the registry that keeps every
 * pair of registered agents mutual peers, and best-effort point-to-point
 * message delivery.
 */
module Mesh {
  import opened Values

  datatype MessageType = Request | Response

  /** `AgentCapability`; the reliability score is carried, never computed with. */
  datatype Capability = Capability(
    name: string,
    description: string,
    inputs: seq<string>,
    outputs: seq<string>,
    reliability: real,
    tools: seq<string>)

  /** `A2AMessage`: immutable once built. */
  datatype Message = Message(
    sender: string,
    receiver: string,
    messageType: MessageType,
    content: map<string, Value>)

  const UnregisteredError := "RuntimeError: Agent not registered with orchestrator"

  predicate NoDup(s: seq<string>) {
    forall i, j :: 0 <= i < j < |s| ==> s[i] != s[j]
  }

  /**
   * The peer list `ps` after the registration loop has visited the ids `ks`
   * on behalf of the agent `self`: each visited id other than `self` that is
   * not yet listed is appended, in visiting order.
   */
  function AppendMissing(ps: seq<string>, ks: seq<string>, self: string): seq<string> {
    if ks == [] then ps
    else
      var r0 := AppendMissing(ps, ks[..|ks| - 1], self);
      var k := ks[|ks| - 1];
      if k == self || k in r0 then r0 else r0 + [k]
  }

  /**
   * The loop only appends: it keeps the old list as a prefix, adds exactly
   * the visited ids other than `self`, and adds none twice.
   */
  lemma {:induction false} AppendMissingPeers(ps: seq<string>, ks: seq<string>, self: string)
    ensures ps <= AppendMissing(ps, ks, self)
    ensures forall x :: x in AppendMissing(ps, ks, self) <==> x in ps || (x in ks && x != self)
    ensures NoDup(ps) ==> NoDup(AppendMissing(ps, ks, self))
  {
    if ks != [] {
      var init := ks[..|ks| - 1];
      AppendMissingPeers(ps, init, self);
      assert ks == init + [ks[|ks| - 1]];
    }
  }

  /** The peer list of an already registered agent after `id` registers. */
  function Linked(ps: seq<string>, id: string): seq<string> {
    if id in ps then ps else ps + [id]
  }

  class Agent {
    const agentId: string
    const name: string
    const capabilities: seq<Capability>
    var orchestrator: Orchestrator?
    var peers: seq<string>
    /** The messages handed to `receive_message`, in order. */
    var received: seq<Message>

    constructor (agentId: string, name: string, capabilities: seq<Capability>, orchestrator: Orchestrator?)
      ensures this.agentId == agentId && this.name == name && this.capabilities == capabilities
      ensures this.orchestrator == orchestrator && peers == [] && received == []
    {
      this.agentId := agentId;
      this.name := name;
      this.capabilities := capabilities;
      this.orchestrator := orchestrator;
      peers := [];
      received := [];
    }

    /** The message handler: the model records each call. */
    method ReceiveMessage(m: Message)
      modifies this`received
      ensures received == old(received) + [m]
    {
      received := received + [m];
    }

    /**
     * Fails when the agent has no orchestrator; otherwise builds the message
     * from its own id and the arguments and hands it to `DeliverMessage`.
     */
    method SendMessage(receiverId: string, messageType: MessageType, content: map<string, Value>)
      returns (r: Outcome<()>)
      modifies (if orchestrator == null then {} else orchestrator.agents.Values)`received
      ensures orchestrator == null ==> r == Fail(UnregisteredError)
      ensures orchestrator != null ==>
        && r == Ok(())
        && orchestrator.Delivered(old(orchestrator.Inboxes()), Message(agentId, receiverId, messageType, content))
    {
      if orchestrator == null {
        return Fail(UnregisteredError);
      }
      var message := Message(agentId, receiverId, messageType, content);
      orchestrator.DeliverMessage(message);
      r := Ok(());
    }
  }

  /** Every listed id has every other listed id among its peers. */
  ghost predicate FullMeshOf(lists: map<string, seq<string>>) {
    forall x, y :: x in lists && y in lists && x != y ==> y in lists[x]
  }

  /** No id lists itself, and no list holds an id twice. */
  ghost predicate SimpleOf(lists: map<string, seq<string>>) {
    forall x :: x in lists ==> x !in lists[x] && NoDup(lists[x])
  }

  /**
   * The peer lists after `register_agent` for an agent with id `id` and
   * peer list `own`, where `order` is the dict's key order after insertion:
   * the new agent gains every other id, in key order; every other
   * registered agent gains `id`.
   */
  ghost function RegisteredPeers(lists: map<string, seq<string>>, id: string, own: seq<string>, order: seq<string>)
    : map<string, seq<string>>
  {
    map x | x in lists.Keys + {id} :: if x == id then AppendMissing(own, order, id) else Linked(lists[x], id)
  }

  /**
   * `RegisteredPeers` pinned down position by position along the key
   * order, the way the registration loop produces it.
   */
  lemma RegisteredPeersByPosition(after: map<string, seq<string>>, before: map<string, seq<string>>,
                                  id: string, own: seq<string>, order: seq<string>)
    requires after.Keys == before.Keys + {id}
    requires forall x :: x in after ==> x in order
    requires after[id] == AppendMissing(own, order, id)
    requires forall j :: 0 <= j < |order| && order[j] != id ==>
      order[j] in before && after[order[j]] == Linked(before[order[j]], id)
    ensures after == RegisteredPeers(before, id, own, order)
  {
    forall x | x in after
      ensures after[x] == RegisteredPeers(before, id, own, order)[x]
    {
      if x != id {
        var j :| 0 <= j < |order| && order[j] == x;
      }
    }
  }

  /** Registration keeps the full mesh: afterwards every pair of registered ids are mutual peers. */
  lemma RegisterKeepsFullMesh(lists: map<string, seq<string>>, id: string, own: seq<string>, order: seq<string>)
    requires FullMeshOf(lists)
    requires forall x :: x in order <==> x in lists || x == id
    ensures FullMeshOf(RegisteredPeers(lists, id, own, order))
  {
    var after := RegisteredPeers(lists, id, own, order);
    AppendMissingPeers(own, order, id);
    forall x, y | x in after && y in after && x != y
      ensures y in after[x]
    {
      if x != id && y != id {
        assert y in lists[x];
      }
    }
  }

  /**
   * Registration keeps every peer list free of its own id and of repeats,
   * provided the incoming agent's own list was (a fresh agent's is empty).
   */
  lemma RegisterKeepsSimple(lists: map<string, seq<string>>, id: string, own: seq<string>, order: seq<string>)
    requires SimpleOf(lists)
    requires id !in own && NoDup(own)
    ensures SimpleOf(RegisteredPeers(lists, id, own, order))
  {
    var after := RegisteredPeers(lists, id, own, order);
    AppendMissingPeers(own, order, id);
    forall x | x in after
      ensures x !in after[x] && NoDup(after[x])
    {
      if x != id {
        assert x !in lists[x] && NoDup(lists[x]);
      }
    }
  }

  /** Both shape invariants at once, each under its own hypothesis. */
  lemma RegisterKeeps(lists: map<string, seq<string>>, id: string, own: seq<string>, order: seq<string>)
    requires forall x :: x in order <==> x in lists || x == id
    ensures FullMeshOf(lists) ==> FullMeshOf(RegisteredPeers(lists, id, own, order))
    ensures SimpleOf(lists) && id !in own && NoDup(own) ==> SimpleOf(RegisteredPeers(lists, id, own, order))
  {
    if FullMeshOf(lists) {
      RegisterKeepsFullMesh(lists, id, own, order);
    }
    if SimpleOf(lists) && id !in own && NoDup(own) {
      RegisterKeepsSimple(lists, id, own, order);
    }
  }

  /**
   * Registering an id that is already in a full mesh registers no new id,
   * and every other agent's peer list stays as it was (it already lists the id).
   */
  lemma ReRegistration(lists: map<string, seq<string>>, id: string, own: seq<string>, order: seq<string>)
    requires id in lists && FullMeshOf(lists)
    ensures RegisteredPeers(lists, id, own, order).Keys == lists.Keys
    ensures forall x :: x in lists && x != id ==> RegisteredPeers(lists, id, own, order)[x] == lists[x]
  {
    forall x | x in lists && x != id
      ensures RegisteredPeers(lists, id, own, order)[x] == lists[x]
    {
      assert id in lists[x];
    }
  }

  /** Registering a fresh agent into an empty registry gives it no peers. */
  lemma FirstRegistration(a: string)
    ensures RegisteredPeers(map[], a, [], [a]) == map[a := []]
  {
    assert [a][..0] == [];
    assert AppendMissing([], [a], a) == [];
  }

  /**
   * Registering a fresh agent `b` next to a lone agent `a` with no peers:
   * the two list each other and nothing else.
   */
  lemma SecondRegistration(lists: map<string, seq<string>>, a: string, b: string)
    requires a != b && lists.Keys == {a} && lists[a] == []
    ensures RegisteredPeers(lists, b, [], [a, b]) == map[a := [b], b := [a]]
  {
    assert [a, b][..1] == [a];
    assert [a][..0] == [];
    assert AppendMissing([], [a], b) == [a];
    assert AppendMissing([], [a, b], b) == [a];
    var two := RegisteredPeers(lists, b, [], [a, b]);
    assert two.Keys == {a, b};
    assert two[a] == Linked([], b) == [b];
  }

  /**
   * Re-registering `a` with no peers of its own, next to `b`, in a two-agent
   * mesh: the lists come out as they were.
   */
  lemma Replacement(a: string, b: string)
    requires a != b
    ensures RegisteredPeers(map[a := [b], b := [a]], a, [], [a, b]) == map[a := [b], b := [a]]
  {
    assert [a][..0] == [];
    assert AppendMissing([], [a], a) == [];
    assert [a, b][..1] == [a];
    assert AppendMissing([], [a, b], a) == [b];
  }

  class Orchestrator {
    var agents: map<string, Agent>
    /** The ids in the order the Python dict iterates them (first insertion order). */
    var order: seq<string>

    /** Each agent sits under its own id, and `order` lists every id once. */
    ghost predicate Valid()
      reads this
    {
      && (forall id :: id in agents ==> agents[id].agentId == id)
      && NoDup(order)
      && (forall id :: id in order <==> id in agents)
    }

    /** The peer list of every registered id. */
    ghost function PeerLists(): map<string, seq<string>>
      reads this, agents.Values`peers
    {
      map x | x in agents :: agents[x].peers
    }

    /** Every registered agent lists every other registered id as a peer. */
    ghost predicate FullMesh()
      reads this, agents.Values`peers
    {
      FullMeshOf(PeerLists())
    }

    /** No registered agent lists itself or lists a peer twice. */
    ghost predicate SimplePeers()
      reads this, agents.Values`peers
    {
      SimpleOf(PeerLists())
    }

    /** The messages received so far by every registered id. */
    ghost function Inboxes(): map<string, seq<Message>>
      reads this, agents.Values
    {
      map x | x in agents :: agents[x].received
    }

    /** `m` has been handed to its receiver, if registered, and to no one else. */
    ghost predicate Delivered(before: map<string, seq<Message>>, m: Message)
      reads this, agents.Values
    {
      && before.Keys == agents.Keys
      && (m.receiver in agents ==>
            && agents[m.receiver].received == before[m.receiver] + [m]
            && forall x :: x in agents && agents[x] != agents[m.receiver] ==> agents[x].received == before[x])
      && (m.receiver !in agents ==> forall x :: x in agents ==> agents[x].received == before[x])
    }

    constructor ()
      ensures agents == map[] && order == []
      ensures Valid() && FullMesh() && SimplePeers()
    {
      agents := map[];
      order := [];
    }

    /**
     * `register_agent`: points the agent back at this registry, stores it
     * under its id (replacing an agent with the same id), and makes it and
     * every other registered agent mutual peers.
     */
    method RegisterAgent(agent: Agent)
      requires Valid()
      modifies this, agent`orchestrator, agent`peers, agents[agent.agentId := agent].Values`peers
      ensures Valid()
      ensures agents == old(agents)[agent.agentId := agent]
      ensures order == if agent.agentId in old(agents) then old(order) else old(order) + [agent.agentId]
      ensures agent.orchestrator == this
      ensures PeerLists() == RegisteredPeers(old(PeerLists()), agent.agentId, old(agent.peers), order)
      ensures agent.agentId in old(agents) && old(agents)[agent.agentId] != agent ==>
        old(agents)[agent.agentId].peers == old(agents[agent.agentId].peers)
      ensures old(FullMesh()) ==> FullMesh()
      ensures old(SimplePeers()) && agent.agentId !in old(agent.peers) && NoDup(old(agent.peers)) ==> SimplePeers()
    {
      ghost var before := PeerLists();
      ghost var own := agent.peers;
      Enroll(agent);
      RegisterKeeps(before, agent.agentId, own, order);
    }

    /** The state changes of `register_agent`, in its order. */
    method Enroll(agent: Agent)
      requires Valid()
      modifies this, agent`orchestrator, agent`peers, agents[agent.agentId := agent].Values`peers
      ensures Valid()
      ensures agents == old(agents)[agent.agentId := agent]
      ensures order == if agent.agentId in old(agents) then old(order) else old(order) + [agent.agentId]
      ensures agent.orchestrator == this
      ensures PeerLists() == RegisteredPeers(old(PeerLists()), agent.agentId, old(agent.peers), order)
      ensures agent.agentId in old(agents) && old(agents)[agent.agentId] != agent ==>
        old(agents)[agent.agentId].peers == old(agents[agent.agentId].peers)
    {
      ghost var before := PeerLists();
      ghost var own := agent.peers;
      agent.orchestrator := this;
      Store(agent);
      LinkPeers(agent, before, own);
    }

    /** `self.agents[agent.agent_id] = agent`, with the dict's key order kept alongside. */
    method Store(agent: Agent)
      requires Valid()
      modifies this`agents, this`order
      ensures Valid()
      ensures agents == old(agents)[agent.agentId := agent]
      ensures order == if agent.agentId in old(agents) then old(order) else old(order) + [agent.agentId]
    {
      agents := agents[agent.agentId := agent];
      if agent.agentId !in order {
        order := order + [agent.agentId];
      }
    }

    /**
     * The loop of `register_agent` over the registry in key order: the
     * registered `agent` and every other agent become mutual peers.
     */
    method LinkPeers(agent: Agent, ghost before: map<string, seq<string>>, ghost own: seq<string>)
      requires Valid() && agent.agentId in agents && agents[agent.agentId] == agent
      requires forall x :: x in agents && x != agent.agentId ==> x in before && agents[x].peers == before[x]
      requires agents.Keys == before.Keys + {agent.agentId}
      requires agent.peers == own
      modifies agents.Values`peers
      ensures PeerLists() == RegisteredPeers(before, agent.agentId, own, order)
    {
      LinkEach(agent, before, own);
      RegisteredPeersByPosition(PeerLists(), before, agent.agentId, own, order);
    }

    /**
     * The loop of `register_agent`, once per registered id in key order:
     * every agent other than `agent` appends its id when missing, and
     * `agent` appends theirs.
     */
    method LinkEach(agent: Agent, ghost before: map<string, seq<string>>, ghost own: seq<string>)
      requires NoDup(order) && forall j :: 0 <= j < |order| ==> order[j] in agents && agents[order[j]].agentId == order[j]
      requires agent.agentId in agents && agents[agent.agentId] == agent
      requires forall j :: 0 <= j < |order| && order[j] != agent.agentId ==>
        order[j] in before && agents[order[j]].peers == before[order[j]]
      requires agent.peers == own
      modifies agents.Values`peers
      ensures agent.peers == AppendMissing(own, order, agent.agentId)
      ensures forall j :: 0 <= j < |order| && order[j] != agent.agentId ==>
        agents[order[j]].peers == Linked(before[order[j]], agent.agentId)
    {
      var id := agent.agentId;
      var i := 0;
      while i < |order|
        invariant 0 <= i <= |order|
        invariant agent.peers == AppendMissing(own, order[..i], id)
        invariant forall j :: 0 <= j < i && order[j] != id ==> agents[order[j]].peers == Linked(before[order[j]], id)
        invariant forall j :: i <= j < |order| && order[j] != id ==> agents[order[j]].peers == before[order[j]]
      {
        var other := agents[order[i]];
        assert order[..i + 1][..i] == order[..i];
        if other.agentId != id {
          LinkPair(agent, other);
        }
        i := i + 1;
      }
      assert order[..|order|] == order;
    }

    /** One round of the loop: `agent` and a different agent `other` become mutual peers. */
    static method LinkPair(agent: Agent, other: Agent)
      requires agent.agentId != other.agentId
      modifies agent`peers, other`peers
      ensures other.peers == Linked(old(other.peers), agent.agentId)
      ensures agent.peers == AppendMissing(old(agent.peers), [other.agentId], agent.agentId)
    {
      if agent.agentId !in other.peers {
        other.peers := other.peers + [agent.agentId];
      }
      if other.agentId !in agent.peers {
        agent.peers := agent.peers + [other.agentId];
      }
    }

    /** `register_agent` for a second agent, next to a lone first agent with no peers. */
    method RegisterSecond(first: Agent, second: Agent)
      requires Valid() && agents == map[first.agentId := first] && order == [first.agentId]
      requires first.peers == [] && second.peers == [] && first.agentId != second.agentId
      modifies this, second`orchestrator, second`peers, first`peers
      ensures Valid() && agents == map[first.agentId := first, second.agentId := second]
      ensures order == [first.agentId, second.agentId]
      ensures first.peers == [second.agentId] && second.peers == [first.agentId]
      ensures second.orchestrator == this
    {
      var a, b := first.agentId, second.agentId;
      ghost var one := PeerLists();
      assert one == map[a := []];
      RegisterAgent(second);
      assert order == [a, b];
      SecondRegistration(one, a, b);
      assert PeerLists()[a] == first.peers;
      assert PeerLists()[b] == second.peers;
    }

    /** `deliver_message`: one handler call on the registered receiver, or a silent drop. */
    method DeliverMessage(m: Message)
      modifies agents.Values`received
      ensures Delivered(old(Inboxes()), m)
    {
      if m.receiver in agents {
        agents[m.receiver].ReceiveMessage(m);
      }
    }
  }

  /** A fresh registry holding one freshly built agent. */
  method RegisterOne(id: string, name: string, capabilities: seq<Capability>)
    returns (orchestrator: Orchestrator, first: Agent)
    ensures fresh(orchestrator) && fresh(first)
    ensures orchestrator.Valid() && orchestrator.agents == map[id := first] && orchestrator.order == [id]
    ensures first.agentId == id && first.peers == [] && first.received == []
    ensures first.orchestrator == orchestrator
  {
    first := new Agent(id, name, capabilities, null);
    orchestrator := new Orchestrator();
    assert orchestrator.PeerLists() == map[];
    orchestrator.RegisterAgent(first);
    FirstRegistration(id);
    assert orchestrator.PeerLists()[id] == first.peers;
  }

  /** A fresh registry after two freshly built agents with distinct ids register in turn. */
  method RegisterTwo(a: string, aName: string, aCapabilities: seq<Capability>,
                     b: string, bName: string, bCapabilities: seq<Capability>)
    returns (orchestrator: Orchestrator, first: Agent, second: Agent)
    requires a != b
    ensures fresh(orchestrator) && fresh(first) && fresh(second)
    ensures orchestrator.Valid() && orchestrator.agents == map[a := first, b := second]
    ensures orchestrator.order == [a, b]
    ensures first.peers == [b] && second.peers == [a]
    ensures first.agentId == a && second.agentId == b
    ensures first.orchestrator == orchestrator && second.orchestrator == orchestrator
    ensures first.received == [] && second.received == []
  {
    orchestrator, first := RegisterOne(a, aName, aCapabilities);
    second := new Agent(b, bName, bCapabilities, null);
    orchestrator.RegisterSecond(first, second);
  }

  /** The coder and the tester of the framework's unit tests, registered in that order. */
  method RegisterCoderAndTester() returns (orchestrator: Orchestrator, coder: Agent, tester: Agent)
    ensures fresh(orchestrator) && fresh(coder) && fresh(tester)
    ensures orchestrator.Valid() && orchestrator.agents == map["coder_001" := coder, "tester_001" := tester]
    ensures orchestrator.order == ["coder_001", "tester_001"]
    ensures coder.peers == ["tester_001"] && tester.peers == ["coder_001"]
    ensures coder.agentId == "coder_001" && tester.agentId == "tester_001"
    ensures coder.orchestrator == orchestrator && tester.orchestrator == orchestrator
    ensures coder.received == [] && tester.received == []
  {
    var coding := [
      Capability("code_generation", "Generate code", ["requirements"], ["code"], 0.9, ["python"]),
      Capability("code_review", "Review code", ["code"], ["feedback"], 0.8, ["best_practices"])];
    var testing := [Capability("test_generation", "Generate test cases", ["code"], ["tests"], 0.85, ["unit_testing"])];
    orchestrator, coder, tester := RegisterTwo("coder_001", "CodeMaster", coding, "tester_001", "TestGuardian", testing);
  }

  /**
   * Registering a coder and then a tester leaves exactly those two ids
   * registered, each the other's only peer.
   */
  method RegistrationScenario() returns (registered: set<string>, coderPeers: seq<string>, testerPeers: seq<string>)
    ensures registered == {"coder_001", "tester_001"}
    ensures coderPeers == ["tester_001"] && testerPeers == ["coder_001"]
  {
    var orchestrator, coder, tester := RegisterCoderAndTester();
    registered := orchestrator.agents.Keys;
    coderPeers, testerPeers := coder.peers, tester.peers;
  }

  /**
   * The coder's request reaches the tester exactly once, and a message to an
   * id nobody registered reaches no one.
   */
  method MessagingScenario() returns (testerInbox: seq<Message>, coderInbox: seq<Message>)
    ensures testerInbox == [Message("coder_001", "tester_001", Request, map["task" := Str("generate tests")])]
    ensures coderInbox == []
  {
    var orchestrator, coder, tester := RegisterCoderAndTester();
    var sent := coder.SendMessage("tester_001", Request, map["task" := Str("generate tests")]);
    assert tester.received == [Message("coder_001", "tester_001", Request, map["task" := Str("generate tests")])];
    var dropped := tester.SendMessage("nobody_404", Response, map[]);
    testerInbox, coderInbox := tester.received, coder.received;
  }

  /**
   * A second coder registered under the coder's id displaces it: the
   * registry keeps the two ids, the newcomer gains the tester as its peer,
   * the tester's list already names the id, and the displaced coder's own
   * peer list is left as it was.
   */
  method ReplacementScenario() returns (registered: set<string>, displacedPeers: seq<string>,
                                        newcomerPeers: seq<string>, testerPeers: seq<string>)
    ensures registered == {"coder_001", "tester_001"}
    ensures displacedPeers == ["tester_001"]
    ensures newcomerPeers == ["tester_001"] && testerPeers == ["coder_001"]
  {
    var orchestrator, coder, tester := RegisterCoderAndTester();
    var newcomer := new Agent("coder_001", "CodeMaster II", [], null);
    ghost var before := orchestrator.PeerLists();
    assert before == map["coder_001" := ["tester_001"], "tester_001" := ["coder_001"]];
    orchestrator.RegisterAgent(newcomer);
    Replacement("coder_001", "tester_001");
    assert orchestrator.PeerLists()["coder_001"] == newcomer.peers;
    assert orchestrator.PeerLists()["tester_001"] == tester.peers;
    registered := orchestrator.agents.Keys;
    displacedPeers, newcomerPeers, testerPeers := coder.peers, newcomer.peers, tester.peers;
  }

  /** An agent never registered cannot send. */
  method UnregisteredScenario() returns (r: Outcome<()>)
    ensures r == Fail(UnregisteredError)
  {
    var loner := new Agent("loner_001", "Loner", [], null);
    r := loner.SendMessage("tester_001", Request, map[]);
  }
}
