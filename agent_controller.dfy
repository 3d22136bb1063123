/** The collector's in-memory registry of deployed agents (backend/src/controllers/agentController.ts):
    deploy, list, stop, heartbeat and status poll. Ids come from `Math.random` and times from
    `new Date()`; both are inputs here, and nothing makes ids unique. */
module AgentController {
  import opened Wrappers

  /** A deployed agent. `status` is `running` or `stopped` by declaration, but a heartbeat stores
      whatever text the agent sends. `systemInfo` is the JSON the agent last reported, as text. */
  datatype DeployedAgent = DeployedAgent(
    id: string,
    name: string,
    status: string,
    deployedAt: int,
    lastActive: int,
    systemInfo: Option<string>)

  /** What a handler answers: the JSON body of a 200 reply, or the 404 `Agent not found` error. */
  datatype Reply =
    | AgentReply(agent: DeployedAgent)
    | AgentsReply(agents: seq<DeployedAgent>)
    | StatusReply(status: string)
    | NullReply
    | NotFound

  /** `deployedAgents.find(a => a.id === id)`, as the index of the first agent with that id. */
  function FirstWithId(agents: seq<DeployedAgent>, id: string): (k: Option<nat>)
    ensures k.None? <==> forall a :: a in agents ==> a.id != id
    ensures k.Some? ==> k.value < |agents| && agents[k.value].id == id
                        && forall j :: 0 <= j < k.value ==> agents[j].id != id
  {
    if agents == [] then None
    else if agents[0].id == id then Some(0)
    else
      var k := FirstWithId(agents[1..], id);
      assert forall a :: a in agents[1..] ==> a in agents;
      assert agents == [agents[0]] + agents[1..];
      if k.None? then None else Some(k.value + 1)
  }

  // ---------------------------------------------------------------------------
  // The handlers, as functions of the registry

  /** The record `deployAgent` creates: running, and last active at the moment it was deployed. */
  function NewAgent(id: string, name: string, now: int): DeployedAgent
  {
    DeployedAgent(id, name, "running", now, now, None)
  }

  /** The registry after `stopAgent(id)`: the first agent with that id is stopped and marked active now. */
  function Stopped(agents: seq<DeployedAgent>, id: string, now: int): (r: seq<DeployedAgent>)
    ensures |r| == |agents|
    ensures FirstWithId(agents, id).None? ==> r == agents
    ensures FirstWithId(agents, id).Some? ==>
      var k := FirstWithId(agents, id).value;
      r[k] == agents[k].(status := "stopped", lastActive := now)
      && forall j :: 0 <= j < |agents| && j != k ==> r[j] == agents[j]
  {
    match FirstWithId(agents, id)
    case None => agents
    case Some(k) => agents[k := agents[k].(status := "stopped", lastActive := now)]
  }

  /** The registry after `heartbeat(id)`: the first agent with that id takes the reported status and
      system information unchecked, and is marked active now. */
  function Heartbeaten(agents: seq<DeployedAgent>, id: string, status: string, systemInfo: Option<string>, now: int)
    : (r: seq<DeployedAgent>)
    ensures |r| == |agents|
    ensures FirstWithId(agents, id).None? ==> r == agents
    ensures FirstWithId(agents, id).Some? ==>
      var k := FirstWithId(agents, id).value;
      r[k] == agents[k].(status := status, lastActive := now, systemInfo := systemInfo)
      && forall j :: 0 <= j < |agents| && j != k ==> r[j] == agents[j]
  {
    match FirstWithId(agents, id)
    case None => agents
    case Some(k) => agents[k := agents[k].(status := status, lastActive := now, systemInfo := systemInfo)]
  }

  /** `getAgentStatus(id)`: the status of the first agent with that id, or 404. */
  function StatusOf(agents: seq<DeployedAgent>, id: string): (r: Reply)
    ensures r.NotFound? <==> forall a :: a in agents ==> a.id != id
    ensures r.StatusReply? || r.NotFound?
    ensures r.StatusReply? ==> exists k :: 0 <= k < |agents| && agents[k].id == id && agents[k].status == r.status
  {
    match FirstWithId(agents, id)
    case None => NotFound
    case Some(k) => StatusReply(agents[k].status)
  }

  class AgentRegistry {
    /** `deployedAgents`. */
    var deployedAgents: seq<DeployedAgent>

    /** The registry starts empty when the collector starts. */
    constructor()
      ensures deployedAgents == []
    {
      deployedAgents := [];
    }

    /** `deployAgent`: appends one running agent and answers with it. */
    method DeployAgent(name: string, newId: string, now: int) returns (reply: Reply)
      modifies this
      ensures deployedAgents == old(deployedAgents) + [NewAgent(newId, name, now)]
      ensures reply == AgentReply(NewAgent(newId, name, now))
    {
      var agent := NewAgent(newId, name, now);
      deployedAgents := deployedAgents + [agent];
      reply := AgentReply(agent);
    }

    /** `getDeployedAgents`: the whole list, unchanged. */
    method GetDeployedAgents() returns (reply: Reply)
      ensures reply == AgentsReply(deployedAgents)
    {
      reply := AgentsReply(deployedAgents);
    }

    /** `stopAgent`: the stop signal the agent picks up on its next status poll. */
    method StopAgent(id: string, now: int) returns (reply: Reply)
      modifies this
      ensures deployedAgents == Stopped(old(deployedAgents), id, now)
      ensures reply == if FirstWithId(old(deployedAgents), id).Some? then StatusReply("stopped") else NotFound
    {
      var k := FirstWithId(deployedAgents, id);
      if k.Some? {
        var agent := deployedAgents[k.value];
        deployedAgents := deployedAgents[k.value := agent.(status := "stopped", lastActive := now)];
        reply := StatusReply("stopped");
      } else {
        reply := NotFound;
      }
    }

    /** `heartbeat`: stores what the agent reports and answers with the updated record. */
    method Heartbeat(id: string, status: string, systemInfo: Option<string>, now: int) returns (reply: Reply)
      modifies this
      ensures deployedAgents == Heartbeaten(old(deployedAgents), id, status, systemInfo, now)
      ensures FirstWithId(old(deployedAgents), id).None? ==> reply == NotFound
      ensures FirstWithId(old(deployedAgents), id).Some? ==>
        reply == AgentReply(deployedAgents[FirstWithId(old(deployedAgents), id).value])
    {
      var k := FirstWithId(deployedAgents, id);
      if k.Some? {
        var agent := deployedAgents[k.value].(status := status, lastActive := now, systemInfo := systemInfo);
        deployedAgents := deployedAgents[k.value := agent];
        reply := AgentReply(agent);
      } else {
        reply := NotFound;
      }
    }

    /** `getAgentStatus`: reads the registry and changes nothing. */
    method GetAgentStatus(id: string) returns (reply: Reply)
      ensures reply == StatusOf(deployedAgents, id)
    {
      var k := FirstWithId(deployedAgents, id);
      if k.Some? {
        reply := StatusReply(deployedAgents[k.value].status);
      } else {
        reply := NotFound;
      }
    }

    /** `getAgentAlerts`, `getAgentVulnerabilities` and `getAgentCompliance` are placeholders that
        answer `null` whatever the id. */
    method GetAgentData(id: string) returns (reply: Reply)
      ensures reply == NullReply
    {
      reply := NullReply;
    }
  }

  // ---------------------------------------------------------------------------
  // Properties of the registry

  /** A stop is seen by the next status poll: the first agent with the id reports `stopped`. */
  lemma StopIsSignalled(agents: seq<DeployedAgent>, id: string, now: int)
    requires exists a :: a in agents && a.id == id
    ensures StatusOf(Stopped(agents, id, now), id) == StatusReply("stopped")
  {
    var k := FirstWithId(agents, id).value;
    var r := Stopped(agents, id, now);
    assert forall j :: 0 <= j < k ==> r[j].id == agents[j].id;
    assert FirstWithId(r, id) == Some(k) by {
      FirstWithIdIs(r, id, k);
    }
  }

  /** `find` is determined by the ids alone: an index whose agent has the id and no earlier one does
      is the one found. */
  lemma {:induction false} FirstWithIdIs(agents: seq<DeployedAgent>, id: string, k: nat)
    requires k < |agents| && agents[k].id == id
    requires forall j :: 0 <= j < k ==> agents[j].id != id
    ensures FirstWithId(agents, id) == Some(k)
  {
    if k > 0 {
      FirstWithIdIs(agents[1..], id, k - 1);
    }
  }

  /** Neither the stop nor the heartbeat moves or renames an agent, so both keep which agent is found. */
  lemma UpdatesKeepIds(agents: seq<DeployedAgent>, id: string, other: string, status: string,
                       systemInfo: Option<string>, now: int)
    ensures FirstWithId(Stopped(agents, id, now), other) == FirstWithId(agents, other)
    ensures FirstWithId(Heartbeaten(agents, id, status, systemInfo, now), other) == FirstWithId(agents, other)
  {
    var s := Stopped(agents, id, now);
    var h := Heartbeaten(agents, id, status, systemInfo, now);
    assert forall j :: 0 <= j < |agents| ==> s[j].id == agents[j].id && h[j].id == agents[j].id;
    SameIdsSameFind(agents, s, other);
    SameIdsSameFind(agents, h, other);
  }

  lemma {:induction false} SameIdsSameFind(xs: seq<DeployedAgent>, ys: seq<DeployedAgent>, id: string)
    requires |xs| == |ys| && forall j :: 0 <= j < |xs| ==> xs[j].id == ys[j].id
    ensures FirstWithId(xs, id) == FirstWithId(ys, id)
  {
    if xs != [] {
      SameIdsSameFind(xs[1..], ys[1..], id);
    }
  }

  /** No handler removes an agent: deploying adds one, the others keep the length. */
  lemma RegistryNeverShrinks(agents: seq<DeployedAgent>, id: string, name: string, status: string,
                             systemInfo: Option<string>, now: int)
    ensures |agents + [NewAgent(id, name, now)]| == |agents| + 1
    ensures |Stopped(agents, id, now)| == |agents|
    ensures |Heartbeaten(agents, id, status, systemInfo, now)| == |agents|
  {
  }

  /** An unknown id is a 404 for all three id-addressed handlers, and the registry is untouched. */
  lemma UnknownIdIsNotFound(agents: seq<DeployedAgent>, id: string, status: string, systemInfo: Option<string>, now: int)
    requires forall a :: a in agents ==> a.id != id
    ensures Stopped(agents, id, now) == agents
    ensures Heartbeaten(agents, id, status, systemInfo, now) == agents
    ensures StatusOf(agents, id) == NotFound
  {
  }

  /** A heartbeat can undo a stop: whatever status the agent reports is what the next poll returns. */
  lemma HeartbeatOverridesStop(agents: seq<DeployedAgent>, id: string, status: string, systemInfo: Option<string>,
                               t1: int, t2: int)
    requires exists a :: a in agents && a.id == id
    ensures StatusOf(Heartbeaten(Stopped(agents, id, t1), id, status, systemInfo, t2), id) == StatusReply(status)
  {
    var s := Stopped(agents, id, t1);
    UpdatesKeepIds(agents, id, id, status, systemInfo, t1);
    UpdatesKeepIds(s, id, id, status, systemInfo, t2);
  }

  /** With two agents sharing an id, only the first is ever stopped or updated. */
  lemma DuplicateIdShadowed(agents: seq<DeployedAgent>, i: nat, j: nat, now: int)
    requires i < j < |agents| && agents[i].id == agents[j].id
    ensures Stopped(agents, agents[j].id, now)[j] == agents[j]
  {
    var k := FirstWithId(agents, agents[j].id).value;
    assert k <= i;
  }
}
