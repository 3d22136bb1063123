/** The agent list of the dashboard's agent-management page (src/pages/AgentManagementPage.tsx): the
    React state of the page and its deploy, edit and remove handlers. Ids come from `Math.random` and
    times from `new Date()`; both are inputs. */
module AgentManagementPage {
  import opened Wrappers
  import opened Lists

  datatype AgentStatus = Active | Inactive

  datatype Agent = Agent(
    id: string,
    name: string,
    status: AgentStatus,
    lastSeen: int,
    version: string,
    ipAddress: Option<string>,
    operatingSystem: Option<string>,
    installedAt: int,
    updatedAt: int)

  /** The form of the deploy and edit dialogs. */
  datatype AgentFormData = AgentFormData(name: string, version: Option<string>)

  /** The agent `handleDeploy` creates: inactive, version 1.0.0, every time set to now. */
  function NewAgent(id: string, data: AgentFormData, now: int): Agent
  {
    Agent(id, data.name, Inactive, now, "1.0.0", None, None, now, now)
  }

  /** One agent after `handleEdit(id, data)`: the named agent takes the new name, the new version when
      one is given and non-empty, and the time of the edit; every other agent is left alone. */
  function EditOne(a: Agent, id: string, data: AgentFormData, now: int): Agent
  {
    if a.id != id then a
    else a.(name := data.name, version := if data.version.Some? && data.version.value != "" then data.version.value else a.version,
            updatedAt := now)
  }

  function Edited(agents: seq<Agent>, id: string, data: AgentFormData, now: int): (r: seq<Agent>)
    ensures |r| == |agents|
    ensures forall i :: 0 <= i < |agents| ==> r[i] == EditOne(agents[i], id, data, now)
  {
    Map((a: Agent) => EditOne(a, id, data, now), agents)
  }

  function Removed(agents: seq<Agent>, id: string): (r: seq<Agent>)
    ensures forall a :: a in r <==> a in agents && a.id != id
    ensures IsSubsequence(r, agents)
  {
    Filter((a: Agent) => a.id != id, agents)
  }

  /** An edit keeps every agent's id, status and install time, so the list stays in the same order
      and the same agents are listed; only the named agents change, and an empty version keeps the old
      one. */
  lemma EditLaws(agents: seq<Agent>, id: string, data: AgentFormData, now: int, i: nat)
    requires i < |agents|
    ensures var r := Edited(agents, id, data, now)[i];
      && r.id == agents[i].id && r.status == agents[i].status && r.installedAt == agents[i].installedAt
      && (agents[i].id != id ==> r == agents[i])
      && (agents[i].id == id ==> r.name == data.name && r.updatedAt == now)
      && (agents[i].id == id && (data.version.None? || data.version == Some("")) ==> r.version == agents[i].version)
      && (agents[i].id == id && data.version.Some? && data.version.value != "" ==> r.version == data.version.value)
  {
  }

  /** Removing an unknown id changes nothing, and removing twice is removing once. */
  lemma RemoveLaws(agents: seq<Agent>, id: string)
    ensures (forall a :: a in agents ==> a.id != id) ==> Removed(agents, id) == agents
    ensures Removed(Removed(agents, id), id) == Removed(agents, id)
  {
    if forall a :: a in agents ==> a.id != id {
      FilterAll((a: Agent) => a.id != id, agents);
    }
    FilterIdempotent((a: Agent) => a.id != id, agents);
  }

  /** Midnight UTC of the sample agents' dates, in milliseconds since the epoch. */
  const Jan1st2023: int := 1672531200000
  const Feb15th2023: int := 1676419200000
  const Nov15th2023: int := 1700006400000
  const Nov30th2023: int := 1701302400000
  const Dec1st2023: int := 1701388800000

  /** The page's sample agents: the production server, seen now, and the development server, seen last
      on 30 November 2023. */
  function MockAgents(now: int): seq<Agent>
  {
    [ Agent("1", "Production Server 1", Active, now, "1.0.0", Some("192.168.1.100"), Some("Ubuntu 22.04"),
            Jan1st2023, Dec1st2023),
      Agent("2", "Development Server", Inactive, Nov30th2023, "0.9.0", Some("192.168.1.101"),
            Some("Windows Server 2022"), Feb15th2023, Nov15th2023) ]
  }

  /** The samples have distinct ids, exactly one is active, each was updated after it was installed,
      and removing one sample leaves exactly the other. */
  lemma MockAgentsLaws(now: int)
    ensures var m := MockAgents(now);
      |m| == 2 && m[0].id != m[1].id
      && (forall a :: a in m ==> a.installedAt < a.updatedAt)
      && |Filter((a: Agent) => a.status == Active, m)| == 1
      && Removed(m, "1") == [m[1]] && Removed(m, "2") == [m[0]]
  {
    var m := MockAgents(now);
    assert m[1..][1..] == [];
    assert Filter((a: Agent) => a.status == Active, m) == [m[0]];
    assert Removed(m, "1") == [m[1]];
    assert Filter((a: Agent) => a.id != "2", m[1..]) == [];
    assert Removed(m, "2") == [m[0]];
  }

  class AgentManagementPage {
    var agents: seq<Agent>
    var deployModalOpen: bool
    var editModalOpen: bool
    var selectedAgent: Option<Agent>
    var error: Option<string>

    /** The page opens, at time `now`, on the two sample agents, with no dialog, no selection and no
        error. */
    constructor(now: int)
      ensures agents == MockAgents(now) && !deployModalOpen && !editModalOpen && selectedAgent.None? && error.None?
    {
      agents, deployModalOpen, editModalOpen, selectedAgent, error := MockAgents(now), false, false, None, None;
    }

    /** `handleDeploy`: the new agent goes last, the dialog closes and the error clears. */
    method HandleDeploy(data: AgentFormData, newId: string, now: int)
      modifies this`agents, this`deployModalOpen, this`error
      ensures agents == old(agents) + [NewAgent(newId, data, now)]
      ensures !deployModalOpen && error.None?
    {
      agents := agents + [NewAgent(newId, data, now)];
      deployModalOpen, error := false, None;
    }

    /** `handleEdit`: the edit is applied, the dialog closes, the selection and the error clear. */
    method HandleEdit(id: string, data: AgentFormData, now: int)
      modifies this`agents, this`editModalOpen, this`selectedAgent, this`error
      ensures agents == Edited(old(agents), id, data, now)
      ensures !editModalOpen && selectedAgent.None? && error.None?
    {
      agents := Edited(agents, id, data, now);
      editModalOpen, selectedAgent, error := false, None, None;
    }

    /** `handleRemove`: every agent with the id goes and the error clears. */
    method HandleRemove(id: string)
      modifies this`agents, this`error
      ensures agents == Removed(old(agents), id) && error.None?
    {
      agents := Removed(agents, id);
      error := None;
    }

    /** `handleEditClick`: the clicked agent is selected and the edit dialog opens. */
    method HandleEditClick(agent: Agent)
      modifies this`selectedAgent, this`editModalOpen
      ensures selectedAgent == Some(agent) && editModalOpen
    {
      selectedAgent, editModalOpen := Some(agent), true;
    }
  }
}
