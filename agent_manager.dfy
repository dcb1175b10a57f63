/**
 * The agent registry (src/agent_manager.py): a map from agent id to agent,
 * fixed at construction, with lookup and delegation. An unknown id yields an
 * error reply and invokes no agent.
 */
module AgentRegistry {
  import opened Values
  import opened Agents

  const OutlineAgentId := "outline_agent"
  const ChapterAgentId := "chapter_agent"
  /** The id the workflow addresses character tasks to; nothing is registered under it. */
  const CharacterAgentId := "character_agent"

  datatype AgentManager = AgentManager(agents: map<string, Agent>)

  /** The registry every manager is built with. */
  function NewAgentManager(): (m: AgentManager)
    ensures m.agents.Keys == {OutlineAgentId, ChapterAgentId}
    ensures m.agents[OutlineAgentId] == OutlineAgent(DefaultOutlineAgentName)
    ensures m.agents[ChapterAgentId] == ChapterAgent(DefaultChapterAgentName)
    ensures CharacterAgentId !in m.agents
  {
    AgentManager(map[OutlineAgentId := OutlineAgent(DefaultOutlineAgentName),
                     ChapterAgentId := ChapterAgent(DefaultChapterAgentName)])
  }

  function GetAgent(m: AgentManager, agentName: string): (a: Option<Agent>)
    ensures a.Some? <==> agentName in m.agents
    ensures a.Some? ==> a.value == m.agents[agentName]
  {
    if agentName in m.agents then Some(m.agents[agentName]) else None
  }

  function NotFound(agentName: string): (r: Reply)
    ensures r.Error? && r.message == "Agent " + agentName + " not found."
  {
    Error("Agent " + agentName + " not found.")
  }

  function DispatchTask(m: AgentManager, agentName: string, task: Task): (r: Outcome<Reply>)
    ensures agentName !in m.agents ==> r == Returned(NotFound(agentName))
    ensures agentName in m.agents ==> r == ExecuteTask(m.agents[agentName], task)
  {
    match GetAgent(m, agentName)
    case Some(agent) => ExecuteTask(agent, task)
    case None => Returned(NotFound(agentName))
  }

  function SendMessage(m: AgentManager, agentName: string, message: map<string, Value>): (r: Outcome<Reply>)
    ensures agentName !in m.agents ==> r == Returned(NotFound(agentName))
    ensures agentName in m.agents ==> r == Communicate(m.agents[agentName], message)
  {
    match GetAgent(m, agentName)
    case Some(agent) => Communicate(agent, message)
    case None => Returned(NotFound(agentName))
  }

  /**
   * With the shipped registry, a task addressed to a registered id that carries a
   * description always completes, and an id outside the registry is an error
   * reply whatever the task.
   */
  lemma DispatchOutcomes(agentName: string, task: Task)
    ensures var r := DispatchTask(NewAgentManager(), agentName, task);
      && (agentName in {OutlineAgentId, ChapterAgentId} && Description(task).Some? ==> r.Returned? && r.value.Completed?)
      && (agentName in {OutlineAgentId, ChapterAgentId} && Description(task).None? ==> r == Raised(MissingDescription))
      && (agentName !in {OutlineAgentId, ChapterAgentId} ==> r.Returned? && r.value.Error?)
  {
  }

  /** A character task is never handled: the registry has no character agent. */
  lemma CharacterTasksNotFound(task: Task)
    ensures DispatchTask(NewAgentManager(), CharacterAgentId, task) == Returned(NotFound(CharacterAgentId))
  {
  }
}
