/** The agent configuration of the a2a agent kit
    (a2a/src/AgentKit/agent/config.py): its defaults and its `agent_id`. */
module A2aConfig {
  import opened Wrappers
  import opened AgentIds

  datatype AgentType = Llm | Sequential

  /** The model an agent runs; the provider is optional. */
  datatype ModelSpec = ModelSpec(name: string, provider: Option<string>)

  /** A model given by name or by specification. */
  datatype Model = ModelName(name: string) | Spec(spec: ModelSpec)

  /** An `AgentSkill` of the a2a types, whose fields are not read here. */
  datatype AgentSkill = AgentSkill(id: string)

  datatype AgentConfig = AgentConfig(
    name: string,
    id: Option<string>,
    agentType: Option<AgentType>,
    description: Option<string>,
    instructions: Option<string>,
    model: Option<Model>,
    skills: Option<seq<AgentSkill>>,
    tools: Option<seq<string>>,
    subAgents: Option<seq<string>>)

  /** A `ModelSpec` given only its name. */
  function NewModelSpec(name: string): (r: ModelSpec)
    ensures r.name == name && r.provider.None?
  {
    ModelSpec(name, None)
  }

  /** An `AgentConfig` given only its name: an LLM agent with nothing else set. */
  function NewAgentConfig(name: string): (r: AgentConfig)
    ensures r.name == name && r.id.None? && r.agentType == Some(Llm)
    ensures r.description.None? && r.instructions.None? && r.model.None?
    ensures r.skills.None? && r.tools.None? && r.subAgents.None?
  {
    AgentConfig(name, None, Some(Llm), None, None, None, None, None, None)
  }

  /** A Python string that is neither `None` nor empty. */
  predicate Truthy(s: Option<string>) {
    s.Some? && s.value != ""
  }

  /** `agent_id`: the configured id when it is set and non-empty, else the
      id derived from the name, which holds only word characters and is no
      longer than the name. */
  function AgentIdOf(config: AgentConfig, uni: UnicodeWord): (r: string)
    ensures Truthy(config.id) ==> r == config.id.value
    ensures !Truthy(config.id) ==> r == AgentId(config.name, uni) && AllWord(r, uni) && |r| <= |config.name|
  {
    if Truthy(config.id) then config.id.value
    else
      OnlyWords(config.name, uni);
      AgentId(config.name, uni)
  }

  /** An empty id counts as none, and a fresh configuration takes its id
      from its name. */
  lemma EmptyIdIgnored(config: AgentConfig, uni: UnicodeWord)
    ensures AgentIdOf(config.(id := Some("")), uni) == AgentIdOf(config.(id := None), uni)
    ensures AgentIdOf(NewAgentConfig(config.name), uni) == AgentId(config.name, uni)
  {
  }
}
