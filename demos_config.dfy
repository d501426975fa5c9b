/** The agent configuration of the demos agent kit
    (demos/a2a/src/AgentKit/agent/config.py): its defaults and its
    `agent_id`, which lowercases the name with spaces made underscores. */
module DemosConfig {
  import opened Wrappers
  import opened Strs
  import A2aConfig

  /** The model an agent runs; the provider is optional. */
  datatype ModelSpec = ModelSpec(name: string, provider: Option<string>)

  /** A model given by name or by specification; here it is required. */
  datatype Model = ModelName(name: string) | Spec(spec: ModelSpec)

  /** The skills are required too, though they may be `None`. */
  datatype AgentConfig = AgentConfig(
    name: string,
    id: Option<string>,
    description: Option<string>,
    instructions: Option<string>,
    model: Model,
    skills: Option<seq<A2aConfig.AgentSkill>>,
    tools: Option<seq<string>>)

  /** A `ModelSpec` given only its name. */
  function NewModelSpec(name: string): (r: ModelSpec)
    ensures r.name == name && r.provider.None?
  {
    ModelSpec(name, None)
  }

  /** An `AgentConfig` given its required fields. */
  function NewAgentConfig(name: string, model: Model, skills: Option<seq<A2aConfig.AgentSkill>>): (r: AgentConfig)
    ensures r.name == name && r.model == model && r.skills == skills
    ensures r.id.None? && r.description.None? && r.instructions.None? && r.tools.None?
  {
    AgentConfig(name, None, None, None, model, skills, None)
  }

  /** `agent_id`: the configured id when it is set and non-empty, else the
      name with each space made `_` and then lowercased, which has the
      name's length and no space. */
  function AgentIdOf(config: AgentConfig): (r: string)
    ensures A2aConfig.Truthy(config.id) ==> r == config.id.value
    ensures !A2aConfig.Truthy(config.id) ==>
      |r| == |config.name| && ' ' !in r &&
      forall i :: 0 <= i < |r| ==> r[i] == (if config.name[i] == ' ' then '_' else LowerChar(config.name[i]))
  {
    if A2aConfig.Truthy(config.id) then config.id.value
    else
      var r := Lower(ReplaceChar(config.name, ' ', '_'));
      assert forall i :: 0 <= i < |r| ==> r[i] != ' ';
      r
  }

  /** Only spaces and capitals change: other punctuation and whitespace is
      kept where it was. */
  lemma OnlySpacesReplaced(config: AgentConfig, i: nat)
    requires !A2aConfig.Truthy(config.id) && i < |config.name|
    requires config.name[i] != ' ' && !('A' <= config.name[i] <= 'Z')
    ensures AgentIdOf(config)[i] == config.name[i]
  {
  }
}
