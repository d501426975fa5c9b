/** The compose-provider flags of cmd/docker-agentic/flags.go: the names of the
    agents container, the UI container and the network. */
module AgenticFlags {
  import Strs

  const AgentsContainerPrefix := "agents"
  const UiContainerPrefix := "ui"

  datatype Flags = Flags(project: string, network: string, apiPort: string, uiPort: string,
                         config: string, openAIAPIKey: string)
  {
    function AgentsContainerName(providerName: string): (r: string)
      ensures Strs.HasPrefix(r, project + "-agents-") && Strs.HasSuffix(r, "-" + network)
    {
      project + "-" + AgentsContainerPrefix + "-" + providerName + "-" + network
    }

    function UIContainerName(providerName: string): (r: string)
      ensures Strs.HasPrefix(r, project + "-ui-") && Strs.HasSuffix(r, "-" + network)
    {
      project + "-" + UiContainerPrefix + "-" + providerName + "-" + network
    }

    function NetworkName(): (r: string)
      ensures Strs.HasPrefix(r, project + "_") && Strs.HasSuffix(r, network)
    {
      project + "_" + network
    }
  }

  /** An agents container and a UI container never share a name, whatever the
      flags and providers: the two differ right after the project name and its
      dash. */
  lemma ContainersDiffer(f: Flags, p: string, q: string)
    ensures f.AgentsContainerName(p) != f.UIContainerName(q)
  {
    var k := |f.project| + 1;
    assert f.AgentsContainerName(p)[k] == 'a';
    assert f.UIContainerName(q)[k] == 'u';
  }
}
