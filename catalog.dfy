/** The catalog of pkg/catalog: its data model (types.go), the name lookup
    (find.go), the index building of `Get` (catalog.go) and the key/value decoding
    of a schema's properties (`SchemaList.UnmarshalYAML`).  YAML decoding itself
    is replaced by its already-decoded outcome. */
module Catalog {
  import opened Wrappers
  import opened Values
  import opened ByName

  datatype Secret = Secret(id: string, name: string, value: string, required: Option<bool>)
  datatype EnvVar = EnvVar(name: string, default: Value, expression: string)
  datatype AnyOf = AnyOf(required: seq<string>)
  datatype Items = Items(typ: string)
  datatype Schema = Schema(
    typ: string, description: string, properties: seq<SchemaEntry>, required: seq<string>,
    items: Items, anyOf: seq<AnyOf>, default: Value)
  datatype SchemaEntry = SchemaEntry(schema: Schema, name: string)
  datatype Run = Run(workdir: string, command: seq<string>, volumes: seq<string>, env: map<string, string>)
  datatype ServerConfig = ServerConfig(
    description: string, secrets: seq<Secret>, env: seq<EnvVar>, parameters: Schema, anyOf: seq<AnyOf>)
  datatype Server = Server(name: string, image: string, run: Run, config: ServerConfig)

  datatype Property = Property(typ: string, description: string)
  /** `required` is read by list_tools.go; the types.go shown here has no such
      field, so the model adds it next to the properties. */
  datatype Parameters = Parameters(typ: string, properties: map<string, Property>, required: seq<string>)
  datatype Container = Container(image: string, command: seq<string>, volumes: seq<string>)
  datatype Tool = Tool(name: string, description: string, container: Container, parameters: Parameters)
  datatype ToolGroup = ToolGroup(name: string, tools: seq<Tool>)

  datatype Catalog = Catalog(servers: map<string, Server>, tools: map<string, map<string, Tool>>)

  function ServerName(s: Server): string { s.name }
  function ToolName(t: Tool): string { t.name }
  function GroupName(g: ToolGroup): string { g.name }

  // ------------------------------------------------------------- Find

  /** The outcome of `Find`: a server, a tool group, or nothing. */
  datatype Found = Found(server: Option<Server>, tools: Option<map<string, Tool>>, found: bool)

  /** `Catalog.Find`: servers are consulted first, then tool groups. */
  function Find(c: Catalog, name: string): (r: Found)
    ensures r.server.Some? <==> name in c.servers
    ensures r.server.Some? ==> r.server.value == c.servers[name] && r.tools.None?
    ensures r.tools.Some? <==> name !in c.servers && name in c.tools
    ensures r.tools.Some? ==> r.tools.value == c.tools[name]
    ensures r.found <==> name in c.servers || name in c.tools
    ensures r.found <==> (r.server.Some? != r.tools.Some?)
  {
    if name in c.servers then Found(Some(c.servers[name]), None, true)
    else if name in c.tools then Found(None, Some(c.tools[name]), true)
    else Found(None, None, false)
  }

  // -------------------------------------------------------------- Get

  /** The tool-group index: each group gets a fresh map of its tools by name. */
  function GroupTools(groups: seq<ToolGroup>): map<string, map<string, Tool>>
    decreases |groups|
  {
    if |groups| == 0 then map[]
    else
      var g := groups[|groups| - 1];
      GroupTools(groups[..|groups| - 1])[g.name := IndexBy(g.tools, ToolName)]
  }

  /** A repeated group name replaces the earlier group instead of merging with it:
      the tools under a name are exactly those of the last group with that name. */
  lemma {:induction false} GroupToolsReplace(groups: seq<ToolGroup>)
    ensures GroupTools(groups).Keys == IndexBy(groups, GroupName).Keys
    ensures forall k :: k in GroupTools(groups) ==>
      GroupTools(groups)[k] == IndexBy(IndexBy(groups, GroupName)[k].tools, ToolName)
    decreases |groups|
  {
    if |groups| > 0 {
      GroupToolsReplace(groups[..|groups| - 1]);
    }
  }

  const EmptyCatalog := Catalog(map[], map[])

  /** `Get` on the decoded server and tool-group lists. */
  method Get(servers: Result<seq<Server>>, groups: Result<seq<ToolGroup>>)
    returns (c: Catalog, err: Option<string>)
    ensures servers.Err? ==>
      c == EmptyCatalog && err == Some("reading servers catalog: " + servers.error)
    ensures servers.Ok? && groups.Err? ==>
      c == EmptyCatalog && err == Some("reading tools catalog: " + groups.error)
    ensures servers.Ok? && groups.Ok? ==>
      err.None? && c.servers == IndexBy(servers.value, ServerName) &&
      c.tools == GroupTools(groups.value)
  {
    if servers.Err? {
      return EmptyCatalog, Some("reading servers catalog: " + servers.error);
    }
    var serversByName := IndexServers(servers.value);
    if groups.Err? {
      return EmptyCatalog, Some("reading tools catalog: " + groups.error);
    }
    var toolsByName := IndexGroups(groups.value);
    return Catalog(serversByName, toolsByName), None;
  }

  /** The server loop of `Get`: a later server replaces an earlier one of the
      same name. */
  method IndexServers(list: seq<Server>) returns (serversByName: map<string, Server>)
    ensures serversByName == IndexBy(list, ServerName)
  {
    serversByName := map[];
    var i := 0;
    while i < |list|
      invariant 0 <= i <= |list|
      invariant serversByName == IndexBy(list[..i], ServerName)
    {
      assert list[..i + 1][..i] == list[..i];
      serversByName := serversByName[list[i].name := list[i]];
      i := i + 1;
    }
    assert list[..i] == list;
  }

  /** The tool-group loop of `Get`: each group starts a fresh map under its
      name and fills it tool by tool. */
  method IndexGroups(gs: seq<ToolGroup>) returns (toolsByName: map<string, map<string, Tool>>)
    ensures toolsByName == GroupTools(gs)
  {
    toolsByName := map[];
    var k := 0;
    while k < |gs|
      invariant 0 <= k <= |gs|
      invariant toolsByName == GroupTools(gs[..k])
    {
      var g := gs[k];
      assert gs[..k + 1][..k] == gs[..k];
      ghost var before := toolsByName;
      toolsByName := toolsByName[g.name := map[]];
      var j := 0;
      while j < |g.tools|
        invariant 0 <= j <= |g.tools|
        invariant toolsByName == before[g.name := IndexBy(g.tools[..j], ToolName)]
      {
        assert g.tools[..j + 1][..j] == g.tools[..j];
        var t := g.tools[j];
        toolsByName := toolsByName[g.name := toolsByName[g.name][t.name := t]];
        j := j + 1;
      }
      assert g.tools[..j] == g.tools;
      k := k + 1;
    }
    assert gs[..k] == gs;
  }

  // ---------------------------------------------------- UnmarshalYAML

  /** A YAML node, given by what it decodes to as a name and as a schema. */
  datatype YamlNode = YamlNode(asName: Result<string>, asSchema: Result<Schema>)

  /** What decoding alternating key/value nodes yields: the entries of the pairs
      before the first failing decode, and that decode's error. */
  function DecodePairs(content: seq<YamlNode>): (r: (seq<SchemaEntry>, Option<string>))
    requires |content| % 2 == 0
    decreases |content|
  {
    if |content| == 0 then ([], None)
    else if content[0].asName.Err? then ([], Some(content[0].asName.error))
    else if content[1].asSchema.Err? then ([], Some(content[1].asSchema.error))
    else
      var rest := DecodePairs(content[2..]);
      ([SchemaEntry(content[1].asSchema.value, content[0].asName.value)] + rest.0, rest.1)
  }

  /** The pair `p` of `content` decoded as an entry. */
  predicate PairDecodes(content: seq<YamlNode>, p: nat)
    requires 2 * p + 1 < |content|
  {
    content[2 * p].asName.Ok? && content[2 * p + 1].asSchema.Ok?
  }

  /** The added entries are the decoded pairs in document order, each named by its
      key node; on success there is one per pair, on failure the error is the first
      failing decode and every earlier pair decoded. */
  lemma {:induction false} DecodePairsShape(content: seq<YamlNode>)
    requires |content| % 2 == 0
    ensures var (added, err) := DecodePairs(content);
      |added| <= |content| / 2 &&
      (err.None? <==> |added| == |content| / 2) &&
      (forall p :: 0 <= p < |added| ==>
         (PairDecodes(content, p) &&
          added[p] == SchemaEntry(content[2 * p + 1].asSchema.value, content[2 * p].asName.value))) &&
      (err.Some? ==>
         (!PairDecodes(content, |added|) &&
          err == Some(if content[2 * |added|].asName.Err? then content[2 * |added|].asName.error
                      else content[2 * |added| + 1].asSchema.error)))
    decreases |content|
  {
    if |content| > 0 && content[0].asName.Ok? && content[1].asSchema.Ok? {
      var tail := content[2..];
      DecodePairsShape(tail);
      var (added, err) := DecodePairs(content);
      var rest := DecodePairs(tail);
      assert added == [SchemaEntry(content[1].asSchema.value, content[0].asName.value)] + rest.0;
      forall p | 1 <= p < |added|
        ensures PairDecodes(content, p) &&
          added[p] == SchemaEntry(content[2 * p + 1].asSchema.value, content[2 * p].asName.value)
      {
        assert added[p] == rest.0[p - 1];
        assert tail[2 * (p - 1)] == content[2 * p] && tail[2 * (p - 1) + 1] == content[2 * p + 1];
      }
      if err.Some? {
        assert tail[2 * |rest.0|] == content[2 * |added|];
        assert tail[2 * |rest.0| + 1] == content[2 * |added| + 1];
      }
    }
  }

  /** The `properties` list a schema decodes into. */
  class SchemaList {
    var entries: seq<SchemaEntry>

    constructor()
      ensures entries == []
    {
      entries := [];
    }

    /** `UnmarshalYAML`: walks the node's content two nodes at a time, appending
        one entry per pair and returning the first decode error. */
    method UnmarshalYAML(content: seq<YamlNode>) returns (err: Option<string>)
      requires |content| % 2 == 0
      modifies this
      ensures entries == old(entries) + DecodePairs(content).0
      ensures err == DecodePairs(content).1
    {
      var i := 0;
      while i < |content|
        invariant 0 <= i <= |content| && i % 2 == 0
        invariant entries + DecodePairs(content[i..]).0 == old(entries) + DecodePairs(content).0
        invariant DecodePairs(content[i..]).1 == DecodePairs(content).1
      {
        var keyNode := content[i];
        var valNode := content[i + 1];
        if keyNode.asName.Err? {
          return Some(keyNode.asName.error);
        }
        if valNode.asSchema.Err? {
          return Some(valNode.asSchema.error);
        }
        assert content[i..][2..] == content[i + 2..];
        entries := entries + [SchemaEntry(valNode.asSchema.value, keyNode.asName.value)];
        i := i + 2;
      }
      assert content[i..] == [];
      return None;
    }
  }
}
