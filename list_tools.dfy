/** Tool aggregation of the agents gateway (cmd/agents_gateway/server/list_tools.go):
    the allow-list test `isToolEnabled` and `listTools`, the concurrent collection
    of every enabled tool, modelled as a sequential fold over the server names. */
module ListTools {
  import opened Wrappers
  import opened Strs
  import opened Catalog

  // --------------------------------------------------------- isToolEnabled

  /** The entries honoured for every tool: `tool`, `server:tool`, `server:*`, `*`. */
  predicate MatchesName(entry: string, serverName: string, toolName: string) {
    EqualFold(entry, toolName) || EqualFold(entry, serverName + ":" + toolName) ||
    EqualFold(entry, serverName + ":*") || EqualFold(entry, "*")
  }

  /** The entries honoured only for a server with an image: `image:tool`, `image:*`. */
  predicate MatchesImage(entry: string, image: string, toolName: string) {
    EqualFold(entry, image + ":" + toolName) || EqualFold(entry, image + ":*")
  }

  /** The first loop of `isToolEnabled`. */
  function AnyNameMatch(entries: seq<string>, serverName: string, toolName: string): (r: bool)
    ensures r <==> exists i :: 0 <= i < |entries| && MatchesName(entries[i], serverName, toolName)
    decreases |entries|
  {
    if |entries| == 0 then false
    else MatchesName(entries[0], serverName, toolName) || AnyNameMatch(entries[1..], serverName, toolName)
  }

  /** The second loop of `isToolEnabled`. */
  function AnyImageMatch(entries: seq<string>, image: string, toolName: string): (r: bool)
    ensures r <==> exists i :: 0 <= i < |entries| && MatchesImage(entries[i], image, toolName)
    decreases |entries|
  {
    if |entries| == 0 then false
    else MatchesImage(entries[0], image, toolName) || AnyImageMatch(entries[1..], image, toolName)
  }

  /** `isToolEnabled`: an empty allow-list enables everything; otherwise some entry
      must name the tool, and image entries count only for a non-empty image. */
  function IsToolEnabled(serverName: string, image: string, toolName: string, enabled: seq<string>): (r: bool)
    ensures r <==>
      |enabled| == 0 ||
      (exists i :: 0 <= i < |enabled| && MatchesName(enabled[i], serverName, toolName)) ||
      (image != "" && exists i :: 0 <= i < |enabled| && MatchesImage(enabled[i], image, toolName))
  {
    if |enabled| == 0 then true
    else if AnyNameMatch(enabled, serverName, toolName) then true
    else if image != "" && AnyImageMatch(enabled, image, toolName) then true
    else false
  }

  /** Tool groups pass no image, so `image:` entries never enable their tools. */
  lemma GroupsIgnoreImageEntries(serverName: string, toolName: string, enabled: seq<string>)
    ensures IsToolEnabled(serverName, "", toolName, enabled) <==>
      |enabled| == 0 || exists i :: 0 <= i < |enabled| && MatchesName(enabled[i], serverName, toolName)
  {
  }

  /** Case does not matter in an allow-list entry. */
  lemma EntryCaseInsensitive(serverName: string, image: string, toolName: string, entry: string)
    requires EqualFold(entry, toolName)
    ensures IsToolEnabled(serverName, image, toolName, [entry])
  {
    assert MatchesName([entry][0], serverName, toolName);
  }

  /** The allow-list `[""]` (the default of an empty `--tools` flag) enables no
      tool whose name is not empty. */
  lemma EmptyEntryEnablesNothing(serverName: string, image: string, toolName: string)
    requires toolName != ""
    ensures !IsToolEnabled(serverName, image, toolName, [""])
  {
    var e := [""][0];
    assert |Lower(e)| == 0;
    assert |Lower(toolName)| > 0;
    assert |Lower(serverName + ":" + toolName)| > 0;
    assert |Lower(serverName + ":*")| > 0;
    assert |Lower("*")| > 0;
    assert |Lower(image + ":" + toolName)| > 0;
    assert |Lower(image + ":*")| > 0;
    assert !MatchesName(e, serverName, toolName);
    assert !MatchesImage(e, image, toolName);
  }

  // ------------------------------------------------------------ listTools

  /** The MCP tool record served to clients. */
  datatype InputSchema = InputSchema(typ: string, properties: map<string, Property>, required: seq<string>)
  datatype McpTool = McpTool(name: string, description: string, inputSchema: InputSchema)

  /** What answers a call: a catalog server's own tool, or a tool-group container. */
  datatype Handler = ServerHandler(server: Server, toolName: string) | ContainerHandler(tool: Tool)
  datatype ServerTool = ServerTool(tool: McpTool, handler: Handler)

  /** The backend of a catalog server, as seen by the worker: whether its client
      starts (or the start error), and what listing its tools returns. */
  datatype Backend = Backend(start: Server -> Option<string>, list: Server -> Result<seq<McpTool>>)

  /** The MCP tool a tool-group entry is served as. */
  function GroupTool(t: Tool): (r: McpTool)
    ensures r.name == t.name && r.description == t.description
    ensures |t.parameters.properties| == 0 ==> r.inputSchema == InputSchema("object", map[], [])
    ensures |t.parameters.properties| > 0 ==>
      r.inputSchema == InputSchema(t.parameters.typ, t.parameters.properties, t.parameters.required)
  {
    var schema := if |t.parameters.properties| > 0
      then InputSchema(t.parameters.typ, t.parameters.properties, t.parameters.required)
      else InputSchema("object", map[], []);
    McpTool(t.name, t.description, schema)
  }

  /** The tools one server name contributes. */
  ghost function Contribution(c: Catalog, b: Backend, enabled: seq<string>, name: string): set<ServerTool> {
    var f := Find(c, name);
    if f.server.Some? then
      var s := f.server.value;
      if b.start(s).Some? || b.list(s).Err? then {} else ServerPart(s, name, enabled, b.list(s).value)
    else if f.tools.Some? then GroupPart(f.tools.value, f.tools.value.Keys, name, enabled)
    else {}
  }

  ghost function Expected(c: Catalog, b: Backend, enabled: seq<string>, names: seq<string>): set<ServerTool>
    decreases |names|
  {
    if |names| == 0 then {}
    else Expected(c, b, enabled, names[..|names| - 1]) + Contribution(c, b, enabled, names[|names| - 1])
  }

  /** A name that is neither a server nor a tool group contributes nothing. */
  lemma UnknownContributesNothing(c: Catalog, b: Backend, enabled: seq<string>, name: string)
    requires name !in c.servers && name !in c.tools
    ensures Contribution(c, b, enabled, name) == {}
  {
  }

  /** A server whose client fails to start or to list contributes nothing. */
  lemma FailingServerContributesNothing(c: Catalog, b: Backend, enabled: seq<string>, name: string)
    requires name in c.servers
    requires b.start(c.servers[name]).Some? || b.list(c.servers[name]).Err?
    ensures Contribution(c, b, enabled, name) == {}
  {
  }

  /** The image the allow-list test is given for a name: a server's image, or none. */
  function ImageOf(c: Catalog, name: string): string {
    if name in c.servers then c.servers[name].image else ""
  }

  /** Every collected tool is enabled by the allow-list for the name it came from. */
  lemma {:induction false} ExpectedOnlyEnabled(c: Catalog, b: Backend, enabled: seq<string>, names: seq<string>, st: ServerTool)
    requires st in Expected(c, b, enabled, names)
    ensures exists i :: 0 <= i < |names| && IsToolEnabled(names[i], ImageOf(c, names[i]), st.tool.name, enabled)
    decreases |names|
  {
    var last := names[|names| - 1];
    var init := names[..|names| - 1];
    if st in Expected(c, b, enabled, init) {
      ExpectedOnlyEnabled(c, b, enabled, init, st);
      var i :| 0 <= i < |init| && IsToolEnabled(init[i], ImageOf(c, init[i]), st.tool.name, enabled);
      assert names[i] == init[i];
    } else {
      assert st in Contribution(c, b, enabled, last);
      assert names[|names| - 1] == last;
    }
  }

  /** `listTools`: visits every name; a server's worker lists the backend's tools
      and keeps the enabled ones; a tool group's enabled tools are served through
      containers; unknown names and failing servers add nothing, and the returned
      error is always nil. */
  method ListTools(c: Catalog, b: Backend, enabled: seq<string>, serverNames: seq<string>)
    returns (serverTools: seq<ServerTool>, err: Option<string>)
    ensures (set st | st in serverTools) == Expected(c, b, enabled, serverNames)
    ensures err.None?
  {
    serverTools := [];
    var i := 0;
    while i < |serverNames|
      invariant 0 <= i <= |serverNames|
      invariant (set st | st in serverTools) == Expected(c, b, enabled, serverNames[..i])
    {
      var name := serverNames[i];
      assert serverNames[..i + 1][..i] == serverNames[..i];
      ghost var before := serverTools;
      var f := Find(c, name);
      if f.server.Some? {
        serverTools := ServerWorker(b, f.server.value, name, enabled, serverTools);
      } else if f.tools.Some? {
        serverTools := GroupTools(f.tools.value, name, enabled, serverTools);
      }
      assert (set st | st in serverTools) == (set st | st in before) + Contribution(c, b, enabled, name);
      i := i + 1;
    }
    assert serverNames[..i] == serverNames;
    return serverTools, None;
  }

  /** The worker for one catalog server. */
  method ServerWorker(b: Backend, s: Server, name: string, enabled: seq<string>, acc: seq<ServerTool>)
    returns (r: seq<ServerTool>)
    ensures (set st | st in r) == (set st | st in acc) +
      (if b.start(s).Some? || b.list(s).Err? then {} else ServerPart(s, name, enabled, b.list(s).value))
  {
    r := acc;
    if b.start(s).Some? {
      return;
    }
    var listed := b.list(s);
    if listed.Err? {
      return;
    }
    var tools := listed.value;
    var j := 0;
    while j < |tools|
      invariant 0 <= j <= |tools|
      invariant (set st | st in r) == (set st | st in acc) + ServerPart(s, name, enabled, tools[..j])
    {
      var t := tools[j];
      ghost var before := r;
      assert tools[..j + 1] == tools[..j] + [t];
      ServerPartSnoc(s, name, enabled, tools[..j], t);
      if IsToolEnabled(name, s.image, t.name, enabled) {
        r := r + [ServerTool(t, ServerHandler(s, t.name))];
        SetOfSnoc(before, ServerTool(t, ServerHandler(s, t.name)));
      }
      j := j + 1;
    }
    assert tools[..j] == tools;
  }

  /** The tools a started server contributes out of its listed tools. */
  ghost function ServerPart(s: Server, name: string, enabled: seq<string>, tools: seq<McpTool>): set<ServerTool> {
    set t | t in tools && IsToolEnabled(name, s.image, t.name, enabled) :: ServerTool(t, ServerHandler(s, t.name))
  }

  lemma ServerPartSnoc(s: Server, name: string, enabled: seq<string>, tools: seq<McpTool>, t: McpTool)
    ensures ServerPart(s, name, enabled, tools + [t]) == ServerPart(s, name, enabled, tools) +
      (if IsToolEnabled(name, s.image, t.name, enabled) then {ServerTool(t, ServerHandler(s, t.name))} else {})
  {
  }

  /** The tools a tool group contributes out of some of its keys. */
  ghost function GroupPart(tools: map<string, Tool>, keys: set<string>, name: string, enabled: seq<string>): set<ServerTool>
    requires keys <= tools.Keys
  {
    set k | k in keys && IsToolEnabled(name, "", tools[k].name, enabled)
      :: ServerTool(GroupTool(tools[k]), ContainerHandler(tools[k]))
  }

  lemma GroupPartAdd(tools: map<string, Tool>, keys: set<string>, name: string, enabled: seq<string>, k: string)
    requires keys <= tools.Keys && k in tools
    ensures GroupPart(tools, keys + {k}, name, enabled) == GroupPart(tools, keys, name, enabled) +
      (if IsToolEnabled(name, "", tools[k].name, enabled)
       then {ServerTool(GroupTool(tools[k]), ContainerHandler(tools[k]))} else {})
  {
  }

  lemma SetOfSnoc(xs: seq<ServerTool>, x: ServerTool)
    ensures (set st | st in xs + [x]) == (set st | st in xs) + {x}
  {
  }

  /** The loop over a tool group, in map iteration order. */
  method GroupTools(tools: map<string, Tool>, name: string, enabled: seq<string>, acc: seq<ServerTool>)
    returns (r: seq<ServerTool>)
    ensures (set st | st in r) == (set st | st in acc) + GroupPart(tools, tools.Keys, name, enabled)
  {
    r := acc;
    var remaining := tools.Keys;
    while remaining != {}
      invariant remaining <= tools.Keys
      invariant (set st | st in r) == (set st | st in acc) + GroupPart(tools, tools.Keys - remaining, name, enabled)
      decreases remaining
    {
      var k :| k in remaining;
      var t := tools[k];
      ghost var before := r;
      GroupPartAdd(tools, tools.Keys - remaining, name, enabled, k);
      assert tools.Keys - (remaining - {k}) == (tools.Keys - remaining) + {k};
      if IsToolEnabled(name, "", t.name, enabled) {
        r := r + [ServerTool(GroupTool(t), ContainerHandler(t))];
        SetOfSnoc(before, ServerTool(GroupTool(t), ContainerHandler(t)));
      }
      remaining := remaining - {k};
    }
    assert tools.Keys - remaining == tools.Keys;
  }
}
