/** `create_mcp_toolsets` of the critic agent, in its two versions
    (adk/agents/sub_agents/critic/tools.py and
    demos/adk/agents/sub_agents/critic/tools.py): `mcp/<server>:<tool>` specs
    are grouped by server into one toolset each, all connected to the gateway
    named by `MCPGATEWAY_ENDPOINT`, over SSE for an http(s) endpoint and over
    `socat` otherwise. */
module McpToolsets {
  import opened Wrappers
  import opened Strs

  /** The two versions: `Adk` filters by bare tool names and rejects a URL
      without a host name; `Demos` keeps `server:tool` and does not check. */
  datatype Variant = Adk | Demos

  /** What `urlparse` yields that is read: the host name and the port. */
  datatype Url = Url(hostname: Option<string>, port: Option<int>)

  /** `urlparse`, which is not part of this model. */
  type UrlParse = string -> Url

  /** The socket connection `_tcp_check` opens: the `OSError` text on
      failure, `None` when the gateway answered. */
  type Probe = (Option<string>, int) -> Option<string>

  /** `int(s)`, `None` when it raises. */
  type IntParse = string -> Option<int>

  /** The connection parameters every toolset shares. */
  datatype Connection = Sse(url: string) | Stdio(command: string, args: seq<string>)

  datatype Toolset = Toolset(connection: Connection, toolFilter: seq<string>)

  /** The exceptions the function raises. */
  datatype Failure =
    | ValueError(message: string)
    | KeyError(key: string)
      /** `cannot reach {host}:{port}: {reason}` */
    | RuntimeError(host: Option<string>, port: int, reason: string)

  /** A value, or the exception raised instead. */
  datatype Outcome<T> = Done(value: T) | Raised(failure: Failure)

  /** The tools grouped under one server. */
  datatype Group = Group(server: string, tools: seq<string>)

  const EndpointVar := "MCPGATEWAY_ENDPOINT"

  /** `raw[4:].split(":", 1)` of a spec that starts with `mcp/` and holds a
      `:`; `None` for any other spec. */
  function ParseSpec(raw: string): (r: Option<(string, string)>)
    ensures r.Some? <==> HasPrefix(raw, "mcp/") && ':' in raw
    ensures r.Some? ==> raw == "mcp/" + r.value.0 + ":" + r.value.1 && ':' !in r.value.0
  {
    if HasPrefix(raw, "mcp/") && ':' in raw then
      assert raw == "mcp/" + raw[4..];
      var (server, tool, _) := Cut(raw[4..], ':');
      Some((server, tool))
    else None
  }

  /** The entry a tool adds to its server's filter. */
  function FilterEntry(variant: Variant, server: string, tool: string): string {
    match variant
    case Adk => tool
    case Demos => server + ":" + tool
  }

  /** The specs as (server, filter entry) pairs, or the `ValueError` of the
      first bad one. */
  function ParseAll(cfg: seq<string>, variant: Variant): Outcome<seq<(string, string)>>
    decreases |cfg|
  {
    if |cfg| == 0 then Done([])
    else
      var init := ParseAll(cfg[..|cfg| - 1], variant);
      var raw := cfg[|cfg| - 1];
      if init.Raised? then init
      else match ParseSpec(raw)
        case None => Raised(ValueError("Bad MCP spec: " + raw))
        case Some((server, tool)) => Done(init.value + [(server, FilterEntry(variant, server, tool))])
  }

  /** The first spec that does not parse. */
  ghost predicate FirstBad(cfg: seq<string>, i: nat) {
    i < |cfg| && ParseSpec(cfg[i]).None? && forall j :: 0 <= j < i ==> ParseSpec(cfg[j]).Some?
  }

  /** Parsing fails with the message naming the first bad spec, and otherwise
      yields one pair per spec, in order. */
  lemma ParseAllSpec(cfg: seq<string>, variant: Variant)
    ensures ParseAll(cfg, variant).Raised? ==>
      exists i: nat :: FirstBad(cfg, i) && ParseAll(cfg, variant).failure == ValueError("Bad MCP spec: " + cfg[i])
    ensures ParseAll(cfg, variant).Done? ==>
      |ParseAll(cfg, variant).value| == |cfg| && forall j :: 0 <= j < |cfg| ==>
        ParseSpec(cfg[j]).Some? &&
        ParseAll(cfg, variant).value[j] ==
          (ParseSpec(cfg[j]).value.0, FilterEntry(variant, ParseSpec(cfg[j]).value.0, ParseSpec(cfg[j]).value.1))
  {
    ParseAllRaised(cfg, variant);
    if ParseAll(cfg, variant).Done? {
      ParseAllDone(cfg, variant);
    }
  }

  /** A failure names the first spec that does not parse. */
  lemma {:induction false} ParseAllRaised(cfg: seq<string>, variant: Variant)
    ensures ParseAll(cfg, variant).Raised? ==>
      exists i: nat :: FirstBad(cfg, i) && ParseAll(cfg, variant).failure == ValueError("Bad MCP spec: " + cfg[i])
    decreases |cfg|
  {
    if |cfg| > 0 {
      var n := |cfg| - 1;
      var init := cfg[..n];
      ParseAllRaised(init, variant);
      var r := ParseAll(init, variant);
      if r.Done? {
        ParseAllDone(init, variant);
      }
      if r.Raised? {
        var i: nat :| FirstBad(init, i) && r.failure == ValueError("Bad MCP spec: " + init[i]);
        assert init[i] == cfg[i];
        assert forall j :: 0 <= j < i ==> init[j] == cfg[j];
        assert FirstBad(cfg, i);
      } else if ParseSpec(cfg[n]).None? {
        assert forall j :: 0 <= j < n ==> init[j] == cfg[j];
        assert FirstBad(cfg, n);
      }
    }
  }

  /** A success holds one (server, filter entry) pair per spec, in order. */
  lemma {:induction false} ParseAllDone(cfg: seq<string>, variant: Variant)
    requires ParseAll(cfg, variant).Done?
    ensures |ParseAll(cfg, variant).value| == |cfg|
    ensures forall j :: 0 <= j < |cfg| ==>
      ParseSpec(cfg[j]).Some? &&
      ParseAll(cfg, variant).value[j] ==
        (ParseSpec(cfg[j]).value.0, FilterEntry(variant, ParseSpec(cfg[j]).value.0, ParseSpec(cfg[j]).value.1))
    decreases |cfg|
  {
    if |cfg| > 0 {
      var n := |cfg| - 1;
      var init := cfg[..n];
      ParseAllStep(cfg, variant);
      ParseAllDone(init, variant);
      var r := ParseAll(init, variant).value;
      var v := ParseAll(cfg, variant).value;
      forall j | 0 <= j < n
        ensures ParseSpec(cfg[j]).Some? &&
          v[j] == (ParseSpec(cfg[j]).value.0, FilterEntry(variant, ParseSpec(cfg[j]).value.0, ParseSpec(cfg[j]).value.1))
      {
        assert init[j] == cfg[j];
        assert v[j] == r[j];
      }
    }
  }

  /** A success extends the success on all specs but the last with the last
      spec's pair. */
  lemma ParseAllStep(cfg: seq<string>, variant: Variant)
    requires |cfg| > 0 && ParseAll(cfg, variant).Done?
    ensures ParseAll(cfg[..|cfg| - 1], variant).Done? && ParseSpec(cfg[|cfg| - 1]).Some?
    ensures ParseAll(cfg, variant) == Done(ParseAll(cfg[..|cfg| - 1], variant).value +
      [(ParseSpec(cfg[|cfg| - 1]).value.0,
        FilterEntry(variant, ParseSpec(cfg[|cfg| - 1]).value.0, ParseSpec(cfg[|cfg| - 1]).value.1))])
  {
  }

  /** The distinct servers of the pairs, in order of first appearance. */
  function Servers(items: seq<(string, string)>): (r: seq<string>)
    decreases |items|
  {
    if |items| == 0 then []
    else
      var s := Servers(items[..|items| - 1]);
      var k := items[|items| - 1].0;
      if k in s then s else s + [k]
  }

  /** The entries under one server, in order. */
  function ToolsOf(items: seq<(string, string)>, server: string): (r: seq<string>)
    decreases |items|
  {
    if |items| == 0 then []
    else
      var t := ToolsOf(items[..|items| - 1], server);
      if items[|items| - 1].0 == server then t + [items[|items| - 1].1] else t
  }

  /** `tools_by_server[server].append(tool)` on an insertion-ordered dict. */
  function Insert(groups: seq<Group>, server: string, tool: string): seq<Group> {
    if exists i :: 0 <= i < |groups| && groups[i].server == server then
      seq(|groups|, i requires 0 <= i < |groups| =>
        if groups[i].server == server then Group(server, groups[i].tools + [tool]) else groups[i])
    else groups + [Group(server, [tool])]
  }

  /** The dict `tools_by_server` after the pairs were inserted. */
  function Grouped(items: seq<(string, string)>): seq<Group>
    decreases |items|
  {
    if |items| == 0 then []
    else Insert(Grouped(items[..|items| - 1]), items[|items| - 1].0, items[|items| - 1].1)
  }

  /** Some pair belongs to the server. */
  ghost predicate Named(items: seq<(string, string)>, server: string) {
    exists j :: 0 <= j < |items| && items[j].0 == server
  }

  /** Each server is listed once, and exactly the servers of the pairs are. */
  lemma {:induction false} ServersDistinct(items: seq<(string, string)>)
    ensures forall i, j :: 0 <= i < j < |Servers(items)| ==> Servers(items)[i] != Servers(items)[j]
    ensures forall s :: s in Servers(items) <==> Named(items, s)
    decreases |items|
  {
    if |items| > 0 {
      var init := items[..|items| - 1];
      ServersDistinct(init);
      forall s
        ensures Named(items, s) <==> Named(init, s) || items[|items| - 1].0 == s
      {
        if Named(items, s) {
          var j :| 0 <= j < |items| && items[j].0 == s;
          if j < |init| {
            assert init[j] == items[j];
          }
        }
        if Named(init, s) {
          var j :| 0 <= j < |init| && init[j].0 == s;
          assert items[j] == init[j];
        }
      }
    }
  }

  /** More pairs only add servers after the ones already listed. */
  lemma {:induction false} ServersPrefix(items: seq<(string, string)>, n: nat)
    requires n <= |items|
    ensures |Servers(items[..n])| <= |Servers(items)|
    ensures Servers(items[..n]) == Servers(items)[..|Servers(items[..n])|]
    decreases |items|
  {
    if n < |items| {
      var init := items[..|items| - 1];
      assert init[..n] == items[..n];
      ServersPrefix(init, n);
    } else {
      assert items[..n] == items;
    }
  }

  /** A server no pair names has no entries. */
  lemma {:induction false} ToolsOfUnnamed(items: seq<(string, string)>, server: string)
    requires !Named(items, server)
    ensures ToolsOf(items, server) == []
    decreases |items|
  {
    if |items| > 0 {
      var init := items[..|items| - 1];
      forall j | 0 <= j < |init|
        ensures init[j].0 != server
      {
        assert init[j] == items[j];
      }
      ToolsOfUnnamed(init, server);
    }
  }

  /** The dict holds one group per distinct server, in order of first
      appearance, each with that server's entries in input order. */
  lemma {:induction false} GroupedByServer(items: seq<(string, string)>)
    ensures |Grouped(items)| == |Servers(items)|
    ensures forall i :: 0 <= i < |Grouped(items)| ==>
      Grouped(items)[i] == Group(Servers(items)[i], ToolsOf(items, Servers(items)[i]))
    decreases |items|
  {
    if |items| > 0 {
      var init := items[..|items| - 1];
      var (k, v) := items[|items| - 1];
      GroupedByServer(init);
      ServersDistinct(init);
      var g := Grouped(init);
      var s := Servers(init);
      if k in s {
        var i0 :| 0 <= i0 < |s| && s[i0] == k;
        assert g[i0].server == k;
      } else {
        ToolsOfUnnamed(init, k);
        assert forall i :: 0 <= i < |g| ==> g[i].server != k;
      }
    }
  }

  /** The `ValueError` a tuple unpacking into two names raises. */
  function UnpackMessage(n: nat): string {
    if n > 2 then "too many values to unpack (expected 2)"
    else "not enough values to unpack (expected 2, got " + (if n == 0 then "0" else "1") + ")"
  }

  predicate IsHttp(endpoint: string) {
    HasPrefix(endpoint, "http://") || HasPrefix(endpoint, "https://")
  }

  /** `parsed.port or 80`: no port, or port 0, means 80. */
  function PortOr80(port: Option<int>): (r: int)
    ensures port.Some? && port.value != 0 ==> r == port.value
  {
    if port.None? || port.value == 0 then 80 else port.value
  }

  /** The `_tcp_check` of the gateway, then the connection parameters. */
  function Reach(host: Option<string>, port: int, probe: Probe, connection: Connection): Outcome<Connection> {
    match probe(host, port)
    case Some(reason) => Raised(RuntimeError(host, port, reason))
    case None => Done(connection)
  }

  /** The connection to the gateway at `endpoint`. */
  function Connect(endpoint: string, variant: Variant, urlparse: UrlParse, probe: Probe, parseInt: IntParse): Outcome<Connection> {
    if IsHttp(endpoint) then
      var parsed := urlparse(endpoint);
      if variant == Adk && (parsed.hostname.None? || parsed.hostname.value == "") then
        Raised(ValueError("invalid MCP gateway URL"))
      else Reach(parsed.hostname, PortOr80(parsed.port), probe, Sse(endpoint))
    else
      var pieces := Split(endpoint, ':');
      if |pieces| != 2 then Raised(ValueError(UnpackMessage(|pieces|)))
      else match parseInt(pieces[1])
        case None => Raised(ValueError("invalid literal for int() with base 10: '" + pieces[1] + "'"))
        case Some(port) => Reach(Some(pieces[0]), port, probe, Stdio("socat", ["STDIO", "TCP:" + endpoint]))
  }

  /** What `create_mcp_toolsets` returns, or what it raises. */
  function Toolsets(cfg: Option<seq<string>>, variant: Variant, env: map<string, string>,
                    urlparse: UrlParse, probe: Probe, parseInt: IntParse): Outcome<seq<Toolset>>
  {
    if cfg.None? || |cfg.value| == 0 then Done([])
    else match ParseAll(cfg.value, variant)
      case Raised(f) => Raised(f)
      case Done(items) =>
        if EndpointVar !in env then Raised(KeyError(EndpointVar))
        else match Connect(env[EndpointVar], variant, urlparse, probe, parseInt)
          case Raised(f) => Raised(f)
          case Done(connection) =>
            var groups := Grouped(items);
            Done(seq(|groups|, i requires 0 <= i < |groups| => Toolset(connection, groups[i].tools)))
  }

  /** An empty or missing configuration gives no toolsets, whatever the
      environment holds. */
  lemma EmptyConfig(cfg: Option<seq<string>>, variant: Variant, env: map<string, string>,
                    urlparse: UrlParse, probe: Probe, parseInt: IntParse)
    requires cfg.None? || |cfg.value| == 0
    ensures Toolsets(cfg, variant, env, urlparse, probe, parseInt) == Done([])
  {
  }

  /** A bad spec raises the `ValueError` naming the first one, before the
      environment is read: the same in every environment. */
  lemma BadSpecFirst(cfg: seq<string>, variant: Variant, env: map<string, string>,
                     urlparse: UrlParse, probe: Probe, parseInt: IntParse, i: nat)
    requires FirstBad(cfg, i)
    ensures Toolsets(Some(cfg), variant, env, urlparse, probe, parseInt) == Raised(ValueError("Bad MCP spec: " + cfg[i]))
  {
    ParseAllSpec(cfg, variant);
    if ParseAll(cfg, variant).Raised? {
      var i': nat :| FirstBad(cfg, i') && ParseAll(cfg, variant).failure == ValueError("Bad MCP spec: " + cfg[i']);
      FirstBadUnique(cfg, i, i');
    }
  }

  /** There is only one first bad spec. */
  lemma FirstBadUnique(cfg: seq<string>, i: nat, j: nat)
    requires FirstBad(cfg, i) && FirstBad(cfg, j)
    ensures i == j
  {
  }

  /** When every spec parses and the gateway is reached, there is one
      toolset per distinct server in order of first appearance, all sharing
      the one connection, each filtering that server's tools in input order. */
  lemma ToolsetsPerServer(cfg: seq<string>, variant: Variant, env: map<string, string>,
                          urlparse: UrlParse, probe: Probe, parseInt: IntParse)
    requires |cfg| > 0 && Toolsets(Some(cfg), variant, env, urlparse, probe, parseInt).Done?
    ensures var ts := Toolsets(Some(cfg), variant, env, urlparse, probe, parseInt).value;
      var items := ParseAll(cfg, variant).value;
      EndpointVar in env && Connect(env[EndpointVar], variant, urlparse, probe, parseInt).Done? &&
      |ts| == |Servers(items)| &&
      forall i :: 0 <= i < |ts| ==>
        ts[i] == Toolset(Connect(env[EndpointVar], variant, urlparse, probe, parseInt).value, ToolsOf(items, Servers(items)[i]))
  {
    GroupedByServer(ParseAll(cfg, variant).value);
  }

  /** An http(s) endpoint is reached over SSE at the URL, on port 80 unless
      the URL names another; the `Adk` version first demands a host name. */
  lemma HttpEndpoint(endpoint: string, variant: Variant, urlparse: UrlParse, probe: Probe, parseInt: IntParse)
    requires IsHttp(endpoint)
    ensures var parsed := urlparse(endpoint);
      var r := Connect(endpoint, variant, urlparse, probe, parseInt);
      (variant == Adk && (parsed.hostname.None? || parsed.hostname.value == "") ==>
        r == Raised(ValueError("invalid MCP gateway URL"))) &&
      (r.Done? ==> r.value == Sse(endpoint) && probe(parsed.hostname, PortOr80(parsed.port)).None?) &&
      (parsed.port.None? && r.Done? ==> probe(parsed.hostname, 80).None?)
  {
  }

  /** Any other endpoint must be exactly `host:port`, and is reached through
      `socat STDIO TCP:<endpoint>`. */
  lemma StdioEndpoint(endpoint: string, variant: Variant, urlparse: UrlParse, probe: Probe, parseInt: IntParse)
    requires !IsHttp(endpoint)
    ensures var r := Connect(endpoint, variant, urlparse, probe, parseInt);
      (Count(endpoint, ':') != 1 ==> r.Raised? && r.failure.ValueError?) &&
      (r.Done? ==>
        r.value == Stdio("socat", ["STDIO", "TCP:" + endpoint]) &&
        exists host, port :: endpoint == host + ":" + port && ':' !in host && ':' !in port && parseInt(port).Some?)
  {
    SplitLength(endpoint, ':');
    var pieces := Split(endpoint, ':');
    if |pieces| == 2 {
      JoinSplit(endpoint, ':');
      assert [pieces[1]] == pieces[1..];
      assert endpoint == pieces[0] + [':'] + pieces[1];
    }
  }

  /** The specs grouped by server, or the parse failure. */
  function GroupedSpecs(specs: seq<string>, variant: Variant): Outcome<seq<Group>> {
    match ParseAll(specs, variant)
    case Raised(f) => Raised(f)
    case Done(items) => Done(Grouped(items))
  }

  /** The loop of `create_mcp_toolsets` over the specs, filling
      `tools_by_server`. */
  method GroupSpecs(specs: seq<string>, variant: Variant) returns (r: Outcome<seq<Group>>)
    ensures r == GroupedSpecs(specs, variant)
  {
    var toolsByServer: seq<Group> := [];
    var i := 0;
    while i < |specs|
      invariant 0 <= i <= |specs|
      invariant GroupedSpecs(specs[..i], variant) == Done(toolsByServer)
    {
      var raw := specs[i];
      if !HasPrefix(raw, "mcp/") || ':' !in raw {
        GroupFails(specs, variant, i);
        return Raised(ValueError("Bad MCP spec: " + raw));
      }
      var (server, tool, _) := Cut(raw[4..], ':');
      GroupStep(specs, variant, i, toolsByServer);
      toolsByServer := Insert(toolsByServer, server, FilterEntry(variant, server, tool));
      i := i + 1;
    }
    assert specs[..i] == specs;
    return Done(toolsByServer);
  }

  /** One more good spec inserts its pair into the groups. */
  lemma GroupStep(specs: seq<string>, variant: Variant, i: nat, groups: seq<Group>)
    requires i < |specs| && GroupedSpecs(specs[..i], variant) == Done(groups)
    requires HasPrefix(specs[i], "mcp/") && ':' in specs[i]
    ensures var (server, tool, _) := Cut(specs[i][4..], ':');
      GroupedSpecs(specs[..i + 1], variant) == Done(Insert(groups, server, FilterEntry(variant, server, tool)))
  {
    assert specs[..i + 1][..i] == specs[..i];
    var items := ParseAll(specs[..i], variant).value;
    var (server, tool, _) := Cut(specs[i][4..], ':');
    var pair := (server, FilterEntry(variant, server, tool));
    assert (items + [pair])[..|items|] == items;
  }

  /** A bad spec after good ones fails the whole list with its name. */
  lemma GroupFails(specs: seq<string>, variant: Variant, i: nat)
    requires i < |specs| && GroupedSpecs(specs[..i], variant).Done?
    requires !HasPrefix(specs[i], "mcp/") || ':' !in specs[i]
    ensures GroupedSpecs(specs, variant) == Raised(ValueError("Bad MCP spec: " + specs[i]))
  {
    assert specs[..i + 1][..i] == specs[..i];
    ParseAllFails(specs, variant, i + 1);
  }

  /** `create_mcp_toolsets`. */
  method CreateMcpToolsets(cfg: Option<seq<string>>, variant: Variant, env: map<string, string>,
                           urlparse: UrlParse, probe: Probe, parseInt: IntParse)
    returns (r: Outcome<seq<Toolset>>)
    ensures r == Toolsets(cfg, variant, env, urlparse, probe, parseInt)
  {
    if cfg.None? || |cfg.value| == 0 {
      return Done([]);
    }
    var grouped := GroupSpecs(cfg.value, variant);
    if grouped.Raised? {
      return Raised(grouped.failure);
    }
    var toolsByServer := grouped.value;
    if EndpointVar !in env {
      return Raised(KeyError(EndpointVar));
    }
    var connection := Connect(env[EndpointVar], variant, urlparse, probe, parseInt);
    if connection.Raised? {
      return Raised(connection.failure);
    }
    var result: seq<Toolset> := [];
    var k := 0;
    while k < |toolsByServer|
      invariant 0 <= k <= |toolsByServer|
      invariant |result| == k
      invariant forall j :: 0 <= j < k ==> result[j] == Toolset(connection.value, toolsByServer[j].tools)
    {
      result := result + [Toolset(connection.value, toolsByServer[k].tools)];
      k := k + 1;
    }
    assert result == seq(|toolsByServer|, j requires 0 <= j < |toolsByServer| => Toolset(connection.value, toolsByServer[j].tools));
    return Done(result);
  }

  /** Once a prefix of the specs fails to parse, all of them fail the same way. */
  lemma {:induction false} ParseAllFails(cfg: seq<string>, variant: Variant, n: nat)
    requires n <= |cfg| && ParseAll(cfg[..n], variant).Raised?
    ensures ParseAll(cfg, variant) == ParseAll(cfg[..n], variant)
    decreases |cfg| - n
  {
    if n < |cfg| {
      assert cfg[..n + 1][..n] == cfg[..n];
      ParseAllFails(cfg, variant, n + 1);
    } else {
      assert cfg[..n] == cfg;
    }
  }
}
