/** The tool-call handlers of the agents gateway: `mcpServerHandler`, which
    forwards a call to a freshly started backend client, and `mcpToolHandler`,
    which runs a tool-group tool as a one-shot container
    (cmd/agents_gateway/server/handlers.go, cmd/agents_gateway/server/tools.go,
    cmd/agents_gateway/server/server.go, gateway/cmd/agents_gateway/server/server.go). */
module Handlers {
  import opened Wrappers
  import opened Values
  import opened McpTypes
  import opened Catalog
  import Eval
  import Responses
  import McpClient
  import Start

  /** What `cmd.CombinedOutput()` gives back: the output, and whether it failed. */
  datatype Exec = Exec(output: string, failed: bool)

  /** Running `docker` with an argv. */
  type Docker = seq<string> -> Exec

  const ToolRunPrefix := ["run", "--rm", "-i", "--init", "--security-opt", "no-new-privileges"]

  /** A `-v` flag in front of every volume, in order. */
  function VolumeFlags(volumes: seq<string>): (r: seq<string>)
    ensures |r| == 2 * |volumes|
    ensures forall i :: 0 <= i < |volumes| ==> r[2 * i] == "-v" && r[2 * i + 1] == volumes[i]
    decreases |volumes|
  {
    if |volumes| == 0 then [] else VolumeFlags(volumes[..|volumes| - 1]) + ["-v", volumes[|volumes| - 1]]
  }

  /** The container argv: the fixed prefix, the volumes, the image, then the command. */
  function ContainerArgv(volumes: seq<string>, image: string, command: seq<string>): (r: seq<string>)
    ensures |r| == 7 + 2 * |volumes| + |command|
    ensures r[..6] == ToolRunPrefix
    ensures r[6..6 + 2 * |volumes|] == VolumeFlags(volumes)
    ensures r[6 + 2 * |volumes|] == image
    ensures r[6 + 2 * |volumes| + 1..] == command
  {
    var r := ToolRunPrefix + VolumeFlags(volumes) + [image] + command;
    assert r[..6] == ToolRunPrefix;
    assert r[6..6 + 2 * |volumes|] == VolumeFlags(volumes);
    assert r[6 + 2 * |volumes| + 1..] == command;
    r
  }

  /** The arguments a template is evaluated against; a nil map reads as empty. */
  function CallConfig(request: CallToolRequest): Eval.Config {
    request.arguments.GetOr(map[])
  }

  /** The argv of handlers.go: volumes and command are both evaluated. */
  function ToolArgv(tool: Tool, arguments: Eval.Config): seq<string> {
    ContainerArgv(Eval.EvaluateAll(tool.container.volumes, arguments), tool.container.image,
                  Eval.EvaluateAll(tool.container.command, arguments))
  }

  /** handlers.go:28-34. */
  method BuildToolArgv(tool: Tool, arguments: Eval.Config) returns (argv: seq<string>)
    ensures argv == ToolArgv(tool, arguments)
  {
    argv := ToolRunPrefix;
    var volumes := Eval.Expressions(tool.container.volumes, arguments);
    argv := AppendVolumes(argv, volumes);
    argv := argv + [tool.container.image];
    var command := Eval.Expressions(tool.container.command, arguments);
    argv := argv + command;
  }

  /** The `-v` loop. */
  method AppendVolumes(acc: seq<string>, volumes: seq<string>) returns (r: seq<string>)
    ensures r == acc + VolumeFlags(volumes)
  {
    r := acc;
    var i := 0;
    while i < |volumes|
      invariant 0 <= i <= |volumes|
      invariant r == acc + VolumeFlags(volumes[..i])
    {
      assert volumes[..i + 1][..i] == volumes[..i];
      r := r + ["-v", volumes[i]];
      i := i + 1;
    }
    assert volumes[..i] == volumes;
  }

  /** The result a finished container is reported as. */
  function Outcome(e: Exec): (r: CallToolResult)
    ensures r.isError == e.failed
  {
    if e.failed then Responses.ToolError(e.output) else Responses.ToolResult(e.output)
  }

  /** `mcpToolHandler` of handlers.go: runs the container and reports its output;
      a failing container is an error result, never a Go error. */
  method McpToolHandler(tool: Tool, request: CallToolRequest, docker: Docker)
    returns (result: Option<CallToolResult>, err: Option<string>, ran: seq<string>)
    ensures ran == ToolArgv(tool, CallConfig(request))
    ensures err.None? && result == Some(Outcome(docker(ran)))
  {
    ran := BuildToolArgv(tool, CallConfig(request));
    var out := docker(ran);
    if out.failed {
      return Some(Responses.ToolError(out.output)), None, ran;
    }
    return Some(Responses.ToolResult(out.output)), None, ran;
  }

  /** Without templates, the evaluated argv is the catalog's text as it stands. */
  lemma PlainToolArgv(tool: Tool, arguments: Eval.Config)
    requires forall i :: 0 <= i < |tool.container.volumes| ==> !Eval.IsTemplate(tool.container.volumes[i])
    requires forall i :: 0 <= i < |tool.container.command| ==> !Eval.IsTemplate(tool.container.command[i])
    ensures ToolArgv(tool, arguments) == ContainerArgv(tool.container.volumes, tool.container.image, tool.container.command)
  {
    Eval.EvaluateAllPlain(tool.container.volumes, arguments);
    Eval.EvaluateAllPlain(tool.container.command, arguments);
  }

  /** tools.go:21-26: volumes are passed verbatim, the command is already replaced. */
  method BuildLegacyToolArgv(tool: Tool, command: seq<string>) returns (argv: seq<string>)
    ensures argv == ContainerArgv(tool.container.volumes, tool.container.image, command)
  {
    argv := ToolRunPrefix;
    argv := AppendVolumes(argv, tool.container.volumes);
    argv := argv + [tool.container.image];
    argv := argv + command;
  }

  /** `mcpToolHandler` of tools.go. Its placeholder evaluation returns an error,
      which the model receives as `placeholders`; a failed replacement is a Go
      error and no container runs. */
  method LegacyMcpToolHandler(tool: Tool, placeholders: Result<seq<string>>, docker: Docker)
    returns (result: Option<CallToolResult>, err: Option<string>, ran: Option<seq<string>>)
    ensures placeholders.Err? ==>
      result.None? && err == Some("replacing placeholders: " + placeholders.error) && ran.None?
    ensures placeholders.Ok? ==>
      var argv := ContainerArgv(tool.container.volumes, tool.container.image, placeholders.value);
      ran == Some(argv) && err.None? && result == Some(Outcome(docker(argv)))
  {
    if placeholders.Err? {
      return None, Some("replacing placeholders: " + placeholders.error), None;
    }
    var argv := BuildLegacyToolArgv(tool, placeholders.value);
    var out := docker(argv);
    if out.failed {
      return Some(Responses.ToolError(out.output)), None, Some(argv);
    }
    return Some(Responses.ToolResult(out.output)), None, Some(argv);
  }

  /** With template-free volumes and the same command, the two handler versions
      run the same container. */
  lemma HandlersAgree(tool: Tool, request: CallToolRequest)
    requires forall i :: 0 <= i < |tool.container.volumes| ==> !Eval.IsTemplate(tool.container.volumes[i])
    ensures ToolArgv(tool, CallConfig(request)) ==
      ContainerArgv(tool.container.volumes, tool.container.image, Eval.EvaluateAll(tool.container.command, CallConfig(request)))
  {
    Eval.EvaluateAllPlain(tool.container.volumes, CallConfig(request));
  }

  /** The request's arguments as the caller-owned map `CallTool` receives. */
  method ArgumentsOf(request: CallToolRequest) returns (a: McpClient.Arguments?)
    ensures request.arguments.None? ==> a == null
    ensures request.arguments.Some? ==> a != null && fresh(a) && a.entries == request.arguments.value
  {
    if request.arguments.None? {
      return null;
    }
    a := new McpClient.Arguments(request.arguments.value);
  }

  /** The body of `mcpServerHandler` once the client start is decided (handlers.go
      and cmd/agents_gateway/server/server.go start it through helpers whose
      signatures differ from start.go): a start error is returned before any call;
      otherwise the captured tool is called with the request's arguments, and the
      client is closed. */
  method CallStarted(started: Result<McpClient.Client>, b: McpClient.Backend, toolName: string, request: CallToolRequest)
    returns (result: Option<CallToolResult>, err: Option<string>)
    requires started.Ok? ==> started.value.process.Some?
    modifies if started.Ok? then {started.value} else {}
    ensures started.Err? ==> result.None? && err == Some(started.error)
    ensures started.Ok? ==>
      var c := started.value;
      var sentArgs := McpClient.CallArguments(request.arguments);
      c.process == old(c.process) && c.process.Some? &&
      var reply := b.callTool(c.process.value, toolName, sentArgs);
      c.sent == old(c.sent) + [McpClient.CallToolRequestSent(toolName, sentArgs), McpClient.CloseRequest] &&
      (reply.Err? ==> result.None? && err == Some("calling tool " + toolName + " on " + c.image + ": " + reply.error)) &&
      (reply.Ok? ==> result == Some(reply.value) && err.None?)
  {
    if started.Err? {
      return None, Some(started.error);
    }
    var c := started.value;
    var a := ArgumentsOf(request);
    result, err := c.CallTool(b, toolName, a);
    var _ := c.Close(b);
  }

  /** `mcpServerHandler` of gateway/cmd/agents_gateway/server/server.go: starts
      the image's client without pulling, then calls the captured tool. */
  method GatewayMcpServerHandler(image: string, toolName: string, config: string, getenv: Start.Getenv,
                                 b: McpClient.Backend, request: CallToolRequest)
    returns (result: Option<CallToolResult>, err: Option<string>, client: McpClient.Client?)
    ensures client == null ==> result.None? && err.Some?
    ensures client != null ==>
      fresh(client) && !client.pull && client.image == image && client.process.Some? &&
      var sentArgs := McpClient.CallArguments(request.arguments);
      var reply := b.callTool(client.process.value, toolName, sentArgs);
      client.sent == [McpClient.Initialize("docker", "1.0.0")] + [McpClient.CallToolRequestSent(toolName, sentArgs),
                      McpClient.CloseRequest] &&
      (reply.Err? ==> result.None? && err == Some("calling tool " + toolName + " on " + image + ": " + reply.error)) &&
      (reply.Ok? ==> result == Some(reply.value) && err.None?)
  {
    var c, startErr := Start.GatewayStartMCPClient(image, false, config, getenv, b);
    if c == null {
      return None, startErr, null;
    }
    result, err := CallStarted(Ok(c), b, toolName, request);
    client := c;
  }
}
