/** The backend process client of pkg/mcp/client.go: a `Client` owns the
    configuration of one `docker run` and, once started, the stdio MCP client of
    that container. */
module McpClient {
  import opened Wrappers
  import opened Values
  import opened McpTypes
  import ListTools

  /** The spawned stdio MCP client: the program, its environment and its argv. */
  datatype Process = Process(program: string, env: seq<string>, argv: seq<string>)

  /** The requests that reach a started backend, in order. */
  datatype Request =
    | Initialize(clientName: string, clientVersion: string)
    | ListToolsRequest
    | CallToolRequestSent(name: string, arguments: map<string, Value>)
    | CloseRequest

  /** How the outside world answers: creating the Docker client, pulling an
      image, and the backend's replies (an error text where Go returns an error). */
  datatype Backend = Backend(
    dockerClient: Option<string>,
    pullImage: string -> Option<string>,
    initialize: Process -> Option<string>,
    listTools: Process -> Result<seq<ListTools.McpTool>>,
    callTool: (Process, string, map<string, Value>) -> Result<CallToolResult>,
    close: Process -> Option<string>)

  const DockerRunPrefix := ["run", "--rm", "-i", "--init", "--pull", "never"]

  /** The argv of the container: the fixed prefix, the caller's arguments, then the
      image; the stored command is not part of it. */
  function DockerArgv(args: seq<string>, image: string): (r: seq<string>)
    ensures |r| == |args| + 7 && r[..6] == DockerRunPrefix && r[6..|r| - 1] == args && r[|r| - 1] == image
  {
    DockerRunPrefix + args + [image]
  }

  /** The arguments actually sent by `CallTool`: a nil map becomes an empty one,
      and an empty map gets the placeholder `args: "..."`. */
  function CallArguments(args: Option<map<string, Value>>): (r: map<string, Value>)
    ensures |r| > 0
    ensures args.Some? && |args.value| > 0 ==> r == args.value
    ensures (args.None? || |args.value| == 0) ==> r == map["args" := Str("...")]
  {
    var m := if args.None? then map[] else args.value;
    if |m| == 0 then map["args" := Str("...")] else m
  }

  /** The error `Start` reports for a client not yet started: the Docker client or
      pull failure when pulling, else the initialize failure. */
  function FreshStart(image: string, pull: bool, env: seq<string>, args: seq<string>, b: Backend): (r: Option<string>)
    ensures !pull && r.Some? ==> b.initialize(Process("docker", env, DockerArgv(args, image))).Some?
  {
    if pull && b.dockerClient.Some? then b.dockerClient
    else if pull && b.pullImage(image).Some? then Some("pulling image " + image + ": " + b.pullImage(image).value)
    else
      var init := b.initialize(Process("docker", env, DockerArgv(args, image)));
      if init.Some? then Some("initializing " + image + ": " + init.value) else None
  }

  /** The caller's argument map; `null` stands for a nil map. `CallTool` writes
      into a non-nil empty map, so the caller sees the placeholder too. */
  class Arguments {
    var entries: map<string, Value>

    constructor(entries: map<string, Value>)
      ensures this.entries == entries
    {
      this.entries := entries;
    }
  }

  class Client {
    const image: string
    const pull: bool
    const env: seq<string>
    const args: seq<string>
    const command: seq<string>
    /** The field `c`: `None` until `Start` has created the stdio client. */
    var process: Option<Process>
    /** What has reached the backend so far. */
    var sent: seq<Request>

    /** `NewClientArgs`. */
    constructor(image: string, pull: bool, env: seq<string>, args: seq<string>, command: seq<string>)
      ensures this.image == image && this.pull == pull && this.env == env
      ensures this.args == args && this.command == command
      ensures process.None? && sent == []
    {
      this.image := image;
      this.pull := pull;
      this.env := env;
      this.args := args;
      this.command := command;
      process := None;
      sent := [];
    }

    /** `Start`: refuses a started client; pulls the image if asked; then records
        the new stdio client before initializing it, so a failed initialize still
        leaves the client started. */
    method Start(b: Backend) returns (err: Option<string>)
      modifies this
      ensures old(process).Some? ==>
        err == Some("already started " + image) && process == old(process) && sent == old(sent)
      ensures old(process).None? ==> err == FreshStart(image, pull, env, args, b)
      ensures old(process).None? && pull && b.dockerClient.Some? ==>
        err == b.dockerClient && process.None? && sent == old(sent)
      ensures old(process).None? && pull && b.dockerClient.None? && b.pullImage(image).Some? ==>
        err == Some("pulling image " + image + ": " + b.pullImage(image).value) && process.None? && sent == old(sent)
      ensures old(process).None? && (!pull || (b.dockerClient.None? && b.pullImage(image).None?)) ==>
        var p := Process("docker", env, DockerArgv(args, image));
        process == Some(p) && sent == old(sent) + [Initialize("docker", "1.0.0")] &&
        err == (if b.initialize(p).Some? then Some("initializing " + image + ": " + b.initialize(p).value) else None)
    {
      if process.Some? {
        return Some("already started " + image);
      }
      if pull {
        if b.dockerClient.Some? {
          return b.dockerClient;
        }
        var pulled := b.pullImage(image);
        if pulled.Some? {
          return Some("pulling image " + image + ": " + pulled.value);
        }
      }
      var argv := DockerRunPrefix;
      argv := argv + args;
      argv := argv + [image];
      var p := Process("docker", env, argv);
      process := Some(p);
      sent := sent + [Initialize("docker", "1.0.0")];
      var initErr := b.initialize(p);
      if initErr.Some? {
        return Some("initializing " + image + ": " + initErr.value);
      }
      return None;
    }

    /** `ListTools`: refused before `Start`, otherwise the backend's answer. */
    method ListTools(b: Backend) returns (tools: seq<ListTools.McpTool>, err: Option<string>)
      modifies this
      ensures process == old(process)
      ensures old(process).None? ==>
        tools == [] && err == Some("listing tools " + image + ": not started") && sent == old(sent)
      ensures old(process).Some? ==> sent == old(sent) + [ListToolsRequest]
      ensures old(process).Some? && b.listTools(process.value).Err? ==>
        tools == [] && err == Some("listing tools " + image + ": " + b.listTools(process.value).error)
      ensures old(process).Some? && b.listTools(process.value).Ok? ==>
        tools == b.listTools(process.value).value && err.None?
    {
      if process.None? {
        return [], Some("listing tools " + image + ": not started");
      }
      sent := sent + [ListToolsRequest];
      var response := b.listTools(process.value);
      if response.Err? {
        return [], Some("listing tools " + image + ": " + response.error);
      }
      return response.value, None;
    }

    /** `CallTool`: refused before `Start`; otherwise sends the call under the
        caller's tool name, never with empty arguments. */
    method CallTool(b: Backend, name: string, arguments: Arguments?)
      returns (result: Option<CallToolResult>, err: Option<string>)
      modifies this, arguments
      ensures process == old(process)
      ensures old(process).None? ==>
        result.None? && err == Some("calling tool " + name + ": not started") &&
        sent == old(sent) && (arguments != null ==> arguments.entries == old(arguments.entries))
      ensures old(process).Some? ==>
        var sentArgs := CallArguments(if arguments == null then None else Some(old(arguments.entries)));
        sent == old(sent) + [CallToolRequestSent(name, sentArgs)] &&
        (arguments != null ==> arguments.entries == sentArgs) &&
        var reply := b.callTool(process.value, name, sentArgs);
        (reply.Err? ==> result.None? && err == Some("calling tool " + name + " on " + image + ": " + reply.error)) &&
        (reply.Ok? ==> result == Some(reply.value) && err.None?)
    {
      if process.None? {
        return None, Some("calling tool " + name + ": not started");
      }
      var requestArgs: Arguments;
      if arguments == null {
        requestArgs := new Arguments(map[]);
      } else {
        requestArgs := arguments;
      }
      if |requestArgs.entries| == 0 {
        requestArgs.entries := requestArgs.entries["args" := Str("...")];
      }
      var sentArgs := requestArgs.entries;
      sent := sent + [CallToolRequestSent(name, sentArgs)];
      var reply := b.callTool(process.value, name, sentArgs);
      if reply.Err? {
        return None, Some("calling tool " + name + " on " + image + ": " + reply.error);
      }
      return Some(reply.value), None;
    }

    /** `Close`: refused before `Start`; it does not forget the stdio client, so a
        closed client is still reported as started. */
    method Close(b: Backend) returns (err: Option<string>)
      modifies this
      ensures process == old(process)
      ensures old(process).None? ==> err == Some("closing " + image + ": not started") && sent == old(sent)
      ensures old(process).Some? ==> err == b.close(process.value) && sent == old(sent) + [CloseRequest]
    {
      if process.None? {
        return Some("closing " + image + ": not started");
      }
      sent := sent + [CloseRequest];
      return b.close(process.value);
    }
  }
}
