# MCP gateway and agent helpers: a Dafny model

This project models the logic of a Model Context Protocol (MCP) gateway and of
the agent helpers around it, and proves properties of that model. The gateway
offers one MCP tool-calling interface to clients. The tools themselves live in
backend containers that the gateway starts with `docker run`. The model covers:

- the template evaluator that fills `{{path|filter}}` placeholders from a
  server's configuration tree, and its Windows-path rewriting into volume
  specifications (`Eval`, `GatewayEval`, `Values`);
- the catalog: indexing servers and tool groups by name, the "servers first,
  then tool groups" lookup, and the key/value decoding of schema properties
  (`ByName`, `Catalog`, `CatalogYaml`, `AgentServers`);
- tool aggregation: the case-insensitive allow-list and the collection of
  every enabled tool, as a sequential fold (`ListTools`), and the image
  bookkeeping at start-up (`Images`);
- the backend process client, a state machine over "not started" and
  "started" (`McpClient`, `McpTypes`, `Responses`);
- the builders of `docker run` argument vectors from `--config` entries and
  from tool templates (`Start`, `Handlers`, `Parse`, `AgentsMain`);
- the call middleware, which scans the arguments for secrets before the
  backend runs, logs the call, and scans the result (`Callbacks`,
  `LegacyCallbacks`), and the light gateway's tool filter (`LightGateway`);
- the compose-provider flags (`McpGatewayFlags`, `AgenticFlags`);
- the mock gateway, its line-oriented JSON-RPC 2.0 server, and the debug
  client (`MockGateway`, `MockMcpServer`, `DebugClient`);
- the Python agent helpers:
  - the ADK model callbacks that cut an answer at the end-of-edit mark,
    collapse messages into single-text contents and render grounding
    references (`EditCallbacks`, `CriticCallbacks`, over `AdkTypes` and
    `PyText`);
  - the MCP toolset builder that groups `mcp/server:tool` specs by server
    (`McpToolsets`);
  - the agent-id normalisation and the agent configurations (`AgentIds`,
    `A2aConfig`, `DemosConfig`);
  - the agent-type registry, the sub-agent proxies and the fold of runner
    events into stream updates (`AgentKit`);
  - the input a proxy agent forwards (`ProxyAgent`).

Each source file is one module. Code that only computes is written as
functions with lemmas. Code that updates things step by step is written as
methods with loops, classes with fields, or both. Each method is proved
against a specification function, and the lemmas state the source's
properties about that function.

Processes, the network, the secret scanner, JSON and YAML codecs, `urlparse`,
the clock and the environment are parameters of the operations that use them.
The secret scanner is a predicate. The codecs and the Docker backend are
functions or scripted answers. The environment is a map or a function.
`Strs` holds the string primitives of Go's `strings` package and their Python
counterparts. `Wrappers` holds `Option` and `Result`.

## Model

| member | source | states |
|---|---|---|
| Eval.Dig | pkg/eval/eval.go:61-80 | a lookup never yields nil: a missing key, a nil value or a non-map parent gives "" |
| Eval.DigFlat | pkg/eval/eval.go:62-71 | an undotted key looks up its trimmed form, giving "" when it is missing or nil |
| Eval.DigStep | pkg/eval/eval.go:64-79 | a dotted key descends into the map under its trimmed first segment, and gives "" when that is not a map |
| Eval.DigJoin | pkg/eval/eval.go:61-80 | looking up segments joined by "." is walking the nested maps segment by segment |
| Eval.DigIsWalk | pkg/eval/eval.go:61-80 | every key is looked up as the walk over its "."-separated segments |
| Eval.DigTrimmed | pkg/eval/eval.go:62 | keys that agree after trimming white space find the same value |
| Eval.TemplateLength | pkg/eval/eval.go:10-14 | a `{{...}}` expression has at least four characters, so the slice that drops the braces is in range |
| Eval.Inner | pkg/eval/eval.go:14 | the expression is exactly "{{" + inner + "}}" |
| Eval.VolumeFilter | pkg/eval/eval.go:24-34 | a list becomes a list of the same length whose items are "v:v" of each item; any other value becomes "s:s" of its reflect string |
| Eval.Expression | pkg/eval/eval.go:9-40 | the evaluation loop computes the specification `Evaluate` |
| Eval.VolumeList | pkg/eval/eval.go:26-31 | the loop builds exactly the list the volume filter specifies |
| Eval.RunFilters | pkg/eval/eval.go:20-37 | the loop applies the filters separated by pipe characters in order |
| Eval.Render | pkg/eval/eval.go:48-55 | a list contributes one `%v` string per item, in order; any other value its reflect string alone |
| Eval.Expressions | pkg/eval/eval.go:42-59 | the loop computes the concatenated renderings of every evaluated expression |
| Eval.AppendRendered | pkg/eval/eval.go:48-55 | appends the rendering of one value after the strings so far |
| Eval.NonTemplateUnchanged | pkg/eval/eval.go:10-12 | an expression not wrapped in `{{` `}}` evaluates to itself |
| Eval.NoFilterIsLookup | pkg/eval/eval.go:14-18 | without a pipe character the expression is the lookup of its inner path |
| Eval.TemplateLookup | pkg/eval/eval.go:14-18 | `{{path}}` with no filter evaluates to the lookup of path |
| Eval.OtherFiltersAreNoOps | pkg/eval/eval.go:35-36 | filters other than "volume" (after trimming) leave the value unchanged |
| Eval.IgnoredFiltersLookup | pkg/eval/eval.go:14-37 | a path followed by filters none of which is a volume filter is the plain lookup of path |
| Eval.VolumeOfString | pkg/eval/eval.go:32-34 | a string value s under the volume filter becomes "s:s" |
| Eval.FiltersCompose | pkg/eval/eval.go:20-37 | applying f then g is applying f + g |
| Eval.ApplyFiltersNotNil | pkg/eval/eval.go:20-37 | filters never turn a non-nil value into nil |
| Eval.EvaluateNotNil | pkg/eval/eval.go:9-40 | an expression never evaluates to nil |
| Eval.EvaluateAllAppend | pkg/eval/eval.go:42-59 | evaluating a + b is evaluating a, then b, concatenated |
| Eval.EvaluateAllLength | pkg/eval/eval.go:45-55 | when no expression yields a list, there is one output per input |
| Eval.EvaluateAllPlain | pkg/eval/eval.go:42-59 | a list with no templates comes back unchanged |
| Eval.ToLinuxPath | pkg/eval/paths.go:8-12 | the result has no backslash |
| Eval.ToLinuxPathNoDrive | pkg/eval/paths.go:8-12 | without a drive prefix only backslashes are turned into slashes |
| Eval.ToLinuxPathDrive | pkg/eval/paths.go:8-12 | "C:\rest" or "C:/rest" becomes "/C/" + rest with slashes |
| Eval.ToLinuxPathIdempotent | pkg/eval/paths.go:8-12 | converting twice is converting once |
| Eval.VolumeTarget | pkg/eval/volume_target.go:5-11 | a Windows path is converted to a Linux path, any other path is kept |
| Eval.Volume | pkg/eval/volume.go:5-12 | the binding is "source:target" with the `%v` source, the target converted only for Windows paths |
| Eval.VolumeIsSourceAndTarget | pkg/eval/volume.go:5-12 | the volume binding is the source, ":", and the volume target of the same value |
| Eval.WindowsTargetHasNoBackslash | pkg/eval/volume_target.go:5-11 | the target of a Windows path has no backslash |
| Values.Format | pkg/eval/eval.go:29 | a string value renders as itself under `%v`, and a number or boolean as its own text |
| Values.FormatS | cmd/docker-mcpgateway/eval.go:15 | under `%s` a string prints as itself, a number or boolean as `%!s(T=text)`, nil as `%!s(<nil>)`, and a list as its items printed the same way, bracketed |
| Values.FormatSOfText | cmd/docker-mcpgateway/eval.go:15 | `%s` and `%v` print a value alike when nothing in it is a number, a boolean or nil |
| Values.ReflectString | pkg/eval/eval.go:33 | a string value's reflect string is the string itself; a number or boolean gives `<T Value>` naming its Go type |
| GatewayEval.Dig | cmd/docker-mcpgateway/eval.go:18-37 | a lookup never yields nil |
| GatewayEval.DigAgrees | cmd/docker-mcpgateway/eval.go:18-37 | this copy of `dig` finds the same value as the one in pkg/eval for every key and configuration |
| GatewayEval.Evaluate | cmd/docker-mcpgateway/eval.go:8-16 | an expression not wrapped in `{{` `}}` is returned as is; a template yields the pkg/eval lookup of the text before its first pipe character, printed with `%s` |
| GatewayEval.NonTemplateUnchanged | cmd/docker-mcpgateway/eval.go:9-11 | an expression not wrapped in `{{` `}}` is returned as is |
| GatewayEval.FiltersDiscarded | cmd/docker-mcpgateway/eval.go:13-15 | everything after the first pipe character is ignored: the result is the lookup of the path printed with `%s` |
| GatewayEval.ScalarPrintsBadVerb | cmd/docker-mcpgateway/eval.go:15 | a template whose lookup is a number or a boolean evaluates to `%!s(T=text)`, not to the value's text |
| GatewayEval.TextPrintsAsFormat | cmd/docker-mcpgateway/eval.go:13-15 | when the lookup holds only text, the result is the `%v` rendering of the lookup |
| GatewayEval.AgreesWithEval | cmd/docker-mcpgateway/eval.go:8-16 | for a filterless template whose lookup is a string, both evaluators give that string |
| ByName.IndexKeys | pkg/catalog/catalog.go:22-25 | the keys of the index are exactly the names occurring in the list |
| ByName.IndexValuesMatchKeys | pkg/catalog/catalog.go:22-25 | every entry is stored under its own name |
| ByName.IndexValuesFromList | pkg/catalog/catalog.go:22-25 | every entry is one of the listed records |
| ByName.IndexLastWins | pkg/catalog/catalog.go:22-25 | of several records with one name, the last one is kept |
| Catalog.Find | pkg/catalog/find.go:3-17 | a server of that name is returned alone; else a tool group of that name; found holds exactly when one of the two was returned |
| Catalog.GroupToolsReplace | pkg/catalog/catalog.go:32-38 | the tool index has one entry per group name, the last group of a name replacing earlier ones, each indexing its tools by name |
| Catalog.Get | pkg/catalog/catalog.go:16-44 | a servers decoding error is wrapped as "reading servers catalog: ", a tools error as "reading tools catalog: ", both with an empty catalog; otherwise servers and tool groups are indexed by name |
| Catalog.DecodePairsShape | pkg/catalog/types.go:72-93 | key/value nodes are decoded pairwise in order; decoding stops at the first pair whose name or schema fails, with that error, and the pairs before it are kept |
| Catalog.SchemaList.UnmarshalYAML | pkg/catalog/types.go:72-93 | appends the decoded entries to the list and returns the decoding error |
| CatalogYaml.Get | pkg/catalog/yaml.go:13-24 | a decoding error is wrapped as "reading catalog: " with no map; otherwise the servers are indexed by name |
| AgentServers.List | cmd/agents_gateway/servers/yaml.go:13-24 | a decoding error gives no map and is wrapped as "reading catalog: "; otherwise the servers are indexed by name |
| AgentServers.GetTitle | cmd/agents_gateway/servers/server.go:8-14 | the title when it is set, else the name; empty only when both are |
| AgentServers.GetMaturity | cmd/agents_gateway/servers/server.go:16-22 | "Community Image" exactly when the image starts with "mcpcommunity/", otherwise "Official Image" |
| AgentServers.GetHubURL | cmd/agents_gateway/servers/server.go:24-26 | the Docker Hub repository prefix followed by the image |
| AgentServers.GetBranch | cmd/agents_gateway/servers/server.go:52-57 | the configured branch when one is set, and "main" when none is; never empty |
| AgentServers.GetDockerfile | cmd/agents_gateway/servers/server.go:67-72 | the configured Dockerfile when one is set, and "Dockerfile" when none is; never empty |
| AgentServers.ContextShapes | cmd/agents_gateway/servers/server.go:28-42 | the four shapes of the build context: "p.git", "p.git#:dir", "p.git#branch:dir" and "p.git#branch" (a real directory is neither "" nor ".") |
| AgentServers.GetSourceURL | cmd/agents_gateway/servers/server.go:44-50 | the project, "/tree/", the branch, and "/dir" when a directory is set |
| AgentServers.GetDockerfileUrl | cmd/agents_gateway/servers/server.go:59-65 | the project, "/blob/", the branch and directory path, then "/" and the Dockerfile |
| AgentServers.GetReadmeURL | cmd/agents_gateway/servers/server.go:74-76 | the project's "/blob/<branch>/" followed exactly by the README path, never under the source directory |
| Images.Insert | cmd/agents_gateway/server/run.go:77 | inserting into a sorted list keeps it sorted and adds exactly that one element |
| Images.SortStrings | cmd/agents_gateway/server/run.go:77 | the result is sorted and a permutation of the input |
| Images.ServerNames | cmd/agents_gateway/server/run.go:72-77 | the names are sorted, are exactly the registry's keys, and each occurs once |
| Images.ListsSet | cmd/agents_gateway/server/run.go:73-77 | a list holding a set's elements once each has the set's members and size |
| Images.ImagesOfMembers | cmd/agents_gateway/server/run.go:80-100 | an image is collected exactly when some listed name contributes it |
| Images.ServerHidesGroup | cmd/agents_gateway/server/run.go:83-87 | a name that is both a server and a tool group contributes only the server's image |
| Images.GroupImages | cmd/agents_gateway/server/run.go:91-97 | a tool group contributes exactly the images of its tools' containers |
| Images.UnknownBringsNothing | cmd/agents_gateway/server/run.go:99 | a name that is neither contributes no image |
| Images.UniqueImages | cmd/agents_gateway/server/run.go:80-100 | the loop collects exactly the images the names contribute |
| Images.McpImages | cmd/agents_gateway/server/run.go:108-110 | keeps exactly the images starting with "mcp/", in order |
| Images.McpImagesDistinct | cmd/agents_gateway/server/run.go:106-111 | filtering a list without duplicates leaves one without duplicates |
| Images.ImageLists | cmd/agents_gateway/server/run.go:102-111 | one pass lists every collected image once and the "mcp/" ones in the same order |
| Images.ImageListsTwoPass | cmd/agents_gateway/server/server.go:52-64 | the set is listed first and then filtered, with the same result as the one-pass loop |
| Images.RunImages | cmd/agents_gateway/server/run.go:72-111 | sorted registry names, every image they contribute once, and its "mcp/" sublist |
| Images.ServerImages | cmd/agents_gateway/server/server.go:30-64 | every image the given names contribute once, and its "mcp/" sublist |
| ListTools.AnyNameMatch | cmd/agents_gateway/server/list_tools.go:103-110 | true exactly when some entry matches the tool, "server:tool", "server:*" or "*", ignoring case |
| ListTools.AnyImageMatch | cmd/agents_gateway/server/list_tools.go:113-118 | true exactly when some entry matches "image:tool" or "image:*", ignoring case |
| ListTools.IsToolEnabled | cmd/agents_gateway/server/list_tools.go:98-122 | enabled exactly when the list is empty, or an entry matches by name, or a non-empty image and an entry match by image |
| ListTools.GroupsIgnoreImageEntries | cmd/agents_gateway/server/list_tools.go:67 | tool-group tools, checked with an empty image, are enabled only by name entries |
| ListTools.EntryCaseInsensitive | cmd/agents_gateway/server/list_tools.go:104 | an entry equal to the tool name up to case enables it |
| ListTools.EmptyEntryEnablesNothing | cmd/agents_gateway/server/list_tools.go:98-122 | the single entry "" enables no named tool |
| ListTools.GroupTool | cmd/agents_gateway/server/list_tools.go:71-81 | name and description are copied; the input schema is the tool's parameters when it has properties, else an empty "object" |
| ListTools.UnknownContributesNothing | cmd/agents_gateway/server/list_tools.go:28-29 | a name the catalog does not know contributes no tool |
| ListTools.FailingServerContributesNothing | cmd/agents_gateway/server/list_tools.go:34-45 | a server that cannot start, or whose tools cannot be listed, contributes no tool |
| ListTools.ExpectedOnlyEnabled | cmd/agents_gateway/server/list_tools.go:47-50 | every listed tool is enabled for the name it came from |
| ListTools.ListTools | cmd/agents_gateway/server/list_tools.go:18-96 | the tools listed are exactly the enabled tools of the started servers and of the tool groups, and no error is returned |
| ListTools.ServerWorker | cmd/agents_gateway/server/list_tools.go:33-63 | a server's worker adds its enabled tools, each with a server handler, or nothing when it fails |
| ListTools.ServerPartSnoc | cmd/agents_gateway/server/list_tools.go:47-60 | each listed tool is added exactly when it is enabled |
| ListTools.GroupPartAdd | cmd/agents_gateway/server/list_tools.go:66-91 | each group tool is added, with a container handler, exactly when it is enabled |
| ListTools.GroupTools | cmd/agents_gateway/server/list_tools.go:65-91 | the group loop adds exactly the group's enabled tools |
| McpClient.DockerArgv | pkg/mcp/client.go:48-50 | the argv is the fixed `run --rm -i --init --pull never` prefix, the client's arguments, then the image |
| McpClient.CallArguments | pkg/mcp/client.go:88-98 | never empty: the caller's arguments when there are any, else the single "args": "..." |
| McpClient.FreshStart | pkg/mcp/client.go:37-67 | without pulling, a start fails only when initializing the docker process fails |
| McpClient.Client.constructor | pkg/mcp/client.go:22-30 | a client holds its image, pull flag, environment, arguments and command, and is not started |
| McpClient.Client.Start | pkg/mcp/client.go:32-68 | a second start fails with "already started"; a docker-client or pull error stops before any process exists; otherwise the docker process is recorded, an initialize request from "docker" 1.0.0 is sent, and its failure is reported as "initializing <image>: " |
| McpClient.Client.ListTools | pkg/mcp/client.go:70-81 | "not started" before a start; otherwise sends one list request and returns its tools or its wrapped error |
| McpClient.Client.CallTool | pkg/mcp/client.go:83-106 | "not started" before a start; otherwise sends one call with never-empty arguments (filling the caller's map in place) and returns the result or the error wrapped with the tool name and image |
| McpClient.Client.Close | pkg/mcp/client.go:108-113 | "not started" before a start; otherwise sends close and returns its error |
| Responses.ToolError | pkg/mcp/responses.go:9-22 | an error result whose only content is the error text, with empty metadata |
| Responses.ToolResult | pkg/mcp/responses.go:24-41 | a non-error result with one text content: the text when it is not blank, else "There was no output from the tool call" |
| Responses.ToolResultNeverBlank | pkg/mcp/responses.go:24-41 | a tool result's text is never blank |
| Responses.ErrorAndResultDiffer | pkg/mcp/responses.go:9-41 | no error result equals a plain result |
| Start.EntryName | cmd/agents_gateway/server/start.go:35-36 | the variable name is the text of the mapping before its first "=", so it holds no "=" |
| Start.Resolve | cmd/agents_gateway/server/start.go:41-45 | a value starting with "$" is replaced by the environment variable it names; any other value is kept |
| Start.Binding | cmd/agents_gateway/server/start.go:41-45 | the binding is "name=value", so it holds an "=" |
| Start.Accepted | cmd/agents_gateway/server/start.go:30-33 | keeps exactly the config entries prefixed by "<image>." |
| Start.FirstInvalid | cmd/agents_gateway/server/start.go:36-39 | names an accepted entry without "=" when there is one, and otherwise every accepted entry is well formed |
| Start.FirstInvalidSticks | cmd/agents_gateway/server/start.go:37-39 | once an invalid entry is found, later entries do not change the error |
| Start.ArgsOf | cmd/agents_gateway/server/start.go:46 | two arguments per accepted entry: "-e" and its variable name, in order |
| Start.BindingsOf | cmd/agents_gateway/server/start.go:41-45 | one "name=value" binding per accepted entry, in order (the intended environment) |
| Start.EnvAsWritten | cmd/agents_gateway/server/start.go:42-44 | the environment as written: empty, or the arguments before the last entry followed by its binding alone |
| Start.ArgsCarryNoValues | cmd/agents_gateway/server/start.go:46 | no docker argument carries a value: secrets stay in the environment |
| Start.SplitAtFirstEquals | cmd/agents_gateway/server/start.go:35-36 | "<image>.name=value" is accepted and split into that name and that value, even when the value holds "=" |
| Start.StepSkip | cmd/agents_gateway/server/start.go:31-33 | an entry for another image changes nothing |
| Start.StepBad | cmd/agents_gateway/server/start.go:37-39 | the first malformed accepted entry becomes the error |
| Start.StepGood | cmd/agents_gateway/server/start.go:35-46 | a well-formed accepted entry extends the entries |
| Start.ArgsSnoc | cmd/agents_gateway/server/start.go:41-46 | one more entry appends "-e name" to the arguments, its binding to the bindings, and rebuilds the written environment from the previous arguments |
| Start.ConfigArgsAsWritten | cmd/agents_gateway/server/start.go:29-47 | the loop as written: the first malformed entry is an error; otherwise the arguments are "-e name" pairs and the environment is the previous arguments plus one last item, the last binding or, when Go's `append` shares the arguments' array, "-e" (exact for up to two entries) |
| Start.EntriesAsWritten | cmd/agents_gateway/server/start.go:29-47 | the same loop over already-split entries, with the same environment: the previous arguments plus the last binding or "-e" (exact for up to two entries) |
| Start.EnvPrefix | cmd/agents_gateway/server/start.go:42-44 | the written environment starts with the arguments of all but the last entry and ends with the last entry's binding |
| Start.AsWrittenLosesFirstBinding | cmd/agents_gateway/server/start.go:42-44 | with two entries the written environment is "-e", the first name and the second binding, which is not the two bindings |
| Start.TwoEntryConfig | cmd/agents_gateway/server/start.go:29 | "a,b" with trimmed comma-free parts parses into the two entries |
| Start.OneEntryAgrees | cmd/agents_gateway/server/start.go:42-44 | with one entry the written and the intended environments agree |
| Start.ConfigArgs | cmd/agents_gateway/server/start.go:29-47 | the corrected loop: the first malformed entry is an error; otherwise "-e name" arguments and one binding per entry |
| Start.Entries | cmd/agents_gateway/server/start.go:29-47 | the corrected loop over already-split entries |
| Start.CommandFor | cmd/agents_gateway/server/start.go:20-24 | the catalog entry's command when the image is listed, else none |
| Start.StartMCPClient | cmd/agents_gateway/server/start.go:14-55 | (with the corrected environment of `ConfigArgs`) a listing error is wrapped as "listing servers: "; a malformed entry as "invalid config format: "; a start failure as "failed to start server <image>: "; otherwise a fresh started client with the entries' arguments and bindings and the listed command; a client is returned exactly when there is no error |
| Start.GatewayStartMCPClient | gateway/cmd/agents_gateway/server/server.go:70-100 | (with the corrected environment of `ConfigArgs`) the same without the server listing and with no command; a fresh client has sent only its initialize request |
| Parse.TrimAll | cmd/agents_gateway/server/parse.go:16-18 | one trimmed piece per piece |
| Parse.TrimAllAt | cmd/agents_gateway/server/parse.go:17 | piece i is the trimmed piece i |
| Parse.TrimAllKeeps | cmd/agents_gateway/server/parse.go:17 | pieces already trimmed come back unchanged |
| Parse.ParseCommaSeparated | cmd/agents_gateway/server/parse.go:13-21 | the loop yields the trimmed comma-separated pieces |
| Parse.ParseServers | cmd/agents_gateway/server/parse.go:5-7 | the server list is the comma list |
| Parse.ParseConfig | cmd/agents_gateway/server/parse.go:9-11 | the config list is the comma list |
| Parse.CommaListLength | cmd/agents_gateway/server/parse.go:13-21 | there is one piece more than there are commas |
| Parse.CommaListTrimmed | cmd/agents_gateway/server/parse.go:17 | every piece is already trimmed |
| Parse.EmptyIsOneBlank | cmd/agents_gateway/server/parse.go:13-21 | the empty string parses to one empty piece, not to no pieces |
| Parse.SplitPieceChars | cmd/agents_gateway/server/parse.go:16 | every character of a piece comes from the input |
| Parse.NoSpaceRoundTrip | cmd/agents_gateway/server/parse.go:13-21 | without white space, joining the pieces with "," gives back the input |
| AgentsMain.ParseCommaSeparated | cmd/agents_gateway/main.go:39-47 | this copy yields the same comma list, one piece more than there are commas |
| AgentsMain.DefaultToolsEnableNothing | cmd/agents_gateway/main.go:20-32 | the default empty -tools flag gives [""], which enables no named tool |
| Handlers.VolumeFlags | cmd/agents_gateway/server/handlers.go:30-32 | a "-v" flag before every volume, in order |
| Handlers.ContainerArgv | cmd/agents_gateway/server/handlers.go:28-34 | the fixed `run --rm -i --init --security-opt no-new-privileges` prefix, the volume flags, the image, then the command |
| Handlers.BuildToolArgv | cmd/agents_gateway/server/handlers.go:28-34 | the argv loop builds the argv with evaluated volumes and command |
| Handlers.AppendVolumes | cmd/agents_gateway/server/handlers.go:30-32 | appends the "-v" flags of the volumes |
| Handlers.Outcome | cmd/agents_gateway/server/handlers.go:37-42 | the result is an error exactly when the container failed |
| Handlers.McpToolHandler | cmd/agents_gateway/server/handlers.go:26-44 | runs docker once with the evaluated argv, never returns a Go error, and wraps the output as a tool result or tool error |
| Handlers.PlainToolArgv | cmd/agents_gateway/server/handlers.go:30-34 | without templates the argv is the container's volumes, image and command verbatim |
| Handlers.BuildLegacyToolArgv | cmd/agents_gateway/server/tools.go:21-26 | volumes are passed verbatim and the replaced command follows the image |
| Handlers.LegacyMcpToolHandler | cmd/agents_gateway/server/tools.go:14-36 | a placeholder error is wrapped as "replacing placeholders: " and nothing runs; otherwise docker runs once and its output becomes the result |
| Handlers.HandlersAgree | cmd/agents_gateway/server/tools.go:14-36 | with template-free volumes, both handlers run the same argv once the command is evaluated |
| Handlers.ArgumentsOf | cmd/agents_gateway/server/handlers.go:22 | missing arguments stay nil; present ones are passed as a fresh map holding them |
| Handlers.CallStarted | cmd/agents_gateway/server/handlers.go:14-23 | a start error is returned before any call; otherwise the client is called once and then closed, and the call's result or wrapped error is returned |
| Handlers.GatewayMcpServerHandler | gateway/cmd/agents_gateway/server/server.go:57-66 | starts a fresh client without pulling, sends initialize, one call and close, and returns the call's result or wrapped error; without a client there is an error and no result |
| Callbacks.ArgumentsToString | pkg/gateway/callbacks.go:68-75 | the JSON text of the arguments, or their `%v` rendering when marshalling fails |
| Callbacks.TextOfAppend | pkg/gateway/callbacks.go:42-50 | the text of a + b is the text of a followed by that of b |
| Callbacks.TextOfNoText | pkg/gateway/callbacks.go:44-49 | content without text items has empty text |
| Callbacks.TextOfTexts | pkg/gateway/callbacks.go:44-49 | text values and text pointers both contribute their text, other content nothing |
| Callbacks.ResponseText | pkg/gateway/callbacks.go:42-50 | the loop concatenates the text of every text content, in order |
| Callbacks.ScanOffIsNext | pkg/gateway/callbacks.go:26-37 | without scanning, the answer is the wrapped handler's |
| Callbacks.ArgumentSecretRefused | pkg/gateway/callbacks.go:26-30 | a secret in the arguments refuses the call with "a secret is being passed to tool <name>" |
| Callbacks.NextErrorPassesThrough | pkg/gateway/callbacks.go:34-37 | a handler error is returned as it is |
| Callbacks.ResponseSecretDegrades | pkg/gateway/callbacks.go:39-55 | a secret in the response turns it into a tool error "a secret is being returned by the <name> tool", with no Go error |
| Callbacks.CleanCallPassesThrough | pkg/gateway/callbacks.go:17-63 | a scanned call with no secret on either side returns the handler's answer |
| Callbacks.Call | pkg/gateway/callbacks.go:15-66 | the answer is the middleware's outcome; the call is logged first exactly when logging is on; the handler runs exactly when the arguments are not refused; the response is scanned exactly when scanning is on and the handler succeeded |
| LegacyCallbacks.Call | gateway/cmd/agents_gateway/server/callbacks.go:13-33 | a secret in the arguments refuses the call after the scan alone; otherwise the handler's answer is returned, logged exactly when logging is on, and never scanned |
| LightGateway.ToolNeeded | gateway/cmd/agents_gateway/main.go:40-43 | the loop collects the untrimmed comma segments of the flag as a set |
| LightGateway.NeededNeverEmpty | gateway/cmd/agents_gateway/main.go:40-43 | the set is never empty (an empty flag gives {""}), so the list filter's "no tools named" branch never applies |
| LightGateway.NeededUntrimmed | gateway/cmd/agents_gateway/main.go:41-42 | segments are not trimmed: "a,b" gives exactly {a, b} |
| LightGateway.CommaNameNeverNeeded | gateway/cmd/agents_gateway/main.go:41-42 | a name holding a comma is never needed |
| LightGateway.KeptMembers | gateway/cmd/agents_gateway/main.go:63-68 | a tool is kept exactly when it was listed and the set is empty or names it |
| LightGateway.KeptAppend | gateway/cmd/agents_gateway/main.go:64-68 | the filter works tool by tool, in order |
| LightGateway.ListToolsHandler | gateway/cmd/agents_gateway/main.go:57-73 | an upstream error is returned as is; otherwise the filtered list |
| LightGateway.CallToolHandler | gateway/cmd/agents_gateway/main.go:74-103 | an unrequested tool fails with "tool <name> is not available" before anything else; a secret in the arguments refuses the call after the scan; otherwise the upstream answer is returned, logged exactly when logging is on |
| McpGatewayFlags.Flags.ContainerName | cmd/docker-mcpgateway/flags.go:15-17 | "<project>-<provider>-<network>" |
| McpGatewayFlags.Flags.NetworkName | cmd/docker-mcpgateway/flags.go:19-21 | "<project>_<network>" |
| McpGatewayFlags.IsYesAscii | cmd/docker-mcpgateway/flags.go:23-33 | a switch is on exactly when its value is "yes" up to case |
| McpGatewayFlags.OnlyYesIsOn | cmd/docker-mcpgateway/flags.go:23-33 | "yes", "YES" and "Yes" switch on; "true", "1", "on", "y" and "yes " do not |
| McpGatewayFlags.SwitchesIndependent | cmd/docker-mcpgateway/flags.go:23-33 | each switch reads only its own field |
| McpGatewayFlags.ContainerNamesDistinct | cmd/docker-mcpgateway/flags.go:15-17 | different providers get different container names |
| AgenticFlags.Flags.AgentsContainerName | cmd/docker-agentic/flags.go:17-19 | "<project>-agents-<provider>-<network>" |
| AgenticFlags.Flags.UIContainerName | cmd/docker-agentic/flags.go:21-23 | "<project>-ui-<provider>-<network>" |
| AgenticFlags.Flags.NetworkName | cmd/docker-agentic/flags.go:25-27 | "<project>_<network>" |
| AgenticFlags.ContainersDiffer | cmd/docker-agentic/flags.go:3-23 | an agents container name never equals a UI container name |
| MockGateway.LoadKeepsKeyed | agno/mock-gateway/main.go:54-55 | loading keeps every mock stored under its "tool:method" key and never drops a key |
| MockGateway.SkipsOtherFiles | agno/mock-gateway/main.go:40-42 | files not ending in ".json" are skipped |
| MockGateway.LaterFileWins | agno/mock-gateway/main.go:54-55 | of two files for one key, the later one is kept |
| MockGateway.BadFileStops | agno/mock-gateway/main.go:44-52 | an unreadable or unparsable mock file stops the walk with a "failed to ..." error, keeping the mocks loaded so far |
| MockGateway.Route | agno/mock-gateway/main.go:71-79 | a path routes exactly when, trimmed of "/" and split on "/", it has at least three parts and the first is "mcp" |
| MockGateway.RouteIgnoresExtra | agno/mock-gateway/main.go:71-79 | "/mcp/tool/method/extra" routes to "tool:method", ignoring the extra parts |
| MockGateway.SplitThree | agno/mock-gateway/main.go:71-78 | a path starting "a/b/c" splits into parts a, b and c first |
| MockGateway.MockGatewayServer.constructor | agno/mock-gateway/main.go:27-31 | a new gateway has no mocks |
| MockGateway.MockGatewayServer.LoadMocks | agno/mock-gateway/main.go:34-60 | the walk leaves the mocks and the error the file-by-file loading specifies |
| MockGateway.MockGatewayServer.HandleMCPCall | agno/mock-gateway/main.go:63-115 | a non-POST is 405 "Method not allowed"; a bad path is 400 with the expected format; an unreadable body is 400; an unknown key gets the "No mock configured for <key>" body; a known key gets its response, or 500 "Failed to encode response" |
| MockGateway.MockGatewayServer.HandleHealth | agno/mock-gateway/main.go:118-125 | reports "healthy" and the number of mocks |
| MockGateway.MockGatewayServer.HandleListMocks | agno/mock-gateway/main.go:128-140 | lists every mock key once, with the count equal to the number of mocks |
| MockMcpServer.MethodOf | agno/mock-gateway/tcp_server.go:135-139 | a key names a tool exactly when it has exactly one ":" |
| MockMcpServer.ToolsListed | agno/mock-gateway/tcp_server.go:133-149 | a tool is listed exactly when some "tool:method" key gives its name, described as "Mock tool for <key>" |
| MockMcpServer.ToolsListMocks | agno/mock-gateway/tcp_server.go:133-149 | the same, stated over the mocks map in whatever order it is visited |
| MockMcpServer.FindMockFinds | agno/mock-gateway/tcp_server.go:177-184 | a mock is found exactly when some key's method part is the requested name, and it is that key's mock |
| MockMcpServer.FindMockInMocks | agno/mock-gateway/tcp_server.go:177-184 | the same over the mocks map |
| MockMcpServer.Respond | agno/mock-gateway/tcp_server.go:111-220 | every response is JSON-RPC "2.0" and echoes the request id |
| MockMcpServer.RespondCodes | agno/mock-gateway/tcp_server.go:115-219 | initialize answers protocol "2024-11-05" as "mock-gateway" 1.0.0; tools/list answers a tool list; undecodable call params give -32602 "Invalid params"; other methods -32601 "Method not found: <method>" |
| MockMcpServer.CallAnswered | agno/mock-gateway/tcp_server.go:176-208 | a call is answered with content exactly when a mock's method matches, and the text is that mock's `%v` response; otherwise -32601 "Tool not found: <name>" |
| MockMcpServer.RepliesUnfold | agno/mock-gateway/tcp_server.go:71-101 | each line contributes its reply, and the loop stops after a reply that cannot be sent |
| MockMcpServer.RepliesBound | agno/mock-gateway/tcp_server.go:71-101 | at most one reply per line |
| MockMcpServer.RepliesFromLines | agno/mock-gateway/tcp_server.go:71-101 | every reply answers some line of the connection |
| MockMcpServer.ParseErrorContinues | agno/mock-gateway/tcp_server.go:79-92 | an unparsable line is answered with the -32700 "Parse error" response with a null id, and reading goes on |
| MockMcpServer.BlankLineIgnored | agno/mock-gateway/tcp_server.go:73-75 | a blank line gets no reply |
| MockMcpServer.EncodeFailureStops | agno/mock-gateway/tcp_server.go:94-98 | a reply that cannot be encoded ends the connection |
| MockMcpServer.McpServer.constructor | agno/mock-gateway/tcp_server.go:42-46 | a new server has no mocks |
| MockMcpServer.McpServer.LoadMocks | agno/mock-gateway/tcp_server.go:49-60 | loads into a fresh map, and replaces the mocks only when loading succeeds |
| MockMcpServer.McpServer.ListTools | agno/mock-gateway/tcp_server.go:133-149 | the loop lists the tools the specification gives for the visiting order |
| MockMcpServer.McpServer.FindMockFor | agno/mock-gateway/tcp_server.go:177-184 | the loop finds the first mock, in visiting order, whose method matches |
| MockMcpServer.McpServer.HandleRequest | agno/mock-gateway/tcp_server.go:111-220 | the answer is the specified response |
| MockMcpServer.McpServer.HandleLine | agno/mock-gateway/tcp_server.go:72-100 | one line is handled as specified: skipped, answered, or answered and stopping |
| MockMcpServer.McpServer.HandleConnection | agno/mock-gateway/tcp_server.go:63-108 | the replies sent are exactly those the line-by-line specification gives |
| DebugClient.Dispatch | gateway/cmd/client/main.go:21-47 | no argument or an unknown command gives the usage; "list" and "count" list tools, verbosely only for "list"; "call" passes the remaining arguments |
| DebugClient.ParseArgs | gateway/cmd/client/main.go:156-175 | the loop builds the parsed argument map |
| DebugClient.SplitsAtFirstEquals | gateway/cmd/client/main.go:160-162 | "key=value" binds key to the string value, even when the value holds "=" |
| DebugClient.NoEqualsIsNil | gateway/cmd/client/main.go:163-165 | an argument without "=" binds itself to nil |
| DebugClient.BindingKeys | gateway/cmd/client/main.go:159-166 | the keys are exactly the arguments' keys |
| DebugClient.LastBindingWins | gateway/cmd/client/main.go:159-166 | a repeated key keeps its last value |
| DebugClient.ParsedNeverEmpty | gateway/cmd/client/main.go:168-172 | the map is never empty: no arguments give "args": "..." |
| DebugClient.Digit | gateway/cmd/client/main.go:79-82 | the character of a decimal digit |
| DebugClient.Decimal | gateway/cmd/client/main.go:79-82 | the printed count is a non-empty string of digits |
| DebugClient.DecimalDenotes | gateway/cmd/client/main.go:79-82 | the digits denote the count, with no leading zero |
| DebugClient.StartError | gateway/cmd/client/main.go:127-154 | starting fails exactly when dialing, starting or initializing fails |
| DebugClient.ContentLinesAt | gateway/cmd/client/main.go:116-122 | one printed line per content item, in order |
| DebugClient.PrintContent | gateway/cmd/client/main.go:116-122 | the loop prints the text of text content and any other content as it is |
| DebugClient.Call | gateway/cmd/client/main.go:88-125 | no tool name is an error before connecting; a start error stops after connecting; otherwise one call with the parsed arguments, a "calling tool: " error, an "error calling tool: <name>" result, or the content printed line by line; the client is closed explicitly and again by the deferred close |
| DebugClient.List | gateway/cmd/client/main.go:61-86 | a start, list or marshalling error is wrapped with its own prefix and prints nothing; otherwise "<n> tools:" and the JSON for list, or "<n> tools" for count, and the client is closed |
| EditCallbacks.CutAtFirstMark | adk/agents/sub_agents/reviser/agent.py:41-46 | at the first text part holding the mark, the later parts are dropped and that part keeps only its text before the mark |
| EditCallbacks.UnmarkedUnchanged | adk/agents/sub_agents/reviser/agent.py:41-46 | parts without the mark are left as they are |
| EditCallbacks.NoMarkLeft | adk/agents/sub_agents/reviser/agent.py:41-46 | no part is added, a non-empty list stays non-empty, and no part holds the mark afterwards |
| EditCallbacks.EditMarkRemovedIdempotent | adk/agents/sub_agents/reviser/agent.py:34-47 | removing the mark twice is removing it once |
| EditCallbacks.RemoveEndOfEditMark | adk-sock-shop/agents/sub_agents/customer_feedback/agent.py:20-33 | the same response is returned, its content cut at the mark (none, or no parts, is left alone) and its grounding metadata unchanged |
| EditCallbacks.RoleOr | adk/agents/sub_agents/reviser/agent.py:73 | a missing or empty role becomes "user", so a role is never empty |
| EditCallbacks.PartTexts | adk/agents/sub_agents/reviser/agent.py:70 | one text per part, with "" for a part without text |
| EditCallbacks.CollapseAlternates | adk/agents/sub_agents/reviser/agent.py:87-92 | collapsing never adds a message, keeps the first and last roles, and leaves no two neighbours with one role |
| EditCallbacks.AlternatingUnchanged | adk/agents/sub_agents/reviser/agent.py:87-92 | messages whose roles already alternate are kept as they are |
| EditCallbacks.CollapseIdempotent | adk/agents/sub_agents/reviser/agent.py:87-92 | collapsing twice is collapsing once |
| EditCallbacks.Texts | adk/agents/sub_agents/reviser/agent.py:90 | one text per message |
| EditCallbacks.TextsSnoc | adk/agents/sub_agents/reviser/agent.py:90 | the texts of one more message end with its text |
| EditCallbacks.JoinSnoc | adk/agents/sub_agents/reviser/agent.py:70 | joining one more text appends the separator and that text |
| EditCallbacks.JoinMerge | adk/agents/sub_agents/reviser/agent.py:90 | appending "\n" + b to the last text is joining b as one more text |
| EditCallbacks.CollapseKeepsText | adk-sock-shop/agents/sub_agents/customer_feedback/agent.py:72-79 | the newline-joined text of all messages is the same before and after merging |
| EditCallbacks.ForcedIsSingleText | adk/agents/sub_agents/reviser/agent.py:58-93 | every resulting content has a non-empty role and exactly one text part |
| EditCallbacks.SinglesHaveRoles | adk/agents/sub_agents/reviser/agent.py:60-92 | every collapsed message has a non-empty role |
| EditCallbacks.RolesKept | adk/agents/sub_agents/reviser/agent.py:87-92 | every collapsed role is the role of some input message |
| EditCallbacks.ForceStringContent | adk-sock-shop/agents/sub_agents/customer_feedback/agent.py:36-80 | the contents are replaced by the single-text, role-collapsed form of the old contents |
| EditCallbacks.CollapseMessages | adk/agents/sub_agents/reviser/agent.py:87-92 | the loop merges each message into the last one exactly when their roles agree |
| CriticCallbacks.Fields | demos/adk/agents/sub_agents/critic/agent.py:44-51 | a retrieved context gives its title, URI and text; otherwise (a web page or nothing) the text is empty |
| CriticCallbacks.Items | demos/adk/agents/sub_agents/critic/agent.py:52 | at most the title and the text, keeping only the non-empty ones |
| CriticCallbacks.Line | demos/adk/agents/sub_agents/critic/agent.py:52-56 | a chunk gives no line exactly when its title and text are both empty; a line starts with "* " and ends with a newline |
| CriticCallbacks.References | demos/adk/agents/sub_agents/critic/agent.py:43-56 | at most one reference line per chunk |
| CriticCallbacks.ChunkSources | demos/adk/agents/sub_agents/critic/agent.py:45-51 | the retrieved context wins over the web page; a web page is read as a context without text; a chunk with neither gives no line |
| CriticCallbacks.LinkedTitle | demos/adk/agents/sub_agents/critic/agent.py:53-56 | with a title and a URI the line is "* [title](uri)", then ": text" when there is text, then a newline |
| CriticCallbacks.ReferencesFromChunks | demos/adk/agents/sub_agents/critic/agent.py:43-56 | every reference line is the line of some chunk |
| CriticCallbacks.NoReferences | demos/adk/agents/sub_agents/critic/agent.py:55-57 | there are no references exactly when no chunk gives a line |
| CriticCallbacks.ConcatCons | demos/adk/agents/sub_agents/critic/agent.py:58 | joining with "" after a head is the head followed by the join of the rest |
| CriticCallbacks.ReferenceTextHeader | demos/adk/agents/sub_agents/critic/agent.py:58 | the reference text is the "Reference:" header followed by the lines in order |
| CriticCallbacks.JoinPrefix | demos/adk/agents/sub_agents/critic/agent.py:61 | the joined text starts with the first part's text |
| CriticCallbacks.JoinSuffix | demos/adk/agents/sub_agents/critic/agent.py:61 | the joined text ends with the last part's text |
| CriticCallbacks.JoinContains | demos/adk/agents/sub_agents/critic/agent.py:61 | the joined text contains every part's text |
| CriticCallbacks.RenderedRole | demos/adk/agents/sub_agents/critic/agent.py:36-64 | with content, parts and metadata, the role is kept and the parts become the folded parts with the references appended |
| CriticCallbacks.AppendedOnly | demos/adk/agents/sub_agents/critic/agent.py:57-63 | when some part has no text nothing is folded: the old parts stay first, followed by one reference part when there are references |
| CriticCallbacks.FoldedText | demos/adk/agents/sub_agents/critic/agent.py:57-63 | when all parts are text they become one part that starts with the first text, contains every old text, and ends with the reference text when there is one |
| CriticCallbacks.ReferenceLine | demos/adk/agents/sub_agents/critic/agent.py:44-56 | the loop body computes a chunk's line |
| CriticCallbacks.CollectReferences | demos/adk/agents/sub_agents/critic/agent.py:42-56 | the loop collects the references |
| CriticCallbacks.RenderReference | demos/adk/agents/sub_agents/critic/agent.py:30-64 | the same response is returned, its content rendered from the old content and metadata (left alone without content, parts or metadata), and its metadata unchanged |
| CriticCallbacks.StrictSinglesAgree | demos/adk/agents/sub_agents/critic/agent.py:82-83 | converting fails with "'NoneType' object is not iterable" exactly when some content has no parts, and otherwise gives each input's single message |
| CriticCallbacks.StrictForcedAgrees | demos/adk/agents/sub_agents/critic/agent.py:66-104 | without part-less content this callback agrees with the reviser's; with one it raises the TypeError |
| CriticCallbacks.ForceStringContent | demos/adk/agents/sub_agents/critic/agent.py:66-104 | on success the contents are replaced by the collapsed single-text form; on the TypeError the contents are left unchanged and the error is returned |
| CriticCallbacks.StrictPrefixFails | demos/adk/agents/sub_agents/critic/agent.py:75-94 | once a prefix of the inputs fails, the whole conversion fails with that error |
| McpToolsets.ParseSpec | adk/agents/sub_agents/critic/tools.py:31-33 | a spec parses exactly when it starts with "mcp/" and holds a ":"; it is then "mcp/" + server + ":" + tool, with no ":" in the server |
| McpToolsets.ParseAllSpec | adk/agents/sub_agents/critic/tools.py:30-35 | parsing fails with "Bad MCP spec: " and the first bad spec; otherwise every spec gives its server and its filter entry (the bare tool in this version, "server:tool" in demos/adk/agents/sub_agents/critic/tools.py:33) |
| McpToolsets.ParseAllFails | adk/agents/sub_agents/critic/tools.py:30-32 | once a prefix of the specs fails, the whole list fails the same way |
| McpToolsets.ServersDistinct | adk/agents/sub_agents/critic/tools.py:29-55 | the servers of the grouping are distinct and are exactly the servers some spec names |
| McpToolsets.ServersPrefix | adk/agents/sub_agents/critic/tools.py:29-35 | the servers of a prefix of the specs come first, in the same order (a defaultdict keeps first-insertion order) |
| McpToolsets.ToolsOfUnnamed | adk/agents/sub_agents/critic/tools.py:35 | a server no spec names gets no tools |
| McpToolsets.GroupedByServer | adk/agents/sub_agents/critic/tools.py:29-35 | there is one group per server, in first-seen order, holding that server's tools in spec order |
| McpToolsets.GroupStep | adk/agents/sub_agents/critic/tools.py:33-35 | one more good spec appends its entry to its server's group, or opens a new group |
| McpToolsets.GroupFails | adk/agents/sub_agents/critic/tools.py:31-32 | a bad spec after good ones raises "Bad MCP spec: " with its text |
| McpToolsets.GroupSpecs | adk/agents/sub_agents/critic/tools.py:29-35 | the loop gives the grouping of the specs, or the error of the first bad one |
| McpToolsets.PortOr80 | adk/agents/sub_agents/critic/tools.py:43 | a given non-zero port is kept; otherwise port 80 |
| McpToolsets.HttpEndpoint | adk/agents/sub_agents/critic/tools.py:39-45 | an http(s) endpoint without a host name raises "invalid MCP gateway URL" (not checked in demos/adk/agents/sub_agents/critic/tools.py:36-40); on success the gateway answered at the host and the port or 80, and the connection is SSE to the endpoint |
| McpToolsets.StdioEndpoint | adk/agents/sub_agents/critic/tools.py:46-52 | any other endpoint without exactly one ":" raises a ValueError; on success it is host:port with an integer port, and the connection runs socat with STDIO and TCP:endpoint |
| McpToolsets.EmptyConfig | adk/agents/sub_agents/critic/tools.py:26-27 | an empty or missing configuration gives no toolsets, whatever the environment |
| McpToolsets.BadSpecFirst | adk/agents/sub_agents/critic/tools.py:30-32 | the first bad spec raises its error before the environment is read |
| McpToolsets.FirstBadUnique | adk/agents/sub_agents/critic/tools.py:30-32 | the first bad spec is unique |
| McpToolsets.ToolsetsPerServer | adk/agents/sub_agents/critic/tools.py:37-59 | on success the endpoint variable is set, the gateway was reached, and there is one toolset per server, in order, each with the shared connection and that server's tools |
| McpToolsets.CreateMcpToolsets | adk/agents/sub_agents/critic/tools.py:22-59 | the function returns the toolsets, or raises the ValueError, KeyError or RuntimeError of the step that failed |
| AgentIds.AgentId | a2a/src/AgentKit/agent/agent_id.py:4-5 | the id is never longer than the name |
| AgentIds.OnlyWords | a2a/src/AgentKit/agent/agent_id.py:5 | an id holds only word characters (letters, digits, `_`) |
| AgentIds.Unfold | a2a/src/AgentKit/agent/agent_id.py:5 | the id of a name grown by one character keeps, drops or starts a run for that character |
| AgentIds.WordsKept | a2a/src/AgentKit/agent/agent_id.py:5 | a name of word characters only is its own id |
| AgentIds.Idempotent | a2a/src/AgentKit/agent/agent_id.py:5 | deriving the id of an id changes nothing |
| AgentIds.RunBecomesUnderscore | a2a/src/AgentKit/agent/agent_id.py:5 | a non-empty run of non-word characters becomes one `_` |
| AgentIds.SplitAtWord | a2a/src/AgentKit/agent/agent_id.py:5 | two pieces of a name that do not split a run of non-word characters derive their ids separately |
| AgentIds.StepAfter | a2a/src/AgentKit/agent/agent_id.py:5 | growing the second piece grows the joined id the same way |
| AgentIds.MaximalRun | a2a/src/AgentKit/agent/agent_id.py:5 | a maximal run of non-word characters between words becomes exactly one `_`, the rest deriving unchanged |
| A2aConfig.NewModelSpec | a2a/src/AgentKit/agent/config.py:10-17 | a model specification without a provider by default |
| A2aConfig.NewAgentConfig | a2a/src/AgentKit/agent/config.py:25-40 | a new configuration is an LLM agent with every other field unset |
| A2aConfig.AgentIdOf | a2a/src/AgentKit/agent/config.py:42-46 | a set, non-empty id is used as given; otherwise the id derived from the name, made of word characters and no longer than the name |
| A2aConfig.EmptyIdIgnored | a2a/src/AgentKit/agent/config.py:44 | an empty id counts as none, and a fresh configuration takes its id from its name |
| DemosConfig.NewModelSpec | demos/a2a/src/AgentKit/agent/config.py:8-15 | a model specification without a provider by default |
| DemosConfig.NewAgentConfig | demos/a2a/src/AgentKit/agent/config.py:18-29 | the name, the model and the skills are required; the other fields are unset |
| DemosConfig.AgentIdOf | demos/a2a/src/AgentKit/agent/config.py:31-35 | a set, non-empty id is used as given; otherwise the name with each space made `_` and lowercased, of the same length and without spaces |
| DemosConfig.OnlySpacesReplaced | demos/a2a/src/AgentKit/agent/config.py:35 | characters other than spaces and capitals are kept in place |
| AgentKit.Resolve | a2a/src/AgentKit/agent/agent.py:164-169 | a missing type is resolved as LLM; the class registered for the resolved type is found exactly when there is one, else "Unknown agent type: " with the configured type |
| AgentKit.MissingTypeIsLlm | a2a/src/AgentKit/agent/agent.py:165-166 | a configuration without a type is built exactly as an LLM one |
| AgentKit.SubAgents | a2a/src/AgentKit/agent/agent.py:79-85 | one proxy per configured sub-agent URL, in order, and none for a missing or empty list |
| AgentKit.InstantiateSpec | a2a/src/AgentKit/agent/agent.py:38-48 | a built agent has the registered class, its configuration, one proxy per sub-agent, and the configuration's id as both user id and app name; otherwise the unknown-type error |
| AgentKit.Registry.constructor | a2a/src/AgentKit/agent/agent.py:30 | the registry starts empty |
| AgentKit.Registry.Register | a2a/src/AgentKit/agent/agent.py:172-190 | a fresh type records the class and gives it back; a taken type raises "class … is already registered for …" and keeps its first class |
| AgentKit.Registry.FromConfig | a2a/src/AgentKit/agent/agent.py:163-170 | building from a configuration gives the agent of the registered class, or the unknown-type error |
| AgentKit.TextsOf | a2a/src/AgentKit/agent/agent.py:119 | at most one text per part |
| AgentKit.FirstFunctionResponse | a2a/src/AgentKit/agent/agent.py:121-130 | the function response of the first part that has one, and none only when no part has one |
| AgentKit.FinalResponse | a2a/src/AgentKit/agent/agent.py:112-130 | when the first part has text the response is text starting with it; a dictionary response is the first function response and only when the first part has no text |
| AgentKit.FirstTextFirst | a2a/src/AgentKit/agent/agent.py:116-119 | when the first part has text it is the first of the joined texts |
| AgentKit.JoinStartsWithFirst | a2a/src/AgentKit/agent/agent.py:118 | a newline join starts with its first item |
| AgentKit.Stream | a2a/src/AgentKit/agent/agent.py:107-149 | the loop yields one update per runner event, each computed from the text accumulated before it |
| AgentKit.UpdatesSnoc | a2a/src/AgentKit/agent/agent.py:108-149 | one more event appends its own update to the earlier ones |
| AgentKit.AccumulateParts | a2a/src/AgentKit/agent/agent.py:142-145 | the texts of a progress event's parts are appended in order |
| AgentKit.EventTextEmpty | a2a/src/AgentKit/agent/agent.py:143-145 | a progress event adds nothing exactly when none of its parts has text |
| AgentKit.AccumulatedSaid | a2a/src/AgentKit/agent/agent.py:141-145 | text is accumulated exactly when some progress event had a part with text |
| AgentKit.StreamAnswers | a2a/src/AgentKit/agent/agent.py:111-149 | a final event completes the task, with the accumulated text when progress events had text and its own response otherwise; any other event yields "Processing..." |
| ProxyAgent.NewProxy | demos/a2a/src/AgentKit/agent/proxy.py:35-37 | the proxy is named by the id derived from its URL and uses the URL as its output key |
| ProxyAgent.LatestOutput | demos/a2a/src/AgentKit/agent/proxy.py:222-224 | the newest state key ending in "_result" or "_output", and none only when no key does |
| ProxyAgent.FirstUserMessage | demos/a2a/src/AgentKit/agent/proxy.py:228-234 | the first session event with user content and at least one part, and none only when there is none |
| ProxyAgent.GetInputFromState | demos/a2a/src/AgentKit/agent/proxy.py:217-236 | the newest output value; else the first part's text of the first user message; else "No input found" |
| ProxyAgent.LatestIs | demos/a2a/src/AgentKit/agent/proxy.py:222-224 | an output key with no output key after it is the one chosen |
| ProxyAgent.NoOutput | demos/a2a/src/AgentKit/agent/proxy.py:222-224 | without output keys none is chosen |
| ProxyAgent.SomeOutput | demos/a2a/src/AgentKit/agent/proxy.py:222-224 | with any output key one is chosen |
| ProxyAgent.FirstUserIs | demos/a2a/src/AgentKit/agent/proxy.py:228-234 | the first event that is a user message is the one chosen, and none when there is none |
| ProxyAgent.OutputFirst | demos/a2a/src/AgentKit/agent/proxy.py:222-227 | once the state holds an output key the session events do not matter and a value is found |
| ProxyAgent.UserContentFirst | demos/a2a/src/AgentKit/agent/proxy.py:76-79 | a user content with parts decides the input whatever the state; without one the input comes from the state |

## Left out

- Concurrency: the accept loops, the per-connection goroutines, the `errgroup` of `listTools`, parallel image pulls and the mutexes. Tool aggregation is a sequential fold over the server names.
- Process, Docker and network I/O: spawning containers, the MCP `Initialize`, `ListTools` and `CallTool` exchanges, HTTP servers and TCP connections. Each is a parameter, or a scripted answer, that may fail.
- Go map iteration order: where the source ranges over a map, the model either takes the visiting order as an input sequence or picks an arbitrary key, and states only what holds for every order.
- YAML and JSON decoding and encoding, `json.Marshal`, `json.dumps` and the secret scanner are parameters. `json.dumps` never fails in the model.
- The client packages cmd/agents_gateway/mcp (imported by cmd/agents_gateway/server/start.go:9) and gateway/cmd/agents_gateway/mcp (imported by gateway/cmd/agents_gateway/server/server.go:10) are not part of this model. `Start.StartMCPClient` and `Start.GatewayStartMCPClient` use the client of pkg/mcp/client.go in their place, whose `NewClientArgs` has the same shape.
- `startClient` of gateway/cmd/agents_gateway/main.go, which chooses the upstream host and default endpoint and connects to them, is network set-up and is not modelled. The upstream client is a parameter.
- The `Run` functions beyond their image bookkeeping, image signature verification (cosign, sigstore), the compose provider plugins and pkg/mcp/github.go are not modelled.
- Timing and printing: the 20-second initialize timeout, `time.Since` durations and log lines. Where printing matters it is an event in a trace.
- McpClient.Client.Start: the initialize request records only the client name and version; the protocol version it carries (mcp-go's `LATEST_PROTOCOL_VERSION`) is not modelled.
- McpClient.Client.Start: a client whose initialize fails stays started, as in the source; the model does not describe the container process that is then left running.
- Values.Format and Values.FormatS: maps render as a fixed placeholder; Go's sorted `map[k:v]` text is not modelled. Values.ReflectString gives only the `<T Value>` shape of non-string values.
- Values.Value: a number or a boolean is a `Scalar` carrying its Go type name and its `%v` text as given; how Go formats a float64 (exponents, precision) is not modelled.
- Strs.EqualFold and Strs.Lower fold case on ASCII letters only, while Go's `strings.EqualFold` and Python's `str.lower` use Unicode case folding. Strs.TrimSpace removes Go's `unicode.IsSpace` characters.
- DemosConfig.AgentIdOf: lowercases ASCII capitals only; Python's `lower()` also lowercases other capitals.
- Eval.IsUncPath: the UNC-path regular expression of pkg/eval/paths.go:16 is garbled in the source text. The model takes the standard pattern: two backslashes, a host, a backslash and a share.
- AgentIds.AgentId: Python's Unicode `\w` beyond ASCII is a parameter (`UnicodeWord`), because the Unicode tables are not part of this model.
- McpToolsets.Connect: `urlparse`, the socket probe and `int()` are parameters. The `ValueError` that `urlparse` raises for a malformed port is not modelled.
- The text of Python exception messages (`TypeError`, `ValueError`) is approximated by CPython's usual wording.
- AgentKit.TypeText renders an enum member in an f-string as Python 3.12 does (`AgentType.LLM`).
- AgentKit.Stream: looking up or creating the session, the asynchronous iteration over runner events and `model_dump()` of a function response are left out. The runner's events are an input sequence and a function response is an already-dumped value.
- AgentKit.Proxy: the proxy agents themselves, `Agent.app` (the A2A web server and agent card) and `__str__` are not modelled.
- ProxyAgent: the A2A HTTP client, the streaming and non-streaming requests, the chunk extraction and the write to the session state are network I/O and are not modelled. Only the choice of the forwarded input is.
- `flatten_ddg_output`, which demos/adk/agents/sub_agents/critic/agent.py:28 imports, is not defined in the tools.py it is imported from, and is not modelled.
- Part objects are values: the in-place edits of the callbacks are modelled as replacing the response's content, so aliasing between parts is not captured.
- Callbacks.Outcome requires that the wrapped handler returns a result whenever it returns no error. The source would dereference a nil result there and panic.
- Start.ConfigArgsAsWritten: the environment is computed as if `append` always copied. In Go, once `args` has spare capacity (from the fourth entry on), `env` shares its backing array with `args`, and the next `append` to `args` overwrites the last binding with `-e`; which entry counts start sharing depends on the Go runtime's growth policy. The contract therefore gives the whole environment only for up to two entries. For more entries it gives the length, the prefix shared with the arguments, and a last item that is the last binding or `-e`, which hold either way.
- Start.EntriesAsWritten: the same limit as `Start.ConfigArgsAsWritten`, for the same reason: the environment is exact for up to two entries, and beyond that only its length, its prefix and the two possible last items are stated.
- Start.StartMCPClient: builds the client from the corrected `Start.ConfigArgs`, so the client's environment holds every entry's binding. The source passes `append(args, binding)` (see Findings), which for two or more entries is the as-written environment of `Start.ConfigArgsAsWritten`.
- Start.GatewayStartMCPClient: builds the client from the corrected `Start.ConfigArgs` as well, while gateway/cmd/agents_gateway/server/server.go:87-89 passes the as-written environment.

## Findings

| source | as written | input that shows it | evidently intended | confidence | as-written member | corrected member |
|---|---|---|---|---|---|---|
| cmd/agents_gateway/server/start.go:42-44 | each entry rebuilds the environment from the docker arguments, `env = append(args, binding)`, as gateway/cmd/agents_gateway/server/server.go:87-89 does too | `--config img.A=1,img.B=2` for image `img` | the environment `["A=1", "B=2"]`, while the as-written one is `["-e", "A", "B=2"]` | not executed | Start.AsWrittenLosesFirstBinding | Start.ConfigArgs |
