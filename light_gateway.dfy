/** The light gateway of gateway/cmd/agents_gateway/main.go, which forwards to
    one upstream MCP gateway: the set of tools the `--tools` flag asks for, the
    `tools/list` filter, and the guard in front of `tools/call`. The upstream
    client is a parameter. */
module LightGateway {
  import opened Wrappers
  import opened Strs
  import opened McpTypes
  import opened Callbacks
  import ListTools

  /** The comma segments of the flag, untrimmed, as a set. */
  ghost function Needed(tools: string): set<string> {
    set i | 0 <= i < |Split(tools, ',')| :: Split(tools, ',')[i]
  }

  /** The loop filling `toolNeeded`. */
  method ToolNeeded(tools: string) returns (needed: set<string>)
    ensures needed == Needed(tools)
  {
    var segments := Split(tools, ',');
    needed := {};
    var i := 0;
    while i < |segments|
      invariant 0 <= i <= |segments|
      invariant needed == set j | 0 <= j < i :: segments[j]
    {
      needed := needed + {segments[i]};
      i := i + 1;
    }
  }

  /** The set always has an element, so the "no filter" branch of `tools/list`
      is never taken; an empty flag asks for the tool with the empty name. */
  lemma NeededNeverEmpty(tools: string)
    ensures Split(tools, ',')[0] in Needed(tools)
    ensures |Needed(tools)| > 0
    ensures Needed("") == {""}
  {
    var blank := Split("", ',');
    assert blank == [""];
    assert blank[0] in Needed("");
    assert forall x :: x in Needed("") ==> x == "";
  }

  /** Segments are not trimmed: a space after a comma is part of the name. */
  lemma NeededUntrimmed(a: string, b: string)
    requires ',' !in a && ',' !in b
    ensures Needed(a + "," + b) == {a, b}
  {
    assert Join([a, b], ',') == a + "," + b by {
      assert [a, b][1..] == [b];
    }
    SplitJoin([a, b], ',');
    var segments := Split(a + "," + b, ',');
    assert segments[0] == a && segments[1] == b;
  }

  /** A name holding a comma is never asked for. */
  lemma CommaNameNeverNeeded(tools: string, name: string)
    requires ',' in name
    ensures name !in Needed(tools)
  {
  }

  /** The tools of `list` that the set lets through, in list order. */
  function Kept(needed: set<string>, list: seq<ListTools.McpTool>): seq<ListTools.McpTool>
    decreases |list|
  {
    if |list| == 0 then []
    else
      var last := list[|list| - 1];
      Kept(needed, list[..|list| - 1]) + (if |needed| == 0 || last.name in needed then [last] else [])
  }

  /** A tool is listed exactly when it came from the backend and the set is
      empty or holds its exact name. */
  lemma {:induction false} KeptMembers(needed: set<string>, list: seq<ListTools.McpTool>, t: ListTools.McpTool)
    ensures t in Kept(needed, list) <==> t in list && (|needed| == 0 || t.name in needed)
    decreases |list|
  {
    if |list| > 0 {
      var init := list[..|list| - 1];
      KeptMembers(needed, init, t);
      assert list == init + [list[|list| - 1]];
    }
  }

  /** Filtering keeps the backend's order: it distributes over concatenation. */
  lemma {:induction false} KeptAppend(needed: set<string>, a: seq<ListTools.McpTool>, b: seq<ListTools.McpTool>)
    ensures Kept(needed, a + b) == Kept(needed, a) + Kept(needed, b)
    decreases |b|
  {
    if |b| == 0 {
      assert a + b == a;
    } else {
      var init := b[..|b| - 1];
      assert (a + b)[..|a + b| - 1] == a + init;
      KeptAppend(needed, a, init);
    }
  }

  /** The `tools/list` handler: a backend error is returned as it is; otherwise
      the filtered list, built by the loop of the source. */
  method ListToolsHandler(needed: set<string>, listed: Result<seq<ListTools.McpTool>>)
    returns (tools: Result<seq<ListTools.McpTool>>)
    ensures listed.Err? ==> tools == listed
    ensures listed.Ok? ==> tools == Ok(Kept(needed, listed.value))
  {
    if listed.Err? {
      return listed;
    }
    var list := listed.value;
    var filtered := [];
    var i := 0;
    while i < |list|
      invariant 0 <= i <= |list|
      invariant filtered == Kept(needed, list[..i])
    {
      assert list[..i + 1][..i] == list[..i];
      if |needed| == 0 || list[i].name in needed {
        filtered := filtered + [list[i]];
      }
      i := i + 1;
    }
    assert list[..i] == list;
    return Ok(filtered);
  }

  /** The `tools/call` handler: a tool outside the set is refused before any
      scan; secret-bearing arguments are refused before the upstream is called;
      logging follows a clean scan, and the request is forwarded unchanged. */
  method CallToolHandler(needed: set<string>, logCalls: bool, scanSecrets: bool, contains: Scanner,
                         marshal: Marshal, call: Next, request: CallToolRequest)
    returns (result: Option<CallToolResult>, err: Option<string>, trace: seq<Event>)
    ensures request.name !in needed ==>
      result.None? && err == Some("tool " + request.name + " is not available") && trace == []
    ensures request.name in needed && scanSecrets && contains(ArgumentsToString(request.arguments, marshal)) ==>
      result.None? && err == Some("a secret is being passed to tool " + request.name) && trace == [ScanArguments]
    ensures CallNext in trace <==>
      request.name in needed && !(scanSecrets && contains(ArgumentsToString(request.arguments, marshal)))
    ensures CallNext in trace ==> (result, err) == call(request) && trace[|trace| - 1] == CallNext
    ensures LogCall(request.name, ArgumentsToString(request.arguments, marshal)) in trace <==>
      logCalls && CallNext in trace
    ensures scanSecrets && CallNext in trace ==> trace[0] == ScanArguments
  {
    var toolName := request.name;
    if toolName !in needed {
      return None, Some("tool " + toolName + " is not available"), [];
    }
    var arguments := ArgumentsToString(request.arguments, marshal);
    trace := [];
    if scanSecrets {
      trace := trace + [ScanArguments];
      if contains(arguments) {
        return None, Some("a secret is being passed to tool " + toolName), trace;
      }
    }
    if logCalls {
      trace := trace + [LogCall(toolName, arguments)];
    }
    trace := trace + [CallNext];
    var answer := call(request);
    result, err := answer.0, answer.1;
  }
}
