/** The line-oriented JSON-RPC server of agno/mock-gateway/tcp_server.go, which
    answers MCP `initialize`, `tools/list` and `tools/call` from the loaded mocks.

    JSON decoding and encoding are parameters. Go's map iteration order is an
    input: `entries` lists the mocks once each, key with mock, in the order
    the server's `range` loops visit them. */
module MockMcpServer {
  import opened Wrappers
  import opened Strs
  import opened Values
  import opened MockGateway
  import Images

  /** A JSON-RPC request id. */
  datatype Id = NullId | NumberId(n: int) | StringId(s: string)

  /** A decoded request; `params` is the raw text of the parameters, `None`
      when they are absent. */
  datatype Request = Request(jsonrpc: string, id: Id, rpcMethod: string, params: Option<string>)

  /** A `tools/list` item; its input schema is always an empty object schema. */
  datatype ToolEntry = ToolEntry(name: string, description: string)

  datatype Body =
    | InitResult(protocolVersion: string, serverName: string, serverVersion: string)
    | ToolsResult(tools: seq<ToolEntry>)
    | ContentResult(text: string)
    | RpcError(code: int, message: string)

  datatype Response = Response(jsonrpc: string, id: Id, body: Body)

  /** `json.Unmarshal` of a `tools/call` parameter text: the tool name. */
  type ParamsDecode = string -> Option<string>

  /** The reserved codes of section 5.1 of the JSON-RPC 2.0 Specification. */
  const ParseErrorCode := -32700
  const MethodNotFoundCode := -32601
  const InvalidParamsCode := -32602

  /** The MCP protocol revision the server advertises. */
  const ProtocolVersion := "2024-11-05"

  const ParseErrorResponse := Response("2.0", NullId, RpcError(ParseErrorCode, "Parse error"))

  /** The method part of a `tool:method` key: present exactly when the key
      splits at `:` into two parts, that is, holds exactly one `:`. */
  function MethodOf(key: string): (r: Option<string>)
    ensures r.Some? <==> Count(key, ':') == 1
  {
    SplitLength(key, ':');
    var parts := Split(key, ':');
    if |parts| == 2 then Some(parts[1]) else None
  }

  /** A key of the mocks with its mock, as a `range` loop over the map yields it. */
  type Entry = (string, MockResponse)

  /** `entries` is one visit of `mocks` in some iteration order: each key once,
      with its mock. */
  ghost predicate Enumerates(entries: seq<Entry>, mocks: map<string, MockResponse>) {
    && (forall i, j :: 0 <= i < j < |entries| ==> entries[i].0 != entries[j].0)
    && (forall i :: 0 <= i < |entries| ==> entries[i].0 in mocks && mocks[entries[i].0] == entries[i].1)
    && (forall k :: k in mocks ==> exists i :: 0 <= i < |entries| && entries[i].0 == k)
  }

  /** The `tools/list` items, in iteration order. */
  function ToolsFor(entries: seq<Entry>): seq<ToolEntry>
    decreases |entries|
  {
    if |entries| == 0 then []
    else
      var rest := ToolsFor(entries[1..]);
      var key := entries[0].0;
      match MethodOf(key)
      case Some(m) => [ToolEntry(m, "Mock tool for " + key)] + rest
      case None => rest
  }

  /** An item is listed exactly when some two-part key names it, and its
      description names that key. */
  lemma {:induction false} ToolsListed(entries: seq<Entry>, t: ToolEntry)
    ensures t in ToolsFor(entries) <==>
      exists i :: 0 <= i < |entries| && MethodOf(entries[i].0) == Some(t.name) &&
        t.description == "Mock tool for " + entries[i].0
    decreases |entries|
  {
    if |entries| > 0 {
      var rest := entries[1..];
      ToolsListed(rest, t);
      forall i | 0 <= i < |entries| && MethodOf(entries[i].0) == Some(t.name) &&
          t.description == "Mock tool for " + entries[i].0
        ensures t in ToolsFor(entries)
      {
        if i > 0 {
          assert rest[i - 1] == entries[i];
        }
      }
      if t in ToolsFor(rest) {
        var i :| 0 <= i < |rest| && MethodOf(rest[i].0) == Some(t.name) && t.description == "Mock tool for " + rest[i].0;
        assert entries[i + 1] == rest[i];
      }
    }
  }

  /** Over the whole map: every two-part key of the mocks is listed, and
      nothing else is. */
  lemma ToolsListMocks(entries: seq<Entry>, mocks: map<string, MockResponse>, t: ToolEntry)
    requires Enumerates(entries, mocks)
    ensures t in ToolsFor(entries) <==>
      exists k :: k in mocks && MethodOf(k) == Some(t.name) && t.description == "Mock tool for " + k
  {
    ToolsListed(entries, t);
    if exists k :: k in mocks && MethodOf(k) == Some(t.name) && t.description == "Mock tool for " + k {
      var k :| k in mocks && MethodOf(k) == Some(t.name) && t.description == "Mock tool for " + k;
      var i :| 0 <= i < |entries| && entries[i].0 == k;
    }
  }

  /** The mock of the first entry whose method part is `name`. */
  function FindMock(entries: seq<Entry>, name: string): Option<MockResponse>
    decreases |entries|
  {
    if |entries| == 0 then None
    else if MethodOf(entries[0].0) == Some(name) then Some(entries[0].1)
    else FindMock(entries[1..], name)
  }

  /** A mock is found exactly when some key's method part is the name, and then
      it is the mock of such a key. */
  lemma {:induction false} FindMockFinds(entries: seq<Entry>, name: string)
    ensures FindMock(entries, name).Some? <==> exists i :: 0 <= i < |entries| && MethodOf(entries[i].0) == Some(name)
    ensures FindMock(entries, name).Some? ==>
      exists i :: 0 <= i < |entries| && MethodOf(entries[i].0) == Some(name) && entries[i].1 == FindMock(entries, name).value
    decreases |entries|
  {
    if |entries| > 0 {
      var rest := entries[1..];
      FindMockFinds(rest, name);
      if MethodOf(entries[0].0) != Some(name) {
        forall i | 0 <= i < |entries| && MethodOf(entries[i].0) == Some(name)
          ensures 0 < i && rest[i - 1] == entries[i]
        {
        }
        if FindMock(rest, name).Some? {
          var i :| 0 <= i < |rest| && MethodOf(rest[i].0) == Some(name) && rest[i].1 == FindMock(rest, name).value;
          assert entries[i + 1] == rest[i];
        }
      }
    }
  }

  /** The answer of `handleRequest`. Every answer carries version `2.0` and
      the request's id. */
  function Respond(entries: seq<Entry>, paramsDecode: ParamsDecode, request: Request): (r: Response)
    ensures r.jsonrpc == "2.0" && r.id == request.id
  {
    var body :=
      if request.rpcMethod == "initialize" then InitResult(ProtocolVersion, "mock-gateway", "1.0.0")
      else if request.rpcMethod == "tools/list" then ToolsResult(ToolsFor(entries))
      else if request.rpcMethod == "tools/call" then
        match (if request.params.None? then None else paramsDecode(request.params.value))
        case None => RpcError(InvalidParamsCode, "Invalid params")
        case Some(name) =>
          match FindMock(entries, name)
          case Some(mock) => ContentResult(Format(Map(mock.response)))
          case None => RpcError(MethodNotFoundCode, "Tool not found: " + name)
      else RpcError(MethodNotFoundCode, "Method not found: " + request.rpcMethod);
    Response("2.0", request.id, body)
  }

  /** `initialize` always succeeds; a call without usable parameters is invalid;
      any other method is unknown. */
  lemma RespondCodes(entries: seq<Entry>, paramsDecode: ParamsDecode, request: Request)
    ensures var r := Respond(entries, paramsDecode, request);
      && (request.rpcMethod == "initialize" ==> r.body == InitResult(ProtocolVersion, "mock-gateway", "1.0.0"))
      && (request.rpcMethod == "tools/list" ==> r.body.ToolsResult?)
      && (request.rpcMethod == "tools/call" && (request.params.None? || paramsDecode(request.params.value).None?) ==>
            r.body == RpcError(InvalidParamsCode, "Invalid params"))
      && (request.rpcMethod != "initialize" && request.rpcMethod != "tools/list" && request.rpcMethod != "tools/call" ==>
            r.body == RpcError(MethodNotFoundCode, "Method not found: " + request.rpcMethod))
  {
  }

  /** Over the whole map: a mock is found exactly when some key of the mocks
      has the name as its method part, and it is the mock of such a key. */
  lemma FindMockInMocks(entries: seq<Entry>, mocks: map<string, MockResponse>, name: string)
    requires Enumerates(entries, mocks)
    ensures FindMock(entries, name).Some? <==> exists k :: k in mocks && MethodOf(k) == Some(name)
    ensures FindMock(entries, name).Some? ==>
      exists k :: k in mocks && MethodOf(k) == Some(name) && mocks[k] == FindMock(entries, name).value
  {
    FindMockFinds(entries, name);
    if exists k :: k in mocks && MethodOf(k) == Some(name) {
      var k :| k in mocks && MethodOf(k) == Some(name);
      var i :| 0 <= i < |entries| && entries[i].0 == k;
    }
    if FindMock(entries, name).Some? {
      var i :| 0 <= i < |entries| && MethodOf(entries[i].0) == Some(name) && entries[i].1 == FindMock(entries, name).value;
      assert entries[i].0 in mocks;
    }
  }

  /** A call is answered with a mock's response exactly when some key of the
      mocks has the called name as its method part; otherwise the tool is not
      found. */
  lemma CallAnswered(entries: seq<Entry>, mocks: map<string, MockResponse>, paramsDecode: ParamsDecode,
                     request: Request, name: string)
    requires Enumerates(entries, mocks)
    requires request.rpcMethod == "tools/call" && request.params.Some? && paramsDecode(request.params.value) == Some(name)
    ensures (exists k :: k in mocks && MethodOf(k) == Some(name)) <==>
      Respond(entries, paramsDecode, request).body.ContentResult?
    ensures Respond(entries, paramsDecode, request).body.ContentResult? ==>
      exists k :: k in mocks && MethodOf(k) == Some(name) &&
        Respond(entries, paramsDecode, request).body == ContentResult(Format(Map(mocks[k].response)))
    ensures !(exists k :: k in mocks && MethodOf(k) == Some(name)) ==>
      Respond(entries, paramsDecode, request).body == RpcError(MethodNotFoundCode, "Tool not found: " + name)
  {
    FindMockInMocks(entries, mocks, name);
    var body := Respond(entries, paramsDecode, request).body;
    var found := FindMock(entries, name);
    assert body == if found.Some? then ContentResult(Format(Map(found.value.response)))
      else RpcError(MethodNotFoundCode, "Tool not found: " + name);
  }

  /** What the connection loop does with one line: the response it hands to
      the encoder, if any, and whether the loop stops there. Blank lines are
      skipped, an undecodable line gets a parse error and the loop goes on, and
      a response that fails to encode ends the loop. */
  function Step(entries: seq<Entry>, paramsDecode: ParamsDecode,
                line: string, decode: string -> Option<Request>, encodes: Response -> bool)
    : (Option<Response>, bool)
  {
    if TrimSpace(line) == "" then (None, false)
    else match decode(line)
      case None => (Some(ParseErrorResponse), false)
      case Some(request) =>
        var response := Respond(entries, paramsDecode, request);
        (Some(response), !encodes(response))
  }

  /** The responses the connection loop hands to the encoder for `lines`. */
  function Replies(entries: seq<Entry>, paramsDecode: ParamsDecode,
                   lines: seq<string>, decode: string -> Option<Request>, encodes: Response -> bool): seq<Response>
    decreases |lines|
  {
    if |lines| == 0 then []
    else
      var (reply, stop) := Step(entries, paramsDecode, lines[0], decode, encodes);
      (if reply.Some? then [reply.value] else [])
        + (if stop then [] else Replies(entries, paramsDecode, lines[1..], decode, encodes))
  }

  /** `r` is a parse error or the answer to a request decoded from one of `lines`. */
  ghost predicate FromLine(entries: seq<Entry>, paramsDecode: ParamsDecode, r: Response, lines: seq<string>,
                           decode: string -> Option<Request>) {
    r == ParseErrorResponse ||
    exists j :: 0 <= j < |lines| && decode(lines[j]).Some? && r == Respond(entries, paramsDecode, decode(lines[j]).value)
  }

  lemma FromLineTail(entries: seq<Entry>, paramsDecode: ParamsDecode, r: Response, lines: seq<string>,
                     decode: string -> Option<Request>)
    requires |lines| > 0 && FromLine(entries, paramsDecode, r, lines[1..], decode)
    ensures FromLine(entries, paramsDecode, r, lines, decode)
  {
    if r != ParseErrorResponse {
      var j :| 0 <= j < |lines[1..]| && decode(lines[1..][j]).Some? &&
        r == Respond(entries, paramsDecode, decode(lines[1..][j]).value);
      assert lines[1..][j] == lines[j + 1];
    }
  }

  /** The first line's own contribution to the replies. */
  lemma RepliesUnfold(entries: seq<Entry>, paramsDecode: ParamsDecode, lines: seq<string>,
                      decode: string -> Option<Request>, encodes: Response -> bool)
    requires |lines| > 0
    ensures var (reply, stop) := Step(entries, paramsDecode, lines[0], decode, encodes);
      && Replies(entries, paramsDecode, lines, decode, encodes) ==
           (if reply.Some? then [reply.value] else []) +
           (if stop then [] else Replies(entries, paramsDecode, lines[1..], decode, encodes))
      && (reply.Some? ==> FromLine(entries, paramsDecode, reply.value, lines, decode))
  {
    var (reply, stop) := Step(entries, paramsDecode, lines[0], decode, encodes);
    if reply.Some? && reply.value != ParseErrorResponse {
      assert decode(lines[0]).Some?;
    }
  }

  /** No line gets more than one response. */
  lemma {:induction false} RepliesBound(entries: seq<Entry>, paramsDecode: ParamsDecode, lines: seq<string>,
                                        decode: string -> Option<Request>, encodes: Response -> bool)
    ensures |Replies(entries, paramsDecode, lines, decode, encodes)| <= |lines|
    decreases |lines|
  {
    if |lines| > 0 {
      RepliesBound(entries, paramsDecode, lines[1..], decode, encodes);
      RepliesUnfold(entries, paramsDecode, lines, decode, encodes);
    }
  }

  /** Every response is a parse error or the answer to a request decoded from
      one of the lines. */
  lemma {:induction false} RepliesFromLines(entries: seq<Entry>, paramsDecode: ParamsDecode, lines: seq<string>,
                                            decode: string -> Option<Request>, encodes: Response -> bool)
    ensures forall i :: 0 <= i < |Replies(entries, paramsDecode, lines, decode, encodes)| ==>
      FromLine(entries, paramsDecode, Replies(entries, paramsDecode, lines, decode, encodes)[i], lines, decode)
    decreases |lines|
  {
    if |lines| > 0 {
      var rest := lines[1..];
      RepliesFromLines(entries, paramsDecode, rest, decode, encodes);
      RepliesUnfold(entries, paramsDecode, lines, decode, encodes);
      var step := Step(entries, paramsDecode, lines[0], decode, encodes);
      var head := if step.0.Some? then [step.0.value] else [];
      var tail := if step.1 then [] else Replies(entries, paramsDecode, rest, decode, encodes);
      FromLinesJoin(entries, paramsDecode, lines, decode, head, tail);
    }
  }

  /** Responses from the first line followed by responses from the others all
      come from the lines. */
  lemma FromLinesJoin(entries: seq<Entry>, paramsDecode: ParamsDecode, lines: seq<string>,
                      decode: string -> Option<Request>, head: seq<Response>, tail: seq<Response>)
    requires |lines| > 0
    requires forall i :: 0 <= i < |head| ==> FromLine(entries, paramsDecode, head[i], lines, decode)
    requires forall i :: 0 <= i < |tail| ==> FromLine(entries, paramsDecode, tail[i], lines[1..], decode)
    ensures forall i :: 0 <= i < |head + tail| ==> FromLine(entries, paramsDecode, (head + tail)[i], lines, decode)
  {
    forall i | 0 <= i < |head + tail|
      ensures FromLine(entries, paramsDecode, (head + tail)[i], lines, decode)
    {
      if i >= |head| {
        assert (head + tail)[i] == tail[i - |head|];
        FromLineTail(entries, paramsDecode, tail[i - |head|], lines, decode);
      } else {
        assert (head + tail)[i] == head[i];
      }
    }
  }

  /** An undecodable line is answered with a parse error and the loop goes on
      with the next line. */
  lemma ParseErrorContinues(entries: seq<Entry>, paramsDecode: ParamsDecode,
                            line: string, rest: seq<string>, decode: string -> Option<Request>,
                            encodes: Response -> bool)
    requires TrimSpace(line) != "" && decode(line).None?
    ensures Replies(entries, paramsDecode, [line] + rest, decode, encodes) ==
      [ParseErrorResponse] + Replies(entries, paramsDecode, rest, decode, encodes)
  {
    assert ([line] + rest)[1..] == rest;
  }

  /** Blank lines get no response at all. */
  lemma BlankLineIgnored(entries: seq<Entry>, paramsDecode: ParamsDecode,
                         line: string, rest: seq<string>, decode: string -> Option<Request>,
                         encodes: Response -> bool)
    requires TrimSpace(line) == ""
    ensures Replies(entries, paramsDecode, [line] + rest, decode, encodes) ==
      Replies(entries, paramsDecode, rest, decode, encodes)
  {
    assert ([line] + rest)[1..] == rest;
  }

  /** A response that fails to encode is the last one: later lines go unread. */
  lemma EncodeFailureStops(entries: seq<Entry>, paramsDecode: ParamsDecode,
                           line: string, rest: seq<string>, decode: string -> Option<Request>,
                           encodes: Response -> bool)
    requires TrimSpace(line) != "" && decode(line).Some?
    requires !encodes(Respond(entries, paramsDecode, decode(line).value))
    ensures Replies(entries, paramsDecode, [line] + rest, decode, encodes) ==
      [Respond(entries, paramsDecode, decode(line).value)]
  {
  }

  /** The listing from position `i` on, one entry at a time. */
  lemma ToolsForFrom(entries: seq<Entry>, i: nat)
    requires i < |entries|
    ensures ToolsFor(entries[i..]) ==
      (if |Split(entries[i].0, ':')| == 2
       then [ToolEntry(Split(entries[i].0, ':')[1], "Mock tool for " + entries[i].0)] else [])
      + ToolsFor(entries[i + 1..])
  {
    assert entries[i..][1..] == entries[i + 1..];
  }

  /** The search from position `i` on, one entry at a time. */
  lemma FindMockFrom(entries: seq<Entry>, name: string, i: nat)
    requires i < |entries|
    ensures FindMock(entries[i..], name) ==
      if |Split(entries[i].0, ':')| == 2 && Split(entries[i].0, ':')[1] == name then Some(entries[i].1)
      else FindMock(entries[i + 1..], name)
  {
    assert entries[i..][1..] == entries[i + 1..];
  }

  /** Moving one line's reply from the replies still to come onto the replies
      already sent leaves the whole conversation unchanged.  (Stated apart from
      `HandleConnection`, where proving it inline exhausts the solver.) */
  lemma SendReply(sent: seq<Response>, reply: seq<Response>, later: seq<Response>)
    ensures (sent + reply) + later == sent + (reply + later)
  {
  }

  /** The TCP side of the mock gateway. */
  class McpServer {
    var mocks: map<string, MockResponse>

    constructor()
      ensures mocks == map[]
    {
      mocks := map[];
    }

    /** `LoadMocks`: the mocks are replaced only when the whole walk succeeds. */
    method LoadMocks(files: seq<WalkEntry>, decode: Decode) returns (err: Option<string>)
      modifies this
      ensures err == Load(map[], files, decode).1
      ensures err.None? ==> mocks == Load(map[], files, decode).0
      ensures err.Some? ==> mocks == old(mocks)
    {
      var gateway := new MockGatewayServer();
      err := gateway.LoadMocks(files, decode);
      if err.Some? {
        return;
      }
      mocks := gateway.mocks;
    }

    /** The `tools/list` loop over the entries of the mocks. */
    method ListTools(entries: seq<Entry>) returns (tools: seq<ToolEntry>)
      ensures tools == ToolsFor(entries)
    {
      tools := [];
      var i := 0;
      while i < |entries|
        invariant 0 <= i <= |entries|
        invariant tools + ToolsFor(entries[i..]) == ToolsFor(entries)
      {
        ToolsForFrom(entries, i);
        var key := entries[i].0;
        var parts := Split(key, ':');
        if |parts| == 2 {
          tools := tools + [ToolEntry(parts[1], "Mock tool for " + key)];
        }
        i := i + 1;
      }
    }

    /** The `tools/call` search loop, stopping at the first match. */
    method FindMockFor(entries: seq<Entry>, name: string) returns (found: Option<MockResponse>)
      requires Enumerates(entries, mocks)
      ensures found == FindMock(entries, name)
    {
      found := None;
      var i := 0;
      while i < |entries|
        invariant 0 <= i <= |entries|
        invariant FindMock(entries[i..], name) == FindMock(entries, name)
      {
        FindMockFrom(entries, name, i);
        var key := entries[i].0;
        var parts := Split(key, ':');
        if |parts| == 2 && parts[1] == name {
          found := Some(mocks[key]);
          return;
        }
        i := i + 1;
      }
    }

    /** `handleRequest`. */
    method HandleRequest(entries: seq<Entry>, paramsDecode: ParamsDecode, request: Request) returns (response: Response)
      requires Enumerates(entries, mocks)
      ensures response == Respond(entries, paramsDecode, request)
    {
      if request.rpcMethod == "initialize" {
        return Response("2.0", request.id, InitResult(ProtocolVersion, "mock-gateway", "1.0.0"));
      } else if request.rpcMethod == "tools/list" {
        var tools := ListTools(entries);
        return Response("2.0", request.id, ToolsResult(tools));
      } else if request.rpcMethod == "tools/call" {
        if request.params.None? || paramsDecode(request.params.value).None? {
          return Response("2.0", request.id, RpcError(InvalidParamsCode, "Invalid params"));
        }
        var name := paramsDecode(request.params.value).value;
        var found := FindMockFor(entries, name);
        if found.Some? {
          return Response("2.0", request.id, ContentResult(Format(Map(found.value.response))));
        }
        return Response("2.0", request.id, RpcError(MethodNotFoundCode, "Tool not found: " + name));
      }
      return Response("2.0", request.id, RpcError(MethodNotFoundCode, "Method not found: " + request.rpcMethod));
    }

    /** The body of the connection loop for one line. */
    method HandleLine(entries: seq<Entry>, paramsDecode: ParamsDecode, line: string,
                      decode: string -> Option<Request>, encodes: Response -> bool)
      returns (reply: Option<Response>, stop: bool)
      requires Enumerates(entries, mocks)
      ensures (reply, stop) == Step(entries, paramsDecode, line, decode, encodes)
    {
      if TrimSpace(line) == "" {
        return None, false;
      }
      var request := decode(line);
      if request.None? {
        return Some(ParseErrorResponse), false;
      }
      var response := HandleRequest(entries, paramsDecode, request.value);
      return Some(response), !encodes(response);
    }

    /** `HandleConnection`: the responses handed to the encoder, line by line. */
    method HandleConnection(entries: seq<Entry>, paramsDecode: ParamsDecode, lines: seq<string>,
                            decode: string -> Option<Request>, encodes: Response -> bool)
      returns (sent: seq<Response>)
      requires Enumerates(entries, mocks)
      ensures sent == Replies(entries, paramsDecode, lines, decode, encodes)
    {
      sent := [];
      var i := 0;
      while i < |lines|
        invariant 0 <= i <= |lines|
        invariant sent + Replies(entries, paramsDecode, lines[i..], decode, encodes) ==
          Replies(entries, paramsDecode, lines, decode, encodes)
      {
        assert lines[i..][1..] == lines[i + 1..];
        var reply, stop := HandleLine(entries, paramsDecode, lines[i], decode, encodes);
        var head := if reply.Some? then [reply.value] else [];
        SendReply(sent, head, if stop then [] else Replies(entries, paramsDecode, lines[i + 1..], decode, encodes));
        sent := sent + head;
        if stop {
          return;
        }
        i := i + 1;
      }
    }
  }
}
