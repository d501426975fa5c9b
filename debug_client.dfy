/** The command-line debug client of gateway/cmd/client/main.go: command
    dispatch, the `key=value` argument parser, and the `list`, `count` and
    `call` commands against a gateway reached over TCP.

    The connection, the gateway's answers and JSON serialisation are
    parameters; what the client prints is its output, one line per item, and
    what it sends the gateway is a trace of operations. */
module DebugClient {
  import opened Wrappers
  import opened Strs
  import opened Values
  import opened McpTypes
  import ListTools

  /** What `main` runs for its arguments. */
  datatype Command = Usage | ListCommand(verbose: bool) | CallCommand(args: seq<string>)

  /** `main`'s switch on the first argument. */
  function Dispatch(args: seq<string>): (r: Command)
    ensures r.Usage? <==> |args| == 0 || (args[0] != "list" && args[0] != "count" && args[0] != "call")
    ensures r.ListCommand? <==> |args| > 0 && (args[0] == "list" || args[0] == "count")
    ensures r.ListCommand? ==> (r.verbose <==> args[0] == "list")
    ensures r.CallCommand? ==> |args| > 0 && args[0] == "call" && r.args == args[1..]
  {
    if |args| == 0 then Usage
    else if args[0] == "list" then ListCommand(true)
    else if args[0] == "count" then ListCommand(false)
    else if args[0] == "call" then CallCommand(args[1..])
    else Usage
  }

  /** The key of one argument: the text before the first `=`, or the whole
      argument when it has none (`strings.SplitN(arg, "=", 2)`). */
  function KeyOf(arg: string): string {
    var (key, _, found) := Cut(arg, '=');
    if found then key else arg
  }

  /** The value of one argument: the text after the first `=`, or nil. */
  function ValueOf(arg: string): Value {
    var (_, value, found) := Cut(arg, '=');
    if found then Str(value) else Nil
  }

  /** The bindings of `args`, applied in order. */
  function Bindings(args: seq<string>): map<string, Value>
    decreases |args|
  {
    if |args| == 0 then map[]
    else
      var last := args[|args| - 1];
      Bindings(args[..|args| - 1])[KeyOf(last) := ValueOf(last)]
  }

  /** The result of `parseArgs`: the bindings, or the placeholder argument
      when there are none. */
  function Parsed(args: seq<string>): map<string, Value> {
    var bindings := Bindings(args);
    if |bindings| == 0 then map["args" := Str("...")] else bindings
  }

  /** `parseArgs`. */
  method ParseArgs(args: seq<string>) returns (parsed: map<string, Value>)
    ensures parsed == Parsed(args)
  {
    parsed := map[];
    var i := 0;
    while i < |args|
      invariant 0 <= i <= |args|
      invariant parsed == Bindings(args[..i])
    {
      assert args[..i + 1][..i] == args[..i];
      var (key, value, found) := Cut(args[i], '=');
      if found {
        parsed := parsed[key := Str(value)];
      } else {
        parsed := parsed[args[i] := Nil];
      }
      i := i + 1;
    }
    assert args[..i] == args;
    if |parsed| == 0 {
      parsed := parsed["args" := Str("...")];
    }
  }

  /** An argument splits at its first `=`: the value may hold further `=`. */
  lemma SplitsAtFirstEquals(key: string, value: string)
    requires '=' !in key
    ensures KeyOf(key + "=" + value) == key && ValueOf(key + "=" + value) == Str(value)
  {
    CutAt(key, value, '=');
  }

  /** An argument without `=` is a key bound to nil. */
  lemma NoEqualsIsNil(arg: string)
    requires '=' !in arg
    ensures KeyOf(arg) == arg && ValueOf(arg) == Nil
  {
  }

  /** The keys bound are exactly the keys of the arguments. */
  lemma BindingKeys(args: seq<string>, k: string)
    ensures k in Bindings(args) <==> exists i :: 0 <= i < |args| && KeyOf(args[i]) == k
  {
    if k in Bindings(args) {
      BoundHasArgument(args, k);
    }
    if exists i :: 0 <= i < |args| && KeyOf(args[i]) == k {
      var i :| 0 <= i < |args| && KeyOf(args[i]) == k;
      ArgumentIsBound(args, i);
    }
  }

  lemma {:induction false} BoundHasArgument(args: seq<string>, k: string)
    requires k in Bindings(args)
    ensures exists i :: 0 <= i < |args| && KeyOf(args[i]) == k
    decreases |args|
  {
    var n := |args| - 1;
    if KeyOf(args[n]) != k {
      var init := args[..n];
      BoundHasArgument(init, k);
      var i :| 0 <= i < n && KeyOf(init[i]) == k;
      assert init[i] == args[i];
    }
  }

  lemma {:induction false} ArgumentIsBound(args: seq<string>, i: nat)
    requires i < |args|
    ensures KeyOf(args[i]) in Bindings(args)
    decreases |args|
  {
    var n := |args| - 1;
    if i < n {
      var init := args[..n];
      ArgumentIsBound(init, i);
      assert init[i] == args[i];
    }
  }

  /** A key takes the value of its last argument: later duplicates overwrite
      earlier ones. */
  lemma {:induction false} LastBindingWins(args: seq<string>, i: nat)
    requires i < |args|
    requires forall j :: i < j < |args| ==> KeyOf(args[j]) != KeyOf(args[i])
    ensures KeyOf(args[i]) in Bindings(args) && Bindings(args)[KeyOf(args[i])] == ValueOf(args[i])
    decreases |args|
  {
    if i < |args| - 1 {
      var init := args[..|args| - 1];
      assert init[i] == args[i];
      forall j | i < j < |init|
        ensures KeyOf(init[j]) != KeyOf(init[i])
      {
        assert init[j] == args[j];
      }
      LastBindingWins(init, i);
    }
  }

  /** The arguments are never empty: no argument gives exactly the placeholder,
      and any argument gives the bindings alone. */
  lemma ParsedNeverEmpty(args: seq<string>)
    ensures |Parsed(args)| > 0
    ensures |args| == 0 ==> Parsed(args) == map["args" := Str("...")]
    ensures |args| > 0 ==> Parsed(args) == Bindings(args)
  {
    if |args| > 0 {
      BindingKeys(args, KeyOf(args[0]));
      assert KeyOf(args[0]) in Bindings(args);
    }
  }

  /** One decimal digit. */
  function Digit(d: nat): (r: char)
    requires d < 10
    ensures '0' <= r <= '9' && r as int - '0' as int == d
  {
    ('0' as int + d) as char
  }

  /** The decimal rendering of a count, as `fmt.Println` prints an `int`. */
  function Decimal(n: nat): (r: string)
    ensures |r| > 0 && forall i :: 0 <= i < |r| ==> '0' <= r[i] <= '9'
    decreases n
  {
    if n < 10 then [Digit(n)] else Decimal(n / 10) + [Digit(n % 10)]
  }

  /** The number a string of decimal digits denotes. */
  ghost function DigitsValue(s: string): int
    decreases |s|
  {
    if |s| == 0 then 0 else DigitsValue(s[..|s| - 1]) * 10 + (s[|s| - 1] as int - '0' as int)
  }

  /** `Decimal` denotes its argument and has no leading zero. */
  lemma {:induction false} DecimalDenotes(n: nat)
    ensures DigitsValue(Decimal(n)) == n
    ensures Decimal(n)[0] == '0' ==> n == 0
    decreases n
  {
    if n >= 10 {
      DecimalDenotes(n / 10);
      var r := Decimal(n);
      assert r[..|r| - 1] == Decimal(n / 10);
    }
  }

  /** What connecting to the gateway yields: the error of each stage of
      `start` (dialing, starting the transport, initializing), if any. */
  datatype Connection = Connection(dialErr: Option<string>, startErr: Option<string>, initErr: Option<string>)

  /** The error `start` returns: the first stage that fails. */
  function StartError(conn: Connection): (r: Option<string>)
    ensures r.None? <==> conn.dialErr.None? && conn.startErr.None? && conn.initErr.None?
  {
    if conn.dialErr.Some? then Some("dialing: " + conn.dialErr.value)
    else if conn.startErr.Some? then conn.startErr
    else if conn.initErr.Some? then Some("initializing: " + conn.initErr.value)
    else None
  }

  /** What the client does to the gateway, in order. */
  datatype Op = Connect | ListRequest | SendCall(request: CallToolRequest) | Close

  /** A line of output: a text item's text, or the `%v` rendering of any
      other item (a pointer to text included). */
  datatype Line = TextLine(text: string) | ContentLine(content: Content)

  function LineOf(c: Content): Line {
    if c.TextValue? then TextLine(c.text) else ContentLine(c)
  }

  /** The lines printed for `content`, in order. */
  function ContentLines(content: seq<Content>): seq<Line>
    decreases |content|
  {
    if |content| == 0 then [] else ContentLines(content[..|content| - 1]) + [LineOf(content[|content| - 1])]
  }

  /** One line per item, printed from that item. */
  lemma {:induction false} ContentLinesAt(content: seq<Content>)
    ensures |ContentLines(content)| == |content|
    ensures forall i :: 0 <= i < |content| ==> ContentLines(content)[i] == LineOf(content[i])
    decreases |content|
  {
    if |content| > 0 {
      var init := content[..|content| - 1];
      ContentLinesAt(init);
      forall i | 0 <= i < |init|
        ensures ContentLines(content)[i] == LineOf(content[i])
      {
        assert init[i] == content[i];
      }
    }
  }

  /** The printing loop of `call`. */
  method PrintContent(content: seq<Content>) returns (output: seq<Line>)
    ensures output == ContentLines(content)
  {
    output := [];
    var i := 0;
    while i < |content|
      invariant 0 <= i <= |content|
      invariant output == ContentLines(content[..i])
    {
      assert content[..i + 1][..i] == content[..i];
      if content[i].TextValue? {
        output := output + [TextLine(content[i].text)];
      } else {
        output := output + [ContentLine(content[i])];
      }
      i := i + 1;
    }
    assert content[..i] == content;
  }

  /** The `call` command. `args` are the arguments after `call`; the gateway's
      answer to a request is `callTool`. The client is closed twice after a
      successful call: once explicitly and once by the deferred close. */
  method Call(args: seq<string>, conn: Connection, callTool: CallToolRequest -> Result<CallToolResult>)
    returns (err: Option<string>, output: seq<Line>, ops: seq<Op>)
    ensures |args| == 0 ==> err == Some("no tool name provided") && ops == [] && output == []
    ensures |args| > 0 && StartError(conn).Some? ==>
      err == Some("starting client: " + StartError(conn).value) && ops == [Connect] && output == []
    ensures |args| > 0 && StartError(conn).None? ==>
      var request := CallToolRequest(args[0], Some(Parsed(args[1..])));
      |ops| >= 3 && ops[..2] == [Connect, SendCall(request)] && ops[|ops| - 1] == Close &&
      match callTool(request)
      case Err(e) => err == Some("calling tool: " + e) && output == [] && ops == [Connect, SendCall(request), Close]
      case Ok(result) =>
        ops == [Connect, SendCall(request), Close, Close] &&
        if result.isError then err == Some("error calling tool: " + args[0]) && output == []
        else err.None? && output == ContentLines(result.content)
  {
    output := [];
    ops := [];
    if |args| == 0 {
      return Some("no tool name provided"), output, ops;
    }
    var toolName := args[0];
    ops := ops + [Connect];
    var startErr := StartError(conn);
    if startErr.Some? {
      return Some("starting client: " + startErr.value), output, ops;
    }
    var arguments := ParseArgs(args[1..]);
    var request := CallToolRequest(toolName, Some(arguments));
    ops := ops + [SendCall(request)];
    var response := callTool(request);
    if response.Err? {
      ops := ops + [Close];
      return Some("calling tool: " + response.error), output, ops;
    }
    ops := ops + [Close];
    if response.value.isError {
      ops := ops + [Close];
      return Some("error calling tool: " + toolName), output, ops;
    }
    output := PrintContent(response.value.content);
    ops := ops + [Close];
    err := None;
  }

  /** The `list` and `count` commands: the gateway's tools as `listTools`,
      their indented JSON as `marshal`. */
  method List(verbose: bool, conn: Connection, listTools: Result<seq<ListTools.McpTool>>,
              marshal: seq<ListTools.McpTool> -> Result<string>)
    returns (err: Option<string>, output: seq<string>, ops: seq<Op>)
    ensures StartError(conn).Some? ==>
      err == Some("starting client: " + StartError(conn).value) && ops == [Connect] && output == []
    ensures StartError(conn).None? ==> ops == [Connect, ListRequest, Close]
    ensures StartError(conn).None? && listTools.Err? ==>
      err == Some("listing tools: " + listTools.error) && output == []
    ensures StartError(conn).None? && listTools.Ok? && marshal(listTools.value).Err? ==>
      err == Some("marshalling tools: " + marshal(listTools.value).error) && output == []
    ensures StartError(conn).None? && listTools.Ok? && marshal(listTools.value).Ok? ==>
      err.None? &&
      var count := Decimal(|listTools.value|);
      if verbose then output == [count + " tools:", marshal(listTools.value).value]
      else output == [count + " tools"]
    ensures output != [] ==> err.None?
  {
    output := [];
    ops := [Connect];
    var startErr := StartError(conn);
    if startErr.Some? {
      return Some("starting client: " + startErr.value), output, ops;
    }
    ops := ops + [ListRequest, Close];
    if listTools.Err? {
      return Some("listing tools: " + listTools.error), output, ops;
    }
    var tools := listTools.value;
    var buf := marshal(tools);
    if buf.Err? {
      return Some("marshalling tools: " + buf.error), output, ops;
    }
    if verbose {
      output := [Decimal(|tools|) + " tools:", buf.value];
    } else {
      output := [Decimal(|tools|) + " tools"];
    }
    err := None;
  }
}
