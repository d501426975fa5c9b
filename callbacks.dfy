/** The tool-call middleware of pkg/gateway/callbacks.go: optional logging of
    each call, a secret scan of the arguments before the backend is reached, and
    a secret scan of the text the backend returns.

    The secret detector and JSON serialisation are parameters; what the
    middleware prints is recorded as a trace of events, and calling the next
    handler is one of those events, so "never called" is a statement about the
    trace. */
module Callbacks {
  import opened Wrappers
  import opened Values
  import opened McpTypes
  import Responses

  /** `secretsscan.ContainsSecrets`. */
  type Scanner = string -> bool

  /** `json.Marshal` of the arguments; `None` when it fails. */
  type Marshal = Option<map<string, Value>> -> Option<string>

  /** The handler the middleware wraps: its result and its error. */
  type Next = CallToolRequest -> (Option<CallToolResult>, Option<string>)

  /** What the middleware does observably, in order. */
  datatype Event =
    | LogCall(tool: string, arguments: string)
    | ScanArguments
    | ArgumentsClean
    | CallNext
    | ScanResponse
    | ResponseClean
    | LogDuration(tool: string)

  /** `argumentsToString`: the JSON text, or the `%v` rendering when
      serialisation fails (a nil map renders as an empty one). */
  function ArgumentsToString(args: Option<map<string, Value>>, marshal: Marshal): (r: string)
    ensures marshal(args).Some? ==> r == marshal(args).value
    ensures marshal(args).None? ==> r == Format(Map(args.GetOr(map[])))
  {
    match marshal(args)
    case Some(buf) => buf
    case None => Format(Map(args.GetOr(map[])))
  }

  /** The text a content item contributes to the response scan: text items,
      by value or by pointer; nothing for other kinds. */
  function ItemText(c: Content): string {
    match c
    case TextValue(t) => t
    case TextPointer(t) => t
    case OtherContent(_) => ""
  }

  /** The concatenated text of `content`, in content order. */
  function TextOf(content: seq<Content>): string
    decreases |content|
  {
    if |content| == 0 then "" else TextOf(content[..|content| - 1]) + ItemText(content[|content| - 1])
  }

  lemma {:induction false} TextOfAppend(a: seq<Content>, b: seq<Content>)
    ensures TextOf(a + b) == TextOf(a) + TextOf(b)
    decreases |b|
  {
    if |b| == 0 {
      assert a + b == a;
    } else {
      var init := b[..|b| - 1];
      assert (a + b)[..|a + b| - 1] == a + init;
      TextOfAppend(a, init);
    }
  }

  /** Content without text items contributes nothing to the scan. */
  lemma {:induction false} TextOfNoText(content: seq<Content>)
    requires forall i :: 0 <= i < |content| ==> content[i].OtherContent?
    ensures TextOf(content) == ""
    decreases |content|
  {
    if |content| > 0 {
      TextOfNoText(content[..|content| - 1]);
    }
  }

  /** The response scan reads each text item, value or pointer alike, in order. */
  lemma TextOfTexts(s: string, t: string, kind: string)
    ensures TextOf([TextValue(s), OtherContent(kind), TextPointer(t)]) == s + t
  {
    var c := [TextValue(s), OtherContent(kind), TextPointer(t)];
    assert [TextValue(s)][..0] == [];
    assert TextOf([TextValue(s)]) == s;
    assert [TextValue(s), OtherContent(kind)][..1] == [TextValue(s)];
    assert TextOf([TextValue(s), OtherContent(kind)]) == s;
    assert c[..2] == [TextValue(s), OtherContent(kind)];
  }

  /** The loop of `callbacks` that collects the response text. */
  method ResponseText(content: seq<Content>) returns (contents: string)
    ensures contents == TextOf(content)
  {
    contents := "";
    var i := 0;
    while i < |content|
      invariant 0 <= i <= |content|
      invariant contents == TextOf(content[..i])
    {
      assert content[..i + 1][..i] == content[..i];
      contents := contents + ItemText(content[i]);
      i := i + 1;
    }
    assert content[..i] == content;
  }

  /** The handler's answer is usable: without an error there is a result. */
  predicate Answers(next: Next, request: CallToolRequest) {
    next(request).1.None? ==> next(request).0.Some?
  }

  /** The result and error of the wrapped call. Logging is not a parameter: it
      never changes the outcome. */
  function Outcome(scanSecrets: bool, contains: Scanner, marshal: Marshal, next: Next, request: CallToolRequest)
    : (r: (Option<CallToolResult>, Option<string>))
    requires scanSecrets ==> Answers(next, request)
  {
    var tool := request.name;
    if scanSecrets && contains(ArgumentsToString(request.arguments, marshal)) then
      (None, Some("a secret is being passed to tool " + tool))
    else
      var (result, err) := next(request);
      if err.Some? then (result, err)
      else if scanSecrets && contains(TextOf(result.value.content)) then
        (Some(Responses.ToolError("a secret is being returned by the " + tool + " tool")), None)
      else (result, None)
  }

  /** With scanning off the middleware is the wrapped handler. */
  lemma ScanOffIsNext(contains: Scanner, marshal: Marshal, next: Next, request: CallToolRequest)
    ensures Outcome(false, contains, marshal, next, request) == next(request)
  {
  }

  /** Secret-bearing arguments are refused with an error naming the tool. */
  lemma ArgumentSecretRefused(contains: Scanner, marshal: Marshal, next: Next, request: CallToolRequest)
    requires Answers(next, request)
    requires contains(ArgumentsToString(request.arguments, marshal))
    ensures Outcome(true, contains, marshal, next, request) ==
      (None, Some("a secret is being passed to tool " + request.name))
  {
  }

  /** An error of the wrapped handler comes back unchanged, with its result. */
  lemma NextErrorPassesThrough(scanSecrets: bool, contains: Scanner, marshal: Marshal, next: Next,
                               request: CallToolRequest)
    requires scanSecrets ==> Answers(next, request)
    requires !(scanSecrets && contains(ArgumentsToString(request.arguments, marshal)))
    requires next(request).1.Some?
    ensures Outcome(scanSecrets, contains, marshal, next, request) == next(request)
  {
  }

  /** A secret in the response text turns the answer into an error result, not
      an error. */
  lemma ResponseSecretDegrades(contains: Scanner, marshal: Marshal, next: Next, request: CallToolRequest)
    requires Answers(next, request)
    requires !contains(ArgumentsToString(request.arguments, marshal))
    requires next(request).1.None? && contains(TextOf(next(request).0.value.content))
    ensures var (result, err) := Outcome(true, contains, marshal, next, request);
      err.None? && result.Some? && result.value.isError &&
      result.value.content == [TextValue("a secret is being returned by the " + request.name + " tool")]
  {
  }

  /** A scanned call that finds no secret is the wrapped handler's answer. */
  lemma CleanCallPassesThrough(contains: Scanner, marshal: Marshal, next: Next, request: CallToolRequest)
    requires Answers(next, request)
    requires !contains(ArgumentsToString(request.arguments, marshal))
    requires next(request).1.None? ==> !contains(TextOf(next(request).0.value.content))
    ensures Outcome(true, contains, marshal, next, request) == next(request)
  {
  }

  /** `callbacks(logCalls, scanSecrets)(next)` applied to one request. */
  method Call(logCalls: bool, scanSecrets: bool, contains: Scanner, marshal: Marshal, next: Next,
              request: CallToolRequest)
    returns (result: Option<CallToolResult>, err: Option<string>, trace: seq<Event>)
    requires scanSecrets ==> Answers(next, request)
    ensures (result, err) == Outcome(scanSecrets, contains, marshal, next, request)
    ensures logCalls <==> |trace| > 0 && trace[0] == LogCall(request.name, ArgumentsToString(request.arguments, marshal))
    ensures !logCalls ==> forall i :: 0 <= i < |trace| ==> !trace[i].LogCall? && !trace[i].LogDuration?
    ensures CallNext in trace <==> !(scanSecrets && contains(ArgumentsToString(request.arguments, marshal)))
    ensures ScanResponse in trace <==> scanSecrets && CallNext in trace && next(request).1.None?
  {
    var tool := request.name;
    var arguments := ArgumentsToString(request.arguments, marshal);
    trace := [];
    if logCalls {
      trace := trace + [LogCall(tool, arguments)];
    }
    if scanSecrets {
      trace := trace + [ScanArguments];
      if contains(arguments) {
        return None, Some("a secret is being passed to tool " + tool), trace;
      }
      trace := trace + [ArgumentsClean];
    }
    trace := trace + [CallNext];
    var answer := next(request);
    result, err := answer.0, answer.1;
    if err.Some? {
      return;
    }
    if scanSecrets {
      trace := trace + [ScanResponse];
      var contents := ResponseText(result.value.content);
      if contains(contents) {
        return Some(Responses.ToolError("a secret is being returned by the " + tool + " tool")), None, trace;
      }
      trace := trace + [ResponseClean];
    }
    if logCalls {
      trace := trace + [LogDuration(tool)];
    }
  }
}
