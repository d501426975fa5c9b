/** The older middleware of gateway/cmd/agents_gateway/server/callbacks.go: the
    argument scan comes before logging, and the wrapped handler's answer is
    returned as it is, without a response scan. */
module LegacyCallbacks {
  import opened Wrappers
  import opened McpTypes
  import opened Callbacks

  /** Whether the argument scan refuses the request. */
  predicate Refused(scanSecrets: bool, contains: Scanner, marshal: Marshal, request: CallToolRequest) {
    scanSecrets && contains(ArgumentsToString(request.arguments, marshal))
  }

  /** `callbacks(logCalls, scanSecrets)(next)` applied to one request. */
  method Call(logCalls: bool, scanSecrets: bool, contains: Scanner, marshal: Marshal, next: Next,
              request: CallToolRequest)
    returns (result: Option<CallToolResult>, err: Option<string>, trace: seq<Event>)
    ensures Refused(scanSecrets, contains, marshal, request) ==>
      result.None? && err == Some("a secret is being passed to tool " + request.name) && trace == [ScanArguments]
    ensures !Refused(scanSecrets, contains, marshal, request) ==>
      (result, err) == next(request) && |trace| > 0 && trace[|trace| - 1] == CallNext
    ensures CallNext in trace <==> !Refused(scanSecrets, contains, marshal, request)
    ensures LogCall(request.name, ArgumentsToString(request.arguments, marshal)) in trace <==>
      logCalls && !Refused(scanSecrets, contains, marshal, request)
    ensures !logCalls && !scanSecrets ==> trace == [CallNext]
    ensures scanSecrets && CallNext in trace ==> trace[0] == ScanArguments
  {
    var tool := request.name;
    var arguments := ArgumentsToString(request.arguments, marshal);
    trace := [];
    if scanSecrets {
      trace := trace + [ScanArguments];
      if contains(arguments) {
        return None, Some("a secret is being passed to tool " + tool), trace;
      }
    }
    if logCalls {
      trace := trace + [LogCall(tool, arguments)];
    }
    trace := trace + [CallNext];
    var answer := next(request);
    result, err := answer.0, answer.1;
  }
}
