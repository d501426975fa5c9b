/** The input an `A2AProxyAgent` forwards
    (demos/a2a/src/AgentKit/agent/proxy.py): the user's own message when the
    invocation has one, else the latest `_result`/`_output` value in the
    session state, else the first user message of the session. */
module ProxyAgent {
  import opened Wrappers
  import opened Strs
  import opened AdkTypes
  import opened AgentIds

  /** A proxy: named after its URL, and storing its output under the URL. */
  datatype A2AProxyAgent = A2AProxyAgent(name: string, a2aUrl: string, outputKey: string)

  /** `A2AProxyAgent(a2a_url=url)`. */
  function NewProxy(url: string, uni: UnicodeWord): (r: A2AProxyAgent)
    ensures r.name == AgentId(url, uni) && r.a2aUrl == url && r.outputKey == url
  {
    A2AProxyAgent(AgentId(url, uni), url, url)
  }

  /** An event of the session, of which only the content is read. */
  datatype SessionEvent = SessionEvent(content: Option<Content>)

  /** The session state, its keys in insertion order. */
  type State = seq<(string, string)>

  const NoInput := "No input found"

  /** A key a previous agent stores its output under. */
  predicate IsOutputKey(key: string) {
    HasSuffix(key, "_result") || HasSuffix(key, "_output")
  }

  /** The index of the newest output key. */
  function LatestOutput(state: State): (r: Option<nat>)
    ensures r.Some? ==> r.value < |state| && IsOutputKey(state[r.value].0)
    ensures r.Some? ==> forall j :: r.value < j < |state| ==> !IsOutputKey(state[j].0)
    ensures r.None? ==> forall j :: 0 <= j < |state| ==> !IsOutputKey(state[j].0)
    decreases |state|
  {
    if |state| == 0 then None
    else if IsOutputKey(state[|state| - 1].0) then Some(|state| - 1)
    else
      var init := state[..|state| - 1];
      assert forall j :: 0 <= j < |init| ==> init[j] == state[j];
      LatestOutput(init)
  }

  /** A user message with at least one part. */
  predicate UserMessage(e: SessionEvent) {
    e.content.Some? && e.content.value.role == Some("user") && |e.content.value.parts.GetOr([])| > 0
  }

  /** The index of the earliest user message with parts. */
  function FirstUserMessage(events: seq<SessionEvent>): (r: Option<nat>)
    ensures r.Some? ==> r.value < |events| && UserMessage(events[r.value])
    ensures r.Some? ==> forall j :: 0 <= j < r.value ==> !UserMessage(events[j])
    ensures r.None? ==> forall j :: 0 <= j < |events| ==> !UserMessage(events[j])
    decreases |events|
  {
    if |events| == 0 then None
    else if UserMessage(events[0]) then Some(0)
    else
      var r := FirstUserMessage(events[1..]);
      assert forall j :: 1 <= j < |events| ==> events[1..][j - 1] == events[j];
      if r.Some? then Some(r.value + 1) else None
  }

  /** `_get_input_from_state`: the value of the newest output key; else the
      first part's text of the earliest user message with parts (which may
      be `None`); else "No input found". */
  function InputFromState(state: State, events: seq<SessionEvent>): Option<string> {
    match LatestOutput(state)
    case Some(i) => Some(state[i].1)
    case None =>
      match FirstUserMessage(events)
      case Some(i) => events[i].content.value.parts.value[0].text
      case None => Some(NoInput)
  }

  /** `_get_input_from_state`, scanning the keys newest first and then the
      events oldest first. */
  method GetInputFromState(state: State, events: seq<SessionEvent>) returns (r: Option<string>)
    ensures r == InputFromState(state, events)
  {
    var k := |state|;
    while k > 0
      invariant 0 <= k <= |state|
      invariant forall j :: k <= j < |state| ==> !IsOutputKey(state[j].0)
    {
      k := k - 1;
      if IsOutputKey(state[k].0) {
        LatestIs(state, k);
        return Some(state[k].1);
      }
    }
    NoOutput(state);
    var i := 0;
    while i < |events|
      invariant 0 <= i <= |events|
      invariant forall j :: 0 <= j < i ==> !UserMessage(events[j])
    {
      var event := events[i];
      if event.content.Some? && event.content.value.role == Some("user") && |event.content.value.parts.GetOr([])| > 0 {
        FirstUserIs(events, i);
        return event.content.value.parts.value[0].text;
      }
      i := i + 1;
    }
    FirstUserIs(events, |events|);
    return Some(NoInput);
  }

  /** The newest output key is the one found scanning from the end. */
  lemma {:induction false} LatestIs(state: State, k: nat)
    requires k < |state| && IsOutputKey(state[k].0)
    requires forall j :: k < j < |state| ==> !IsOutputKey(state[j].0)
    ensures LatestOutput(state) == Some(k)
    decreases |state|
  {
    if k < |state| - 1 {
      var init := state[..|state| - 1];
      assert init[k] == state[k];
      forall j | k < j < |init|
        ensures !IsOutputKey(init[j].0)
      {
        assert init[j] == state[j];
      }
      LatestIs(init, k);
    }
  }

  /** With no output key there is no newest one. */
  lemma {:induction false} NoOutput(state: State)
    requires forall j :: 0 <= j < |state| ==> !IsOutputKey(state[j].0)
    ensures LatestOutput(state).None?
    decreases |state|
  {
    if |state| > 0 {
      var init := state[..|state| - 1];
      forall j | 0 <= j < |init|
        ensures !IsOutputKey(init[j].0)
      {
        assert init[j] == state[j];
      }
      NoOutput(init);
    }
  }

  /** Any output key makes a newest one. */
  lemma {:induction false} SomeOutput(state: State, k: nat)
    requires k < |state| && IsOutputKey(state[k].0)
    ensures LatestOutput(state).Some?
    decreases |state|
  {
    if !IsOutputKey(state[|state| - 1].0) {
      var init := state[..|state| - 1];
      assert init[k] == state[k];
      SomeOutput(init, k);
    }
  }

  /** The earliest user message is the one found scanning from the start, or
      there is none when the scan ends. */
  lemma {:induction false} FirstUserIs(events: seq<SessionEvent>, i: nat)
    requires i <= |events| && forall j :: 0 <= j < i ==> !UserMessage(events[j])
    requires i < |events| ==> UserMessage(events[i])
    ensures i < |events| ==> FirstUserMessage(events) == Some(i)
    ensures i == |events| ==> FirstUserMessage(events).None?
    decreases |events|
  {
    if i > 0 {
      var rest := events[1..];
      assert !UserMessage(events[0]);
      forall j | 0 <= j < i - 1
        ensures !UserMessage(rest[j])
      {
        assert rest[j] == events[j + 1];
      }
      if i < |events| {
        assert rest[i - 1] == events[i];
      }
      FirstUserIs(rest, i - 1);
    }
  }

  /** A stored output wins over the session's messages: the events are not
      consulted. */
  lemma OutputFirst(state: State, events: seq<SessionEvent>, others: seq<SessionEvent>)
    requires exists j :: 0 <= j < |state| && IsOutputKey(state[j].0)
    ensures InputFromState(state, events) == InputFromState(state, others)
    ensures InputFromState(state, events).Some?
  {
    var j :| 0 <= j < |state| && IsOutputKey(state[j].0);
    SomeOutput(state, j);
  }

  /** What `_run_async_impl` sends: the first part's text of the user's
      content when it has parts, else the input from the state. */
  function ContentToSend(userContent: Option<Content>, state: State, events: seq<SessionEvent>): Option<string> {
    if userContent.Some? && userContent.value.parts.Some? && |userContent.value.parts.value| > 0 then
      userContent.value.parts.value[0].text
    else InputFromState(state, events)
  }

  /** The user's own content wins over everything in the session; without
      it, the state and events decide. */
  lemma UserContentFirst(userContent: Option<Content>, state: State, events: seq<SessionEvent>,
                         otherState: State, otherEvents: seq<SessionEvent>)
    ensures userContent.Some? && userContent.value.parts.Some? && |userContent.value.parts.value| > 0 ==>
      ContentToSend(userContent, state, events) == ContentToSend(userContent, otherState, otherEvents)
    ensures userContent.None? || userContent.value.parts.None? || |userContent.value.parts.value| == 0 ==>
      ContentToSend(userContent, state, events) == InputFromState(state, events)
  {
  }
}
