/** The base `Agent` of the a2a agent kit (a2a/src/AgentKit/agent/agent.py):
    the registry of agent classes by type, the choice of class for a
    configuration, the sub-agent proxies, and the fold of runner events into
    the updates `stream` yields. */
module AgentKit {
  import opened Wrappers
  import opened Strs
  import opened Values
  import opened PyText
  import opened AgentIds
  import opened A2aConfig

  /** An agent class, known by its `repr`, which the registration error shows. */
  datatype AgentClass = AgentClass(repr: string)

  /** A sub-agent proxy that forwards to the agent at `url`; its own
      construction is not part of this model. */
  datatype Proxy = Proxy(url: string)

  /** An agent as its constructor leaves it: its class and configuration,
      the sub-agents `build_agent` hands to `_build_agent`, and the user id
      and runner app name, both the configuration's `agent_id`. */
  datatype AgentInstance = AgentInstance(
    cls: AgentClass, config: AgentConfig, subAgents: seq<Proxy>, userId: string, appName: string)

  /** The f-string rendering of the configured type (Python 3.12 formats a
      `str`-mixin enum member as `AgentType.NAME`). */
  function TypeText(t: Option<AgentType>): string {
    match t
    case None => "None"
    case Some(Llm) => "AgentType.LLM"
    case Some(Sequential) => "AgentType.SEQUENTIAL"
  }

  /** The type an agent is built as: `LLM` when none is configured. */
  function ResolvedType(t: Option<AgentType>): AgentType {
    if t.None? then Llm else t.value
  }

  /** The class registered for the configured type, or the `ValueError`
      naming the configured (not the resolved) type. */
  function Resolve(classes: map<AgentType, AgentClass>, t: Option<AgentType>): (r: Result<AgentClass>)
    ensures r.Ok? <==> ResolvedType(t) in classes
    ensures r.Ok? ==> r.value == classes[ResolvedType(t)]
    ensures r.Err? ==> r.error == "Unknown agent type: " + TypeText(t)
  {
    var agentType := ResolvedType(t);
    if agentType in classes then Ok(classes[agentType]) else Err("Unknown agent type: " + TypeText(t))
  }

  /** A missing type is resolved as `LLM`. */
  lemma MissingTypeIsLlm(classes: map<AgentType, AgentClass>)
    ensures Resolve(classes, None).Ok? <==> Resolve(classes, Some(Llm)).Ok?
    ensures Resolve(classes, None).Ok? ==> Resolve(classes, None) == Resolve(classes, Some(Llm))
  {
  }

  /** `build_agent`'s sub-agents: one proxy per configured URL, in order;
      none when the list is missing or empty. */
  function SubAgents(urls: Option<seq<string>>): (r: seq<Proxy>)
    ensures |r| == |urls.GetOr([])|
    ensures forall i :: 0 <= i < |r| ==> r[i].url == urls.value[i]
  {
    if urls.None? || |urls.value| == 0 then []
    else seq(|urls.value|, i requires 0 <= i < |urls.value| => Proxy(urls.value[i]))
  }

  /** The agent `from_yaml_filename` builds from an already-parsed
      configuration, or the error it raises. */
  function Instantiate(classes: map<AgentType, AgentClass>, config: AgentConfig, uni: UnicodeWord): Result<AgentInstance> {
    match Resolve(classes, config.agentType)
    case Err(e) => Err(e)
    case Ok(cls) =>
      var id := AgentIdOf(config, uni);
      Ok(AgentInstance(cls, config, SubAgents(config.subAgents), id, id))
  }

  /** A built agent has the registered class, one proxy per sub-agent, and
      runs under the configuration's id. */
  lemma InstantiateSpec(classes: map<AgentType, AgentClass>, config: AgentConfig, uni: UnicodeWord)
    ensures Instantiate(classes, config, uni).Ok? <==> ResolvedType(config.agentType) in classes
    ensures Instantiate(classes, config, uni).Ok? ==>
      var a := Instantiate(classes, config, uni).value;
      a.cls == classes[ResolvedType(config.agentType)] && a.config == config &&
      |a.subAgents| == |config.subAgents.GetOr([])| && a.userId == a.appName == AgentIdOf(config, uni)
    ensures Instantiate(classes, config, uni).Err? ==>
      Instantiate(classes, config, uni).error == "Unknown agent type: " + TypeText(config.agentType)
  {
  }

  /** `_agent_classes`, the module-level registry. */
  class Registry {
    var classes: map<AgentType, AgentClass>

    constructor()
      ensures classes == map[]
    {
      classes := map[];
    }

    /** `register(t)(cls)`: a fresh type records the class and gives it back;
        a taken type raises and keeps its first class. */
    method Register(t: AgentType, cls: AgentClass) returns (r: Result<AgentClass>)
      modifies this
      ensures t in old(classes) ==>
        r == Err("class " + old(classes)[t].repr + " is already registered for " + cls.repr) && classes == old(classes)
      ensures t !in old(classes) ==> r == Ok(cls) && classes == old(classes)[t := cls]
    {
      if t in classes {
        return Err("class " + classes[t].repr + " is already registered for " + cls.repr);
      }
      classes := classes[t := cls];
      return Ok(cls);
    }

    /** `from_yaml_filename` after the file is read and parsed. */
    method FromConfig(config: AgentConfig, uni: UnicodeWord) returns (r: Result<AgentInstance>)
      ensures r == Instantiate(classes, config, uni)
    {
      var agentType := config.agentType;
      if agentType.None? {
        agentType := Some(Llm);
      }
      if agentType.value !in classes {
        return Err("Unknown agent type: " + TypeText(config.agentType));
      }
      var cls := classes[agentType.value];
      var id := AgentIdOf(config, uni);
      return Ok(AgentInstance(cls, config, SubAgents(config.subAgents), id, id));
    }
  }

  /** A part of a runner event: its text and its function response, already
      dumped to a value. */
  datatype EventPart = EventPart(text: Option<string>, functionResponse: Option<Value>)

  datatype EventContent = EventContent(parts: Option<seq<EventPart>>)

  /** A runner event and whether it is the final response. */
  datatype Event = Event(isFinal: bool, content: Option<EventContent>)

  /** The content of the final update: text or a function response. */
  datatype Response = TextResponse(text: string) | DictResponse(dump: Value)

  /** What `stream` yields: the final content with `is_task_complete` true,
      or a progress update with it false. */
  datatype Update = Complete(content: Response) | Working(updates: string)

  const ProcessingMessage := "Processing..."

  /** A Python string that is neither `None` nor empty. */
  predicate TextTruthy(s: Option<string>) {
    s.Some? && s.value != ""
  }

  /** `event.content.parts`, or none. */
  function PartsOf(e: Event): seq<EventPart> {
    if e.content.Some? && e.content.value.parts.Some? then e.content.value.parts.value else []
  }

  /** The non-empty texts of the parts, in order. */
  function TextsOf(parts: seq<EventPart>): (r: seq<string>)
    ensures |r| <= |parts|
    decreases |parts|
  {
    if |parts| == 0 then []
    else
      var init := TextsOf(parts[..|parts| - 1]);
      var t := parts[|parts| - 1].text;
      if TextTruthy(t) then init + [t.value] else init
  }

  /** The first function response among the parts. */
  function FirstFunctionResponse(parts: seq<EventPart>): (r: Option<Value>)
    ensures r.Some? ==>
      exists i :: 0 <= i < |parts| && parts[i].functionResponse == r && forall j :: 0 <= j < i ==> parts[j].functionResponse.None?
    ensures r.None? ==> forall i :: 0 <= i < |parts| ==> parts[i].functionResponse.None?
    decreases |parts|
  {
    if |parts| == 0 then None
    else if parts[0].functionResponse.Some? then parts[0].functionResponse
    else
      var r := FirstFunctionResponse(parts[1..]);
      assert forall i :: 1 <= i < |parts| ==> parts[1..][i - 1] == parts[i];
      if r.Some? then
        var i :| 0 <= i < |parts[1..]| && parts[1..][i].functionResponse == r &&
          forall j :: 0 <= j < i ==> parts[1..][j].functionResponse.None?;
        assert parts[i + 1].functionResponse == r;
        r
      else r
  }

  /** The response of a final event when nothing was accumulated: the newline
      join of its texts when its first part has text, else its first function
      response, else empty text. */
  function FinalResponse(e: Event): (r: Response)
    ensures |PartsOf(e)| > 0 && TextTruthy(PartsOf(e)[0].text) ==>
      r.TextResponse? && HasPrefix(r.text, PartsOf(e)[0].text.value)
    ensures r.DictResponse? ==> FirstFunctionResponse(PartsOf(e)) == Some(r.dump) && !TextTruthy(PartsOf(e)[0].text)
  {
    var parts := PartsOf(e);
    if |parts| > 0 && TextTruthy(parts[0].text) then
      FirstTextFirst(parts);
      JoinStartsWithFirst(TextsOf(parts));
      TextResponse(Join(TextsOf(parts), '\n'))
    else match FirstFunctionResponse(parts)
      case Some(v) => DictResponse(v)
      case None => TextResponse("")
  }

  /** When the first part has text, it is the first of the texts. */
  lemma {:induction false} FirstTextFirst(parts: seq<EventPart>)
    requires |parts| > 0 && TextTruthy(parts[0].text)
    ensures |TextsOf(parts)| > 0 && TextsOf(parts)[0] == parts[0].text.value
    decreases |parts|
  {
    if |parts| > 1 {
      var init := parts[..|parts| - 1];
      assert init[0] == parts[0];
      FirstTextFirst(init);
    }
  }

  /** A join starts with its first item. */
  lemma JoinStartsWithFirst(xs: seq<string>)
    requires |xs| > 0
    ensures HasPrefix(Join(xs, '\n'), xs[0])
  {
    if |xs| > 1 {
      assert (xs[0] + ['\n'] + Join(xs[1..], '\n'))[..|xs[0]|] == xs[0];
    }
  }

  /** The texts a progress event adds to the accumulated response. */
  function EventText(e: Event): string {
    Concat(TextsOf(PartsOf(e)))
  }

  /** The text accumulated over the progress events. */
  function Accumulated(events: seq<Event>): string
    decreases |events|
  {
    if |events| == 0 then ""
    else
      var e := events[|events| - 1];
      var acc := Accumulated(events[..|events| - 1]);
      if e.isFinal then acc else acc + EventText(e)
  }

  /** The update one event yields after `acc` was accumulated. */
  function UpdateFor(acc: string, e: Event): Update {
    if e.isFinal then Complete(if acc != "" then TextResponse(acc) else FinalResponse(e))
    else Working(ProcessingMessage)
  }

  /** The updates `stream` yields, one per event. */
  function Updates(events: seq<Event>): seq<Update> {
    seq(|events|, i requires 0 <= i < |events| => UpdateFor(Accumulated(events[..i]), events[i]))
  }

  /** The updates of `stream` for the events the runner produces. */
  method Stream(events: seq<Event>) returns (out: seq<Update>)
    ensures out == Updates(events)
  {
    var accumulated := "";
    out := [];
    var i := 0;
    while i < |events|
      invariant 0 <= i <= |events|
      invariant accumulated == Accumulated(events[..i])
      invariant out == Updates(events[..i])
    {
      var event := events[i];
      assert events[..i + 1][..i] == events[..i];
      if event.isFinal {
        var finalContent := if accumulated != "" then TextResponse(accumulated) else FinalResponse(event);
        out := out + [Complete(finalContent)];
      } else {
        if event.content.Some? && event.content.value.parts.Some? && |event.content.value.parts.value| > 0 {
          accumulated := AccumulateParts(accumulated, event.content.value.parts.value);
        } else {
          assert EventText(event) == "";
        }
        out := out + [Working(ProcessingMessage)];
      }
      UpdatesSnoc(events, i);
      i := i + 1;
    }
    assert events[..i] == events;
  }

  /** The updates of a longer prefix. */
  lemma UpdatesSnoc(events: seq<Event>, i: nat)
    requires i < |events|
    ensures Updates(events[..i + 1]) == Updates(events[..i]) + [UpdateFor(Accumulated(events[..i]), events[i])]
  {
    var p := events[..i + 1];
    var lhs := Updates(p);
    var rhs := Updates(events[..i]) + [UpdateFor(Accumulated(events[..i]), events[i])];
    forall j | 0 <= j <= i
      ensures lhs[j] == rhs[j]
    {
      assert p[..j] == events[..j];
      if j < i {
        assert events[..i][..j] == events[..j];
      }
    }
    assert lhs == rhs;
  }

  /** `for part in parts: if part.text: accumulated += part.text`. */
  method AccumulateParts(acc: string, parts: seq<EventPart>) returns (r: string)
    ensures r == acc + Concat(TextsOf(parts))
  {
    r := acc;
    var k := 0;
    while k < |parts|
      invariant 0 <= k <= |parts|
      invariant r == acc + Concat(TextsOf(parts[..k]))
    {
      assert parts[..k + 1][..k] == parts[..k];
      if TextTruthy(parts[k].text) {
        r := r + parts[k].text.value;
      }
      k := k + 1;
    }
    assert parts[..k] == parts;
  }

  /** A progress event adds text exactly when one of its parts has text. */
  lemma {:induction false} EventTextEmpty(parts: seq<EventPart>)
    ensures Concat(TextsOf(parts)) == "" <==> forall i :: 0 <= i < |parts| ==> !TextTruthy(parts[i].text)
    decreases |parts|
  {
    if |parts| > 0 {
      var init := parts[..|parts| - 1];
      EventTextEmpty(init);
      assert forall i :: 0 <= i < |init| ==> init[i] == parts[i];
    }
  }

  /** Some progress event has a part with text. */
  ghost predicate SaidSomething(events: seq<Event>) {
    exists i, k :: 0 <= i < |events| && !events[i].isFinal && 0 <= k < |PartsOf(events[i])| &&
      TextTruthy(PartsOf(events[i])[k].text)
  }

  /** Text is accumulated exactly when some progress event had text. */
  lemma {:induction false} AccumulatedSaid(events: seq<Event>)
    ensures Accumulated(events) != "" <==> SaidSomething(events)
    decreases |events|
  {
    if |events| > 0 {
      var n := |events| - 1;
      var init := events[..n];
      var e := events[n];
      AccumulatedSaid(init);
      EventTextEmpty(PartsOf(e));
      SaidSnoc(events);
    }
  }

  /** Some event of a longer list had text exactly when an earlier one did or
      the last one is a progress event with text. */
  lemma SaidSnoc(events: seq<Event>)
    requires |events| > 0
    ensures var n := |events| - 1;
      SaidSomething(events) <==>
        SaidSomething(events[..n]) ||
        (!events[n].isFinal && exists k :: 0 <= k < |PartsOf(events[n])| && TextTruthy(PartsOf(events[n])[k].text))
  {
    var n := |events| - 1;
    var init := events[..n];
    if SaidSomething(init) {
      var i, k :| 0 <= i < |init| && !init[i].isFinal && 0 <= k < |PartsOf(init[i])| &&
        TextTruthy(PartsOf(init[i])[k].text);
      assert events[i] == init[i];
    }
    if SaidSomething(events) {
      var i, k :| 0 <= i < |events| && !events[i].isFinal && 0 <= k < |PartsOf(events[i])| &&
        TextTruthy(PartsOf(events[i])[k].text);
      if i < n {
        assert init[i] == events[i];
      }
    }
  }

  /** Each event yields one update: progress for a progress event; for a
      final one, the accumulated text when progress events had text, else
      its own response. */
  lemma StreamAnswers(events: seq<Event>, i: nat)
    requires i < |events|
    ensures Updates(events)[i].Complete? <==> events[i].isFinal
    ensures !events[i].isFinal ==> Updates(events)[i] == Working(ProcessingMessage)
    ensures events[i].isFinal && SaidSomething(events[..i]) ==>
      Updates(events)[i] == Complete(TextResponse(Accumulated(events[..i])))
    ensures events[i].isFinal && !SaidSomething(events[..i]) ==>
      Updates(events)[i] == Complete(FinalResponse(events[i]))
  {
    AccumulatedSaid(events[..i]);
  }
}
