/** The model callbacks shared, line for line, by the reviser agent
    (adk/agents/sub_agents/reviser/agent.py) and the customer-feedback agent
    (adk-sock-shop/agents/sub_agents/customer_feedback/agent.py): cutting the
    answer at the end-of-edit mark, and flattening the request contents into
    single-text messages with no two neighbours of the same role. */
module EditCallbacks {
  import opened Wrappers
  import opened Values
  import opened Strs
  import opened PyText
  import opened AdkTypes

  const EndOfEditMark := "---END-OF-EDIT---"

  /** A part whose text holds the mark. */
  predicate Marked(p: Part) {
    p.text.Some? && Contains(p.text.value, EndOfEditMark)
  }

  /** The parts up to the first marked one, that one cut before its first mark. */
  function CutAtMark(parts: seq<Part>): seq<Part>
    decreases |parts|
  {
    if |parts| == 0 then []
    else if Marked(parts[0]) then [Part(Some(Before(parts[0].text.value, EndOfEditMark)))]
    else [parts[0]] + CutAtMark(parts[1..])
  }

  /** What `_remove_end_of_edit_mark` leaves as the response content: a missing
      content or a missing or empty parts list is left alone. */
  function EditMarkRemoved(content: Option<Content>): Option<Content> {
    if content.None? || content.value.parts.None? || |content.value.parts.value| == 0 then content
    else Some(content.value.(parts := Some(CutAtMark(content.value.parts.value))))
  }

  /** At the first marked part the answer ends: earlier parts are kept as they
      are, later parts are dropped, and that part keeps the text before the mark. */
  lemma {:induction false} CutAtFirstMark(parts: seq<Part>, i: nat)
    requires i < |parts| && Marked(parts[i])
    requires forall j :: 0 <= j < i ==> !Marked(parts[j])
    ensures CutAtMark(parts) == parts[..i] + [Part(Some(Before(parts[i].text.value, EndOfEditMark)))]
    decreases i
  {
    if i > 0 {
      var rest := parts[1..];
      forall j | 0 <= j < i - 1
        ensures !Marked(rest[j])
      {
        assert rest[j] == parts[j + 1];
      }
      CutAtFirstMark(rest, i - 1);
      assert parts[..i] == [parts[0]] + rest[..i - 1];
    }
  }

  /** Without a mark nothing changes. */
  lemma {:induction false} UnmarkedUnchanged(parts: seq<Part>)
    requires forall j :: 0 <= j < |parts| ==> !Marked(parts[j])
    ensures CutAtMark(parts) == parts
    decreases |parts|
  {
    if |parts| > 0 {
      var rest := parts[1..];
      forall j | 0 <= j < |rest|
        ensures !Marked(rest[j])
      {
        assert rest[j] == parts[j + 1];
      }
      UnmarkedUnchanged(rest);
    }
  }

  /** No mark survives, no part is added, and a non-empty list stays non-empty. */
  lemma {:induction false} NoMarkLeft(parts: seq<Part>)
    ensures |CutAtMark(parts)| <= |parts|
    ensures |parts| > 0 ==> |CutAtMark(parts)| > 0
    ensures forall j :: 0 <= j < |CutAtMark(parts)| ==> !Marked(CutAtMark(parts)[j])
    decreases |parts|
  {
    if |parts| > 0 {
      if Marked(parts[0]) {
        BeforeHasNone(parts[0].text.value, EndOfEditMark);
      } else {
        NoMarkLeft(parts[1..]);
        var cut := CutAtMark(parts);
        forall j | 0 < j < |cut|
          ensures cut[j] == CutAtMark(parts[1..])[j - 1]
        {
        }
      }
    }
  }

  /** Removing the mark twice is removing it once. */
  lemma EditMarkRemovedIdempotent(content: Option<Content>)
    ensures EditMarkRemoved(EditMarkRemoved(content)) == EditMarkRemoved(content)
  {
    if EditMarkRemoved(content) != content {
      var parts := content.value.parts.value;
      NoMarkLeft(parts);
      UnmarkedUnchanged(CutAtMark(parts));
    }
  }

  /** `_remove_end_of_edit_mark`: the response is edited in place and returned. */
  method RemoveEndOfEditMark(response: LlmResponse) returns (r: LlmResponse)
    modifies response
    ensures r == response
    ensures response.content == EditMarkRemoved(old(response.content))
    ensures response.groundingMetadata == old(response.groundingMetadata)
  {
    r := response;
    var content := response.content;
    if content.None? || content.value.parts.None? || |content.value.parts.value| == 0 {
      return;
    }
    var parts := content.value.parts.value;
    ghost var original := parts;
    var idx := 0;
    assert parts[0..] == parts;
    while idx < |parts|
      invariant 0 <= idx <= |parts|
      invariant parts[..idx] + CutAtMark(parts[idx..]) == CutAtMark(original)
    {
      var part := parts[idx];
      if part.text.Some? && Contains(part.text.value, EndOfEditMark) {
        assert CutAtMark(parts[idx..]) == [Part(Some(Before(part.text.value, EndOfEditMark)))];
        parts := parts[..idx] + [Part(Some(Before(part.text.value, EndOfEditMark)))];
        assert parts[..idx + 1] == parts;
      } else {
        assert parts[idx..][1..] == parts[idx + 1..];
        assert parts[..idx + 1] == parts[..idx] + [part];
      }
      idx := idx + 1;
    }
    assert parts[..idx] == parts && parts[idx..] == [];
    assert parts == CutAtMark(original);
    response.content := Some(content.value.(parts := Some(parts)));
  }

  /** A content with a single text part, as `force_string_content` builds them. */
  datatype Message = Message(role: string, text: string)

  /** `json.dumps(value, ensure_ascii=False)`. */
  type Dumps = Value -> string

  /** `role or "user"`. */
  function RoleOr(role: Option<string>): (r: string)
    ensures r != ""
  {
    if role.None? || role.value == "" then "user" else role.value
  }

  /** `p.text or ""` for each part. */
  function PartTexts(parts: seq<Part>): (r: seq<string>)
    ensures |r| == |parts|
  {
    seq(|parts|, i requires 0 <= i < |parts| => parts[i].text.GetOr(""))
  }

  /** The message one input becomes. */
  function Single(input: Input, dumps: Dumps): Message {
    match input
    case TextInput(s) => Message("user", s)
    case ContentInput(c) => Message(RoleOr(c.role), Join(PartTexts(c.parts.GetOr([])), '\n'))
    case OtherInput(v) => Message("user", dumps(v))
  }

  /** Neighbouring messages of the same role merged into the first, their texts
      joined by a newline. */
  function Collapse(msgs: seq<Message>): seq<Message>
    decreases |msgs|
  {
    if |msgs| == 0 then []
    else
      var acc := Collapse(msgs[..|msgs| - 1]);
      var c := msgs[|msgs| - 1];
      if |acc| > 0 && acc[|acc| - 1].role == c.role then
        acc[..|acc| - 1] + [Message(c.role, acc[|acc| - 1].text + "\n" + c.text)]
      else acc + [c]
  }

  /** No two neighbours share a role; no message is added; the first and last
      roles are those of the input. */
  lemma {:induction false} CollapseAlternates(msgs: seq<Message>)
    ensures |Collapse(msgs)| <= |msgs|
    ensures |msgs| > 0 ==>
      (|Collapse(msgs)| > 0 && Collapse(msgs)[0].role == msgs[0].role &&
       Collapse(msgs)[|Collapse(msgs)| - 1].role == msgs[|msgs| - 1].role)
    ensures forall i :: 0 <= i < |Collapse(msgs)| - 1 ==> Collapse(msgs)[i].role != Collapse(msgs)[i + 1].role
    decreases |msgs|
  {
    if |msgs| > 0 {
      var init := msgs[..|msgs| - 1];
      CollapseAlternates(init);
      if |init| > 0 {
        assert init[0] == msgs[0];
      }
    }
  }

  /** Messages whose neighbours already differ in role are left as they are. */
  lemma {:induction false} AlternatingUnchanged(msgs: seq<Message>)
    requires forall i :: 0 <= i < |msgs| - 1 ==> msgs[i].role != msgs[i + 1].role
    ensures Collapse(msgs) == msgs
    decreases |msgs|
  {
    if |msgs| > 0 {
      var n := |msgs| - 1;
      var init := msgs[..n];
      forall i | 0 <= i < n - 1
        ensures init[i].role != init[i + 1].role
      {
        assert init[i] == msgs[i] && init[i + 1] == msgs[i + 1];
      }
      AlternatingUnchanged(init);
      if n > 0 {
        assert init[n - 1] == msgs[n - 1];
      }
      CollapseDistinctStep(msgs);
      assert init + [msgs[n]] == msgs;
    }
  }

  /** A message whose role differs from the last collapsed one is appended. */
  lemma CollapseDistinctStep(msgs: seq<Message>)
    requires |msgs| > 0
    requires var acc := Collapse(msgs[..|msgs| - 1]);
      |acc| == 0 || acc[|acc| - 1].role != msgs[|msgs| - 1].role
    ensures Collapse(msgs) == Collapse(msgs[..|msgs| - 1]) + [msgs[|msgs| - 1]]
  {
  }

  /** Collapsing twice is collapsing once. */
  lemma CollapseIdempotent(msgs: seq<Message>)
    ensures Collapse(Collapse(msgs)) == Collapse(msgs)
  {
    CollapseAlternates(msgs);
    AlternatingUnchanged(Collapse(msgs));
  }

  /** The texts of the messages, in order. */
  function Texts(msgs: seq<Message>): (r: seq<string>)
    ensures |r| == |msgs|
    decreases |msgs|
  {
    if |msgs| == 0 then [] else Texts(msgs[..|msgs| - 1]) + [msgs[|msgs| - 1].text]
  }

  lemma TextsSnoc(msgs: seq<Message>, m: Message)
    ensures Texts(msgs + [m]) == Texts(msgs) + [m.text]
  {
    assert (msgs + [m])[..|msgs|] == msgs;
  }

  /** Joining after one more piece. */
  lemma {:induction false} JoinSnoc(xs: seq<string>, y: string, c: char)
    ensures Join(xs + [y], c) == if |xs| == 0 then y else Join(xs, c) + [c] + y
    decreases |xs|
  {
    if |xs| > 1 {
      assert (xs + [y])[1..] == xs[1..] + [y];
      JoinSnoc(xs[1..], y, c);
    } else if |xs| == 1 {
      assert (xs + [y])[1..] == [y];
    }
  }

  /** Merging a piece into the last one keeps the newline-joined text. */
  lemma JoinMerge(xs: seq<string>, a: string, b: string)
    ensures Join(xs + [a + "\n" + b], '\n') == Join(xs + [a], '\n') + "\n" + b
  {
    JoinSnoc(xs, a, '\n');
    JoinSnoc(xs, a + "\n" + b, '\n');
  }

  /** Merging loses no text: the newline-joined texts are the same before and
      after. */
  lemma {:induction false} CollapseKeepsText(msgs: seq<Message>)
    ensures Join(Texts(Collapse(msgs)), '\n') == Join(Texts(msgs), '\n')
    decreases |msgs|
  {
    if |msgs| > 0 {
      var init := msgs[..|msgs| - 1];
      var c := msgs[|msgs| - 1];
      var acc := Collapse(init);
      CollapseKeepsText(init);
      JoinSnoc(Texts(init), c.text, '\n');
      if |acc| > 0 && acc[|acc| - 1].role == c.role {
        var front := acc[..|acc| - 1];
        var last := acc[|acc| - 1];
        assert acc == front + [last];
        TextsSnoc(front, last);
        TextsSnoc(front, Message(c.role, last.text + "\n" + c.text));
        JoinMerge(Texts(front), last.text, c.text);
        JoinSnoc(Texts(acc), c.text, '\n');
      } else {
        TextsSnoc(acc, c);
        JoinSnoc(Texts(acc), c.text, '\n');
      }
    }
  }

  /** A message as the `Content` it is: its role with one text part. */
  function AsInput(m: Message): Input {
    ContentInput(Content(Some(m.role), Some([Part(Some(m.text))])))
  }

  /** What `force_string_content` leaves as the request contents. */
  function Forced(inputs: seq<Input>, dumps: Dumps): seq<Input> {
    var collapsed := Collapse(seq(|inputs|, i requires 0 <= i < |inputs| => Single(inputs[i], dumps)));
    seq(|collapsed|, i requires 0 <= i < |collapsed| => AsInput(collapsed[i]))
  }

  /** Every content ends up with a non-empty role and exactly one text part. */
  lemma ForcedIsSingleText(inputs: seq<Input>, dumps: Dumps, i: nat)
    requires i < |Forced(inputs, dumps)|
    ensures var f := Forced(inputs, dumps)[i];
      f.ContentInput? && f.content.role.Some? && f.content.role.value != "" &&
      f.content.parts.Some? && |f.content.parts.value| == 1 && f.content.parts.value[0].text.Some?
  {
    var singles := seq(|inputs|, j requires 0 <= j < |inputs| => Single(inputs[j], dumps));
    SinglesHaveRoles(singles, inputs, dumps);
  }

  lemma {:induction false} SinglesHaveRoles(singles: seq<Message>, inputs: seq<Input>, dumps: Dumps)
    requires singles == seq(|inputs|, j requires 0 <= j < |inputs| => Single(inputs[j], dumps))
    ensures forall j :: 0 <= j < |Collapse(singles)| ==> Collapse(singles)[j].role != ""
  {
    assert forall j :: 0 <= j < |singles| ==> singles[j].role != "";
    RolesKept(singles);
  }

  /** Some message has this role. */
  ghost predicate HasRole(msgs: seq<Message>, role: string) {
    exists k :: 0 <= k < |msgs| && msgs[k].role == role
  }

  /** Collapsing keeps every role from the input. */
  lemma {:induction false} RolesKept(msgs: seq<Message>)
    ensures forall j :: 0 <= j < |Collapse(msgs)| ==> HasRole(msgs, Collapse(msgs)[j].role)
    decreases |msgs|
  {
    if |msgs| > 0 {
      var init := msgs[..|msgs| - 1];
      RolesKept(init);
      var acc := Collapse(init);
      var all := Collapse(msgs);
      forall j | 0 <= j < |all|
        ensures HasRole(msgs, all[j].role)
      {
        if j < |all| - 1 {
          assert all[j] == acc[j];
          assert HasRole(init, acc[j].role);
          var k :| 0 <= k < |init| && init[k].role == acc[j].role;
          assert init[k] == msgs[k];
        } else {
          assert all[j].role == msgs[|msgs| - 1].role;
        }
      }
    }
  }

  /** `force_string_content`: the request contents are replaced. */
  method ForceStringContent(request: LlmRequest, dumps: Dumps)
    modifies request
    ensures request.contents == Forced(old(request.contents), dumps)
  {
    var inputs := request.contents;
    var newContents: seq<Message> := [];
    var i := 0;
    while i < |inputs|
      invariant 0 <= i <= |inputs|
      invariant |newContents| == i
      invariant forall j :: 0 <= j < i ==> newContents[j] == Single(inputs[j], dumps)
    {
      var content := inputs[i];
      if content.TextInput? {
        newContents := newContents + [Message("user", content.s)];
      } else if content.ContentInput? {
        var parts := content.content.parts.GetOr([]);
        var mergedText := Join(PartTexts(parts), '\n');
        newContents := newContents + [Message(RoleOr(content.content.role), mergedText)];
      } else {
        newContents := newContents + [Message("user", dumps(content.value))];
      }
      i := i + 1;
    }
    assert newContents == seq(|inputs|, j requires 0 <= j < |inputs| => Single(inputs[j], dumps));
    var collapsed := CollapseMessages(newContents);
    request.contents := seq(|collapsed|, j requires 0 <= j < |collapsed| => AsInput(collapsed[j]));
  }

  /** The collapsing loop of `force_string_content`. */
  method CollapseMessages(newContents: seq<Message>) returns (collapsed: seq<Message>)
    ensures collapsed == Collapse(newContents)
  {
    collapsed := [];
    var k := 0;
    while k < |newContents|
      invariant 0 <= k <= |newContents|
      invariant collapsed == Collapse(newContents[..k])
    {
      assert newContents[..k + 1][..k] == newContents[..k];
      var c := newContents[k];
      if |collapsed| > 0 && collapsed[|collapsed| - 1].role == c.role {
        var last := collapsed[|collapsed| - 1];
        collapsed := collapsed[..|collapsed| - 1] + [Message(c.role, last.text + "\n" + c.text)];
      } else {
        collapsed := collapsed + [c];
      }
      k := k + 1;
    }
    assert newContents[..k] == newContents;
  }
}
