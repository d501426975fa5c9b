/** The model callbacks of the critic agent
    (demos/adk/agents/sub_agents/critic/agent.py): `_render_reference`, which
    appends the grounding references to the answer and folds an all-text
    answer into one part, and its stricter `force_string_content`. */
module CriticCallbacks {
  import opened Wrappers
  import opened Strs
  import opened PyText
  import opened AdkTypes
  import opened EditCallbacks

  /** A Python string that may be `None`, where only its truthiness and its
      text when truthy matter: `None` and `""` are both falsy. */
  function Text(s: Option<string>): string {
    s.GetOr("")
  }

  /** The title, uri and text a chunk contributes: its retrieved context when
      it has one, else its web page, which has no text, else nothing. */
  function Fields(chunk: Chunk): (r: (string, string, string))
    ensures chunk.retrievedContext.Some? ==>
      r == (Text(chunk.retrievedContext.value.title), Text(chunk.retrievedContext.value.uri), Text(chunk.retrievedContext.value.text))
    ensures chunk.retrievedContext.None? ==> r.2 == ""
  {
    if chunk.retrievedContext.Some? then
      var rc := chunk.retrievedContext.value;
      (Text(rc.title), Text(rc.uri), Text(rc.text))
    else if chunk.web.Some? then
      (Text(chunk.web.value.title), Text(chunk.web.value.uri), "")
    else ("", "", "")
  }

  /** `[s for s in (title, text) if s]`. */
  function Items(title: string, text: string): (r: seq<string>)
    ensures |r| <= 2 && forall i :: 0 <= i < |r| ==> r[i] != ""
  {
    (if title != "" then [title] else []) + (if text != "" then [text] else [])
  }

  /** `[name](uri)`, the markdown link to the page. */
  function Link(name: string, uri: string): string {
    "[" + name + "](" + uri + ")"
  }

  /** The reference line of one chunk: `* ` and its non-empty title and text
      joined by `: `, the first of them linked to the uri when there is one;
      `None` when the chunk has neither title nor text. */
  function Line(chunk: Chunk): (r: Option<string>)
    ensures r.None? <==> Fields(chunk).0 == "" && Fields(chunk).2 == ""
    ensures r.Some? ==> HasPrefix(r.value, "* ") && HasSuffix(r.value, "\n")
  {
    var (title, uri, text) := Fields(chunk);
    var items := Items(title, text);
    var linked := if uri != "" && |items| > 0 then items[0 := Link(items[0], uri)] else items;
    if |linked| == 0 then None
    else
      var l := "* " + JoinWith(linked, ": ") + "\n";
      assert l[..2] == "* " && l[|l| - 1..] == "\n";
      Some(l)
  }

  /** The reference lines of the chunks, in order. */
  function References(chunks: seq<Chunk>): (r: seq<string>)
    ensures |r| <= |chunks|
    decreases |chunks|
  {
    if |chunks| == 0 then []
    else
      var refs := References(chunks[..|chunks| - 1]);
      var l := Line(chunks[|chunks| - 1]);
      if l.Some? then refs + [l.value] else refs
  }

  const Header := "\n\nReference:\n\n"

  /** `''.join(['\n\nReference:\n\n'] + references)`. */
  function ReferenceText(refs: seq<string>): string {
    Concat([Header] + refs)
  }

  /** Every part has a text. */
  predicate AllText(parts: seq<Part>) {
    forall i :: 0 <= i < |parts| ==> parts[i].text.Some?
  }

  /** The parts after the references were appended: a single part holding the
      newline-joined texts when every part has one, else unchanged. */
  function Folded(parts: seq<Part>): seq<Part> {
    if AllText(parts) then [Part(Some(Join(PartTexts(parts), '\n')))] else parts
  }

  /** The content `_render_reference` leaves in the response. */
  function Rendered(content: Option<Content>, metadata: Option<GroundingMetadata>): Option<Content> {
    if content.None? || content.value.parts.None? || |content.value.parts.value| == 0 || metadata.None? then content
    else
      var refs := References(metadata.value.chunks.GetOr([]));
      var parts := content.value.parts.value + (if |refs| > 0 then [Part(Some(ReferenceText(refs)))] else []);
      Some(Content(content.value.role, Some(Folded(parts))))
  }

  /** A retrieved context wins over a web page, and a web page contributes as
      a retrieved context with its title and uri and no text would. */
  lemma ChunkSources(chunk: Chunk)
    ensures chunk.retrievedContext.Some? ==> Line(chunk) == Line(Chunk(chunk.retrievedContext, None))
    ensures chunk.retrievedContext.None? && chunk.web.Some? ==>
      Line(chunk) == Line(Chunk(Some(RetrievedContext(chunk.web.value.title, chunk.web.value.uri, None)), None))
    ensures chunk.retrievedContext.None? && chunk.web.None? ==> Line(chunk).None?
  {
  }

  /** A chunk with a uri and a title is listed with its title linked to the
      uri, followed by its text when it has one. */
  lemma LinkedTitle(chunk: Chunk)
    requires Fields(chunk).0 != "" && Fields(chunk).1 != ""
    ensures Line(chunk) == Some("* " + Link(Fields(chunk).0, Fields(chunk).1) +
      (if Fields(chunk).2 != "" then ": " + Fields(chunk).2 else "") + "\n")
  {
    var (title, uri, text) := Fields(chunk);
    var l := Link(title, uri);
    if text != "" {
      assert Items(title, text)[0 := l] == [l, text];
      assert [l, text][1..] == [text];
      assert JoinWith([l, text], ": ") == l + ": " + text;
      assert "* " + JoinWith([l, text], ": ") + "\n" == "* " + l + (": " + text) + "\n";
    } else {
      assert Items(title, text)[0 := l] == [l];
      assert "* " + l + "" + "\n" == "* " + l + "\n";
    }
  }

  /** `s` is the reference line of one of the chunks. */
  ghost predicate LineOfSome(chunks: seq<Chunk>, s: string) {
    exists j :: 0 <= j < |chunks| && Line(chunks[j]) == Some(s)
  }

  /** Each reference comes from a chunk. */
  lemma {:induction false} ReferencesFromChunks(chunks: seq<Chunk>)
    ensures forall i :: 0 <= i < |References(chunks)| ==> LineOfSome(chunks, References(chunks)[i])
    decreases |chunks|
  {
    if |chunks| > 0 {
      var init := chunks[..|chunks| - 1];
      ReferencesFromChunks(init);
      var refs := References(chunks);
      var head := References(init);
      forall i | 0 <= i < |refs|
        ensures LineOfSome(chunks, refs[i])
      {
        if i < |head| {
          assert refs[i] == head[i];
          assert LineOfSome(init, head[i]);
          var j :| 0 <= j < |init| && Line(init[j]) == Some(head[i]);
          assert init[j] == chunks[j];
        } else {
          assert Line(chunks[|chunks| - 1]) == Some(refs[i]);
        }
      }
    }
  }

  /** There are no references exactly when no chunk has a title or a text. */
  lemma {:induction false} NoReferences(chunks: seq<Chunk>)
    ensures |References(chunks)| == 0 <==> forall j :: 0 <= j < |chunks| ==> Line(chunks[j]).None?
    decreases |chunks|
  {
    if |chunks| > 0 {
      var n := |chunks| - 1;
      var init := chunks[..n];
      NoReferences(init);
      assert forall j :: 0 <= j < n ==> init[j] == chunks[j];
      if Line(chunks[n]).Some? {
        assert |References(chunks)| > 0;
      } else if |References(init)| > 0 {
        var j :| 0 <= j < n && Line(init[j]).Some?;
        assert Line(chunks[j]).Some?;
      } else {
        assert References(chunks) == References(init);
      }
    }
  }

  /** `"".join` of a list led by one string is that string followed by the
      join of the rest. */
  lemma {:induction false} ConcatCons(h: string, xs: seq<string>)
    ensures Concat([h] + xs) == h + Concat(xs)
    decreases |xs|
  {
    if |xs| > 0 {
      var init := xs[..|xs| - 1];
      ConcatCons(h, init);
      assert ([h] + xs)[..|xs|] == [h] + init;
    }
  }

  /** The appended part is the header followed by the references. */
  lemma ReferenceTextHeader(refs: seq<string>)
    ensures ReferenceText(refs) == Header + Concat(refs)
  {
    ConcatCons(Header, refs);
  }

  /** A join starts with its first item. */
  lemma JoinPrefix(xs: seq<string>, c: char)
    requires |xs| > 0
    ensures HasPrefix(Join(xs, c), xs[0])
  {
    if |xs| > 1 {
      assert (xs[0] + [c] + Join(xs[1..], c))[..|xs[0]|] == xs[0];
    }
  }

  /** A join ends with its last item. */
  lemma {:induction false} JoinSuffix(xs: seq<string>, c: char)
    requires |xs| > 0
    ensures HasSuffix(Join(xs, c), xs[|xs| - 1])
    decreases |xs|
  {
    if |xs| > 1 {
      var rest := Join(xs[1..], c);
      JoinSuffix(xs[1..], c);
      var j := xs[0] + [c] + rest;
      var n := |xs[|xs| - 1]|;
      assert j[|j| - n..] == rest[|rest| - n..];
    }
  }

  /** A join holds each of its items. */
  lemma {:induction false} JoinContains(xs: seq<string>, c: char, i: nat)
    requires i < |xs|
    ensures Contains(Join(xs, c), xs[i])
    decreases |xs|
  {
    var j := Join(xs, c);
    if i == 0 {
      JoinPrefix(xs, c);
      assert OccursAt(j, xs[0], 0);
    } else {
      var rest := Join(xs[1..], c);
      JoinContains(xs[1..], c, i - 1);
      assert xs[1..][i - 1] == xs[i];
      var k: nat :| k <= |rest| && OccursAt(rest, xs[i], k);
      var off := |xs[0]| + 1;
      assert j == xs[0] + [c] + rest;
      assert j[off + k..off + k + |xs[i]|] == rest[k..k + |xs[i]|];
      assert OccursAt(j, xs[i], off + k);
    }
  }

  /** The parts `_render_reference` ends with, before folding. */
  function Appended(parts: seq<Part>, chunks: seq<Chunk>): seq<Part> {
    var refs := References(chunks);
    parts + (if |refs| > 0 then [Part(Some(ReferenceText(refs)))] else [])
  }

  /** When the answer can be rendered, its role is kept and its parts are the
      appended ones, folded. */
  lemma RenderedRole(content: Option<Content>, metadata: Option<GroundingMetadata>)
    requires content.Some? && content.value.parts.Some? && |content.value.parts.value| > 0 && metadata.Some?
    ensures Rendered(content, metadata) ==
      Some(Content(content.value.role, Some(Folded(Appended(content.value.parts.value, metadata.value.chunks.GetOr([]))))))
  {
  }

  /** If some part has no text, the parts are the originals with at most the
      one reference part appended. */
  lemma AppendedOnly(parts: seq<Part>, chunks: seq<Chunk>)
    requires !AllText(Appended(parts, chunks))
    ensures Folded(Appended(parts, chunks)) == Appended(parts, chunks)
    ensures |Appended(parts, chunks)| <= |parts| + 1 && Appended(parts, chunks)[..|parts|] == parts
    ensures |References(chunks)| > 0 ==>
      Appended(parts, chunks)[|parts|] == Part(Some(ReferenceText(References(chunks))))
  {
  }

  /** If every part has a text, a single part remains: it starts with the
      first original text, holds every original text and ends with the
      references. */
  lemma FoldedText(parts: seq<Part>, chunks: seq<Chunk>)
    requires |parts| > 0 && AllText(Appended(parts, chunks))
    ensures var f := Folded(Appended(parts, chunks));
      |f| == 1 && f[0].text.Some? && HasPrefix(f[0].text.value, PartTexts(parts)[0]) &&
      (forall i :: 0 <= i < |parts| ==> Contains(f[0].text.value, PartTexts(parts)[i])) &&
      (|References(chunks)| > 0 ==> HasSuffix(f[0].text.value, ReferenceText(References(chunks))))
  {
    var all := Appended(parts, chunks);
    var texts := PartTexts(all);
    JoinPrefix(texts, '\n');
    JoinSuffix(texts, '\n');
    forall i | 0 <= i < |parts|
      ensures Contains(Join(texts, '\n'), PartTexts(parts)[i])
    {
      assert all[i] == parts[i];
      JoinContains(texts, '\n', i);
    }
  }

  /** The body of the loop over the chunks: the reference line of one. */
  method ReferenceLine(chunk: Chunk) returns (line: Option<string>)
    ensures line == Line(chunk)
  {
    var title, uri, text := "", "", "";
    if chunk.retrievedContext.Some? {
      title := Text(chunk.retrievedContext.value.title);
      uri := Text(chunk.retrievedContext.value.uri);
      text := Text(chunk.retrievedContext.value.text);
    } else if chunk.web.Some? {
      title := Text(chunk.web.value.title);
      uri := Text(chunk.web.value.uri);
    }
    var items := Items(title, text);
    if uri != "" && |items| > 0 {
      items := items[0 := Link(items[0], uri)];
    }
    line := None;
    if |items| > 0 {
      line := Some("* " + JoinWith(items, ": ") + "\n");
    }
  }

  /** The loop over the grounding chunks, collecting their reference lines. */
  method CollectReferences(chunks: seq<Chunk>) returns (references: seq<string>)
    ensures references == References(chunks)
  {
    references := [];
    var i := 0;
    while i < |chunks|
      invariant 0 <= i <= |chunks|
      invariant references == References(chunks[..i])
    {
      var line := ReferenceLine(chunks[i]);
      ReferencesSnoc(chunks, i);
      if line.Some? {
        references := references + [line.value];
      }
      i := i + 1;
    }
    assert chunks[..i] == chunks;
  }

  /** One more chunk appends its line, if it has one, to the references. */
  lemma ReferencesSnoc(chunks: seq<Chunk>, i: nat)
    requires i < |chunks|
    ensures References(chunks[..i + 1]) ==
      References(chunks[..i]) + (if Line(chunks[i]).Some? then [Line(chunks[i]).value] else [])
  {
    assert chunks[..i + 1][..i] == chunks[..i];
  }

  /** `_render_reference`: the response, edited in place. */
  method RenderReference(response: LlmResponse) returns (r: LlmResponse)
    modifies response
    ensures r == response
    ensures response.content == Rendered(old(response.content), old(response.groundingMetadata))
    ensures response.groundingMetadata == old(response.groundingMetadata)
  {
    r := response;
    if response.content.None? || response.content.value.parts.None? ||
       |response.content.value.parts.value| == 0 || response.groundingMetadata.None? {
      return;
    }
    var content := response.content.value;
    var chunks := response.groundingMetadata.value.chunks.GetOr([]);
    var references := CollectReferences(chunks);
    var parts := content.parts.value;
    if |references| > 0 {
      parts := parts + [Part(Some(ReferenceText(references)))];
    }
    assert parts == Appended(content.parts.value, chunks);
    if AllText(parts) {
      parts := [Part(Some(Join(PartTexts(parts), '\n')))];
    }
    RenderedRole(old(response.content), old(response.groundingMetadata));
    response.content := Some(Content(content.role, Some(parts)));
  }

  /** What iterating over `None` raises. */
  const NotIterable := "TypeError: 'NoneType' object is not iterable"

  /** The messages the first loop builds: here a `Content` without a parts
      list is iterated as it is, which raises. */
  function StrictSingles(inputs: seq<Input>, dumps: Dumps): Result<seq<Message>>
    decreases |inputs|
  {
    if |inputs| == 0 then Ok([])
    else
      var init := StrictSingles(inputs[..|inputs| - 1], dumps);
      var x := inputs[|inputs| - 1];
      if init.Err? then init
      else if x.ContentInput? && x.content.parts.None? then Err(NotIterable)
      else Ok(init.value + [Single(x, dumps)])
  }

  /** Some input is a `Content` without parts. */
  predicate HasPartless(inputs: seq<Input>) {
    exists i :: 0 <= i < |inputs| && inputs[i].ContentInput? && inputs[i].content.parts.None?
  }

  /** The strict loop fails exactly when some content has no parts, and
      otherwise builds the same messages as the lenient one. */
  lemma {:induction false} StrictSinglesAgree(inputs: seq<Input>, dumps: Dumps)
    ensures StrictSingles(inputs, dumps).Err? <==> HasPartless(inputs)
    ensures StrictSingles(inputs, dumps).Err? ==> StrictSingles(inputs, dumps).error == NotIterable
    ensures StrictSingles(inputs, dumps).Ok? ==>
      StrictSingles(inputs, dumps).value == seq(|inputs|, i requires 0 <= i < |inputs| => Single(inputs[i], dumps))
    decreases |inputs|
  {
    if |inputs| > 0 {
      var init := inputs[..|inputs| - 1];
      StrictSinglesAgree(init, dumps);
      if HasPartless(init) {
        var i :| 0 <= i < |init| && init[i].ContentInput? && init[i].content.parts.None?;
        assert inputs[i] == init[i];
      }
      if HasPartless(inputs) {
        var i :| 0 <= i < |inputs| && inputs[i].ContentInput? && inputs[i].content.parts.None?;
        if i < |init| {
          assert init[i] == inputs[i];
        }
      }
    }
  }

  /** What the strict `force_string_content` leaves as the contents, or the
      error it raises. */
  function StrictForced(inputs: seq<Input>, dumps: Dumps): Result<seq<Input>> {
    match StrictSingles(inputs, dumps)
    case Err(e) => Err(e)
    case Ok(singles) =>
      var collapsed := Collapse(singles);
      Ok(seq(|collapsed|, i requires 0 <= i < |collapsed| => AsInput(collapsed[i])))
  }

  /** Where every content has parts, both callbacks agree; otherwise the
      strict one raises. */
  lemma StrictForcedAgrees(inputs: seq<Input>, dumps: Dumps)
    ensures !HasPartless(inputs) ==> StrictForced(inputs, dumps) == Ok(Forced(inputs, dumps))
    ensures HasPartless(inputs) ==> StrictForced(inputs, dumps) == Err(NotIterable)
  {
    StrictSinglesAgree(inputs, dumps);
  }

  /** The critic's `force_string_content`: the contents are replaced, unless
      the loop raises, in which case they are left as they were. */
  method ForceStringContent(request: LlmRequest, dumps: Dumps) returns (err: Option<string>)
    modifies request
    ensures StrictForced(old(request.contents), dumps).Ok? ==>
      err.None? && request.contents == StrictForced(old(request.contents), dumps).value
    ensures StrictForced(old(request.contents), dumps).Err? ==>
      err == Some(StrictForced(old(request.contents), dumps).error) && request.contents == old(request.contents)
  {
    var inputs := request.contents;
    var newContents: seq<Message> := [];
    var i := 0;
    while i < |inputs|
      invariant 0 <= i <= |inputs|
      invariant StrictSingles(inputs[..i], dumps) == Ok(newContents)
    {
      assert inputs[..i + 1][..i] == inputs[..i];
      var content := inputs[i];
      if content.TextInput? {
        newContents := newContents + [Message("user", content.s)];
      } else if content.ContentInput? {
        if content.content.parts.None? {
          assert StrictSingles(inputs[..i + 1], dumps).Err?;
          StrictPrefixFails(inputs, dumps, i + 1);
          return Some(NotIterable);
        }
        var mergedText := Join(PartTexts(content.content.parts.value), '\n');
        newContents := newContents + [Message(RoleOr(content.content.role), mergedText)];
      } else {
        newContents := newContents + [Message("user", dumps(content.value))];
      }
      i := i + 1;
    }
    assert inputs[..i] == inputs;
    var collapsed := CollapseMessages(newContents);
    request.contents := seq(|collapsed|, j requires 0 <= j < |collapsed| => AsInput(collapsed[j]));
    err := None;
  }

  /** Once a prefix fails, the whole list fails with the same error. */
  lemma {:induction false} StrictPrefixFails(inputs: seq<Input>, dumps: Dumps, n: nat)
    requires n <= |inputs| && StrictSingles(inputs[..n], dumps).Err?
    ensures StrictSingles(inputs, dumps) == StrictSingles(inputs[..n], dumps)
    decreases |inputs| - n
  {
    if n < |inputs| {
      assert inputs[..n + 1][..n] == inputs[..n];
      StrictPrefixFails(inputs, dumps, n + 1);
    } else {
      assert inputs[..n] == inputs;
    }
  }
}
