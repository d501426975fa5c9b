/** Comma-list parsing of the agents gateway (cmd/agents_gateway/server/parse.go). */
module Parse {
  import opened Strs

  /** Every piece, trimmed. */
  function TrimAll(parts: seq<string>): (r: seq<string>)
    ensures |r| == |parts|
    decreases |parts|
  {
    if |parts| == 0 then [] else TrimAll(parts[..|parts| - 1]) + [TrimSpace(parts[|parts| - 1])]
  }

  /** The element at `i` is the piece at `i`, trimmed. (Kept out of the
      contract of `TrimAll`, which every caller of a comma list would
      otherwise have to carry.) */
  lemma {:induction false} TrimAllAt(parts: seq<string>, i: int)
    requires 0 <= i < |parts|
    ensures TrimAll(parts)[i] == TrimSpace(parts[i])
    decreases |parts|
  {
    if i < |parts| - 1 {
      TrimAllAt(parts[..|parts| - 1], i);
    }
  }

  /** Pieces that are already trimmed are left as they are. */
  lemma TrimAllKeeps(parts: seq<string>)
    requires forall i :: 0 <= i < |parts| ==> TrimSpace(parts[i]) == parts[i]
    ensures TrimAll(parts) == parts
  {
    forall i | 0 <= i < |parts|
      ensures TrimAll(parts)[i] == parts[i]
    {
      TrimAllAt(parts, i);
    }
  }

  /** What `parseCommaSeparated` returns for `values`. */
  function CommaList(values: string): seq<string> {
    TrimAll(Split(values, ','))
  }

  /** `parseCommaSeparated`: the trimmed comma-separated segments, in order. */
  method ParseCommaSeparated(values: string) returns (parsed: seq<string>)
    ensures parsed == CommaList(values)
  {
    var segments := Split(values, ',');
    parsed := [];
    var i := 0;
    while i < |segments|
      invariant 0 <= i <= |segments|
      invariant parsed == TrimAll(segments[..i])
    {
      var piece := segments[i];
      ghost var next := segments[..i + 1];
      assert next[..|next| - 1] == segments[..i] && next[|next| - 1] == piece;
      parsed := parsed + [TrimSpace(piece)];
      i := i + 1;
    }
    assert segments[..i] == segments;
  }

  /** `parseServers`. */
  method ParseServers(servers: string) returns (parsed: seq<string>)
    ensures parsed == CommaList(servers)
  {
    parsed := ParseCommaSeparated(servers);
  }

  /** `parseConfig`. */
  method ParseConfig(config: string) returns (parsed: seq<string>)
    ensures parsed == CommaList(config)
  {
    parsed := ParseCommaSeparated(config);
  }

  /** One element per segment: the number of commas plus one. */
  lemma CommaListLength(values: string)
    ensures |CommaList(values)| == Count(values, ',') + 1
  {
    SplitLength(values, ',');
  }

  /** Every element is already trimmed. */
  lemma CommaListTrimmed(values: string, i: int)
    requires 0 <= i < |CommaList(values)|
    ensures TrimSpace(CommaList(values)[i]) == CommaList(values)[i]
  {
    TrimAllAt(Split(values, ','), i);
    TrimSpaceIdempotent(Split(values, ',')[i]);
  }

  /** The empty text yields one empty element, not an empty list. */
  lemma EmptyIsOneBlank()
    ensures CommaList("") == [""]
  {
    assert Split("", ',') == [""];
  }

  /** A split piece only holds characters of the text it came from. */
  lemma {:induction false} SplitPieceChars(s: string, c: char, i: int, ch: char)
    requires 0 <= i < |Split(s, c)| && ch in Split(s, c)[i]
    ensures ch in s
    decreases |s|
  {
    var (b, a, f) := Cut(s, c);
    if f {
      if i > 0 {
        SplitPieceChars(a, c, i - 1, ch);
      }
    }
  }

  /** Without white space, joining the result with `,` gives back the input. */
  lemma NoSpaceRoundTrip(values: string)
    requires forall k :: 0 <= k < |values| ==> !IsSpace(values[k])
    ensures Join(CommaList(values), ',') == values
  {
    var segments := Split(values, ',');
    forall i | 0 <= i < |segments|
      ensures TrimSpace(segments[i]) == segments[i]
    {
      var p := segments[i];
      if p != "" {
        SplitPieceChars(values, ',', i, p[0]);
        SplitPieceChars(values, ',', i, p[|p| - 1]);
      }
      TrimSpaceKeeps(p);
    }
    TrimAllKeeps(segments);
    JoinSplit(values, ',');
  }
}
