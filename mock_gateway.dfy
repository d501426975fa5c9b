/** The HTTP mock gateway of agno/mock-gateway/main.go: canned tool responses
    loaded from a directory of JSON files, served under `/mcp/{tool}/{method}`.

    The directory walk is a sequence of entries, in walk order, each with the
    error the walk reports for it and the outcome of reading it; JSON decoding
    of a mock file is a parameter. */
module MockGateway {
  import opened Wrappers
  import opened Strs
  import opened Values
  import Images

  datatype MockResponse = MockResponse(tool: string, methodName: string, response: map<string, Value>)

  /** One path the walk visits. */
  datatype WalkEntry = WalkEntry(path: string, walkErr: Option<string>, contents: Result<string>)

  /** `json.Unmarshal` of a mock file. */
  type Decode = string -> Result<MockResponse>

  /** The key a mock is stored under: `tool:method`. */
  function Key(mock: MockResponse): string {
    mock.tool + ":" + mock.methodName
  }

  /** Every mock sits under its own key. */
  ghost predicate Keyed(mocks: map<string, MockResponse>) {
    forall k :: k in mocks ==> Key(mocks[k]) == k
  }

  /** The walk of `LoadMocks` from the map `mocks`: the map it leaves and the
      error that stopped the walk, if any. */
  function Load(mocks: map<string, MockResponse>, files: seq<WalkEntry>, decode: Decode)
    : (r: (map<string, MockResponse>, Option<string>))
    decreases |files|
  {
    if |files| == 0 then (mocks, None)
    else
      var f := files[0];
      if f.walkErr.Some? then (mocks, f.walkErr)
      else if !HasSuffix(f.path, ".json") then Load(mocks, files[1..], decode)
      else if f.contents.Err? then (mocks, Some("failed to read mock file " + f.path + ": " + f.contents.error))
      else
        match decode(f.contents.value)
        case Err(e) => (mocks, Some("failed to parse mock file " + f.path + ": " + e))
        case Ok(mock) => Load(mocks[Key(mock) := mock], files[1..], decode)
  }

  /** Loading only ever adds or replaces entries, each under its own key. */
  lemma {:induction false} LoadKeepsKeyed(mocks: map<string, MockResponse>, files: seq<WalkEntry>, decode: Decode)
    requires Keyed(mocks)
    ensures Keyed(Load(mocks, files, decode).0)
    ensures mocks.Keys <= Load(mocks, files, decode).0.Keys
    decreases |files|
  {
    if |files| > 0 {
      var f := files[0];
      if f.walkErr.None? && HasSuffix(f.path, ".json") && f.contents.Ok? && decode(f.contents.value).Ok? {
        var mock := decode(f.contents.value).value;
        LoadKeepsKeyed(mocks[Key(mock) := mock], files[1..], decode);
      } else if f.walkErr.None? && !HasSuffix(f.path, ".json") {
        LoadKeepsKeyed(mocks, files[1..], decode);
      }
    }
  }

  /** Files without the `.json` suffix are passed over. */
  lemma SkipsOtherFiles(mocks: map<string, MockResponse>, f: WalkEntry, rest: seq<WalkEntry>, decode: Decode)
    requires f.walkErr.None? && !HasSuffix(f.path, ".json")
    ensures Load(mocks, [f] + rest, decode) == Load(mocks, rest, decode)
  {
    assert ([f] + rest)[1..] == rest;
  }

  /** Of two files with the same key, the later one is kept. */
  lemma {:induction false} LaterFileWins(mocks: map<string, MockResponse>, f1: WalkEntry, f2: WalkEntry, decode: Decode)
    requires f1.walkErr.None? && HasSuffix(f1.path, ".json") && f1.contents.Ok? && decode(f1.contents.value).Ok?
    requires f2.walkErr.None? && HasSuffix(f2.path, ".json") && f2.contents.Ok? && decode(f2.contents.value).Ok?
    requires Key(decode(f1.contents.value).value) == Key(decode(f2.contents.value).value)
    ensures var m := decode(f2.contents.value).value;
      Load(mocks, [f1, f2], decode) == (mocks[Key(m) := m], None)
  {
    var m1, m2 := decode(f1.contents.value).value, decode(f2.contents.value).value;
    assert [f1, f2][1..] == [f2];
    assert [f2][1..] == [];
    assert Load(mocks[Key(m1) := m1][Key(m2) := m2], [], decode) == (mocks[Key(m1) := m1][Key(m2) := m2], None);
    assert Load(mocks[Key(m1) := m1], [f2], decode) == Load(mocks[Key(m1) := m1][Key(m2) := m2], [], decode);
    assert mocks[Key(m1) := m1][Key(m2) := m2] == mocks[Key(m2) := m2];
  }

  /** A file that cannot be read or parsed stops the walk with an error naming
      it; what was loaded before it stays. */
  lemma BadFileStops(mocks: map<string, MockResponse>, f: WalkEntry, rest: seq<WalkEntry>, decode: Decode)
    requires f.walkErr.None? && HasSuffix(f.path, ".json")
    requires f.contents.Err? || decode(f.contents.value).Err?
    ensures Load(mocks, [f] + rest, decode).0 == mocks
    ensures Load(mocks, [f] + rest, decode).1.Some?
    ensures HasPrefix(Load(mocks, [f] + rest, decode).1.value, "failed to ")
  {
  }

  const StatusBadRequest := 400
  const StatusMethodNotAllowed := 405
  const StatusInternalServerError := 500

  /** What `HandleMCPCall` writes: an HTTP error, the default body
      `{"success": false, "error": ...}`, or a mock's response. */
  datatype Reply =
    | HttpError(status: int, message: string)
    | NoMock(error: string)
    | MockBody(response: map<string, Value>)

  /** The key a request path names: the first three `/`-separated segments,
      after trimming slashes, must be `mcp`, a tool and a method. */
  function Route(path: string): (r: Option<string>)
    ensures r.Some? <==> |Split(TrimChar(path, '/'), '/')| >= 3 && Split(TrimChar(path, '/'), '/')[0] == "mcp"
  {
    var parts := Split(TrimChar(path, '/'), '/');
    if |parts| < 3 || parts[0] != "mcp" then None else Some(parts[1] + ":" + parts[2])
  }

  /** Segments after the method play no part. */
  lemma RouteIgnoresExtra(tool: string, methodName: string, extra: string)
    requires '/' !in tool && '/' !in methodName && tool != "" && methodName != ""
    ensures Route("/mcp/" + tool + "/" + methodName + "/" + extra) == Some(tool + ":" + methodName)
  {
    var head := "mcp/" + tool + "/" + methodName;
    var q := head + "/" + extra;
    assert "/mcp/" + tool + "/" + methodName + "/" + extra == ['/'] + q;
    assert (['/'] + q)[1..] == q;
    assert head[|head| - 1] == methodName[|methodName| - 1];
    TrimKeepsHead(q, head, extra);
    SplitThree(TrimChar(q, '/'), "mcp", tool, methodName);
  }

  /** Trimming slashes from `head/extra` keeps `head` when `head` neither starts
      nor ends with a slash. */
  lemma TrimKeepsHead(q: string, head: string, extra: string)
    requires q == head + "/" + extra
    requires |head| > 0 && head[0] != '/' && head[|head| - 1] != '/'
    ensures HasPrefix(TrimChar(q, '/'), head)
    ensures |TrimChar(q, '/')| == |head| || TrimChar(q, '/')[|head|] == '/'
  {
    var n := |head|;
    assert q[0] == head[0];
    TrimCharPrefix(q, head[0], '/');
    var t := TrimChar(q, '/');
    assert q[n - 1] == head[n - 1];
    assert |t| >= n;
    assert t == q[..|t|];
    assert q[..n] == head;
    assert t[..n] == head;
    if |t| > n {
      assert t[n] == q[n] == '/';
    }
  }

  /** Trimming `c` from text that starts with another character only drops
      a trailing run of `c`. */
  lemma {:induction false} TrimCharPrefix(s: string, first: char, c: char)
    requires |s| > 0 && s[0] == first && first != c
    ensures |TrimChar(s, c)| > 0 && TrimChar(s, c)[0] == first
    ensures HasPrefix(s, TrimChar(s, c))
    ensures forall k :: |TrimChar(s, c)| <= k < |s| ==> s[k] == c
    decreases |s|
  {
    if s[|s| - 1] == c {
      if |s| == 1 {
        assert false;
      }
      var init := s[..|s| - 1];
      TrimCharPrefix(init, first, c);
      assert forall k :: 0 <= k < |init| ==> init[k] == s[k];
    }
  }

  /** A text starting with `a/b/c/` or equal to `a/b/c` splits into `a`, `b`, `c` first. */
  lemma SplitThree(s: string, a: string, b: string, c: string)
    requires '/' !in a && '/' !in b && '/' !in c
    requires HasPrefix(s, a + "/" + b + "/" + c)
    requires |s| == |a + "/" + b + "/" + c| || s[|a + "/" + b + "/" + c|] == '/'
    ensures |Split(s, '/')| >= 3
    ensures Split(s, '/')[0] == a && Split(s, '/')[1] == b && Split(s, '/')[2] == c
  {
    var n := |a + "/" + b + "/" + c|;
    var rest := s[n..];
    var s2 := c + rest;
    var s1 := b + ['/'] + s2;
    assert s == a + ['/'] + s1;
    CutAt(a, s1, '/');
    assert Split(s, '/') == [a] + Split(s1, '/');
    CutAt(b, s2, '/');
    assert Split(s1, '/') == [b] + Split(s2, '/');
    if |rest| == 0 {
      assert s2 == c;
      assert Cut(c, '/').2 == false;
      assert Split(s2, '/') == [c];
    } else {
      assert rest[0] == '/';
      assert s2 == c + ['/'] + rest[1..];
      CutAt(c, rest[1..], '/');
      assert Split(s2, '/') == [c] + Split(rest[1..], '/');
    }
  }

  /** The HTTP handlers, over the mocks loaded so far. */
  class MockGatewayServer {
    var mocks: map<string, MockResponse>

    constructor()
      ensures mocks == map[]
    {
      mocks := map[];
    }

    /** `LoadMocks`: the walk, adding each mock under its key in place. */
    method LoadMocks(files: seq<WalkEntry>, decode: Decode) returns (err: Option<string>)
      modifies this
      ensures (mocks, err) == Load(old(mocks), files, decode)
    {
      var i := 0;
      while i < |files|
        invariant 0 <= i <= |files|
        invariant Load(mocks, files[i..], decode) == Load(old(mocks), files, decode)
      {
        var f := files[i];
        assert files[i..][1..] == files[i + 1..];
        if f.walkErr.Some? {
          return f.walkErr;
        }
        if !HasSuffix(f.path, ".json") {
          i := i + 1;
          continue;
        }
        if f.contents.Err? {
          return Some("failed to read mock file " + f.path + ": " + f.contents.error);
        }
        var decoded := decode(f.contents.value);
        if decoded.Err? {
          return Some("failed to parse mock file " + f.path + ": " + decoded.error);
        }
        var mock := decoded.value;
        mocks := mocks[Key(mock) := mock];
        i := i + 1;
      }
      return None;
    }

    /** `HandleMCPCall` for an HTTP method, a URL path and the outcome of
        reading the body; `encodes` says whether a mock's response can be
        written as JSON. */
    function HandleMCPCall(httpMethod: string, path: string, body: Result<string>,
                           encodes: map<string, Value> -> bool): (r: Reply)
      reads this
      ensures httpMethod != "POST" ==> r == HttpError(StatusMethodNotAllowed, "Method not allowed")
      ensures httpMethod == "POST" && Route(path).None? ==>
        r == HttpError(StatusBadRequest, "Invalid path format. Expected: /mcp/{tool}/{method}")
      ensures httpMethod == "POST" && Route(path).Some? && body.Err? ==>
        r == HttpError(StatusBadRequest, "Failed to read request body")
      ensures httpMethod == "POST" && Route(path).Some? && body.Ok? ==>
        var key := Route(path).value;
        (key !in mocks ==> r == NoMock("No mock configured for " + key)) &&
        (key in mocks && encodes(mocks[key].response) ==> r == MockBody(mocks[key].response)) &&
        (key in mocks && !encodes(mocks[key].response) ==>
           r == HttpError(StatusInternalServerError, "Failed to encode response"))
    {
      if httpMethod != "POST" then HttpError(StatusMethodNotAllowed, "Method not allowed")
      else
        match Route(path)
        case None => HttpError(StatusBadRequest, "Invalid path format. Expected: /mcp/{tool}/{method}")
        case Some(key) =>
          if body.Err? then HttpError(StatusBadRequest, "Failed to read request body")
          else if key !in mocks then NoMock("No mock configured for " + key)
          else if encodes(mocks[key].response) then MockBody(mocks[key].response)
          else HttpError(StatusInternalServerError, "Failed to encode response")
    }

    /** `HandleHealth`: the status text and the number of loaded mocks. */
    function HandleHealth(): (r: (string, nat))
      reads this
      ensures r.0 == "healthy" && r.1 == |mocks|
    {
      ("healthy", |mocks|)
    }

    /** `HandleListMocks`: every key once, in map order, and their count. */
    method HandleListMocks() returns (keys: seq<string>, count: nat)
      ensures Images.Distinct(keys) && (forall k :: k in keys <==> k in mocks)
      ensures count == |keys| == |mocks| == HandleHealth().1
    {
      keys := [];
      var remaining := mocks.Keys;
      while remaining != {}
        invariant remaining <= mocks.Keys
        invariant Images.Distinct(keys)
        invariant forall k :: k in keys <==> k in mocks && k !in remaining
        invariant |keys| + |remaining| == |mocks.Keys|
        decreases |remaining|
      {
        var k :| k in remaining;
        keys := keys + [k];
        remaining := remaining - {k};
      }
      assert |mocks.Keys| == |mocks|;
      count := |keys|;
    }
  }
}
