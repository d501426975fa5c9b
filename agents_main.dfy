/** The flag handling of the agents gateway entry point
    (cmd/agents_gateway/main.go), which carries its own copy of the comma-list
    parser. */
module AgentsMain {
  import opened Strs
  import Parse
  import ListTools

  /** `parseCommaSeparated` of main.go: the trimmed comma-separated segments. */
  method ParseCommaSeparated(values: string) returns (parsed: seq<string>)
    ensures parsed == Parse.CommaList(values)
    ensures |parsed| == Count(values, ',') + 1
  {
    var segments := Split(values, ',');
    parsed := [];
    var i := 0;
    while i < |segments|
      invariant 0 <= i <= |segments|
      invariant parsed == Parse.TrimAll(segments[..i])
    {
      var piece := segments[i];
      ghost var next := segments[..i + 1];
      assert next[..|next| - 1] == segments[..i] && next[|next| - 1] == piece;
      parsed := parsed + [TrimSpace(piece)];
      i := i + 1;
    }
    assert segments[..i] == segments;
    Parse.CommaListLength(values);
  }

  /** The default `--tools ""` becomes the allow-list `[""]`, which is not empty
      and so enables no tool whose name is not empty. */
  lemma DefaultToolsEnableNothing(serverName: string, image: string, toolName: string)
    requires toolName != ""
    ensures Parse.CommaList("") == [""]
    ensures !ListTools.IsToolEnabled(serverName, image, toolName, Parse.CommaList(""))
  {
    Parse.EmptyIsOneBlank();
    ListTools.EmptyEntryEnablesNothing(serverName, image, toolName);
  }
}
