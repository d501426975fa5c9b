/** Starting a backend client from the `--config` flag: the per-image
    `NAME=VALUE` entries become `-e NAME` docker arguments and an environment
    (cmd/agents_gateway/server/start.go and gateway/cmd/agents_gateway/server/server.go). */
module Start {
  import opened Wrappers
  import opened Strs
  import Parse
  import AgentServers
  import McpClient

  /** `os.Getenv`. */
  type Getenv = string -> string

  /** An entry is for `image` when it starts with `image.`. */
  predicate Accepts(image: string, cfg: string) {
    HasPrefix(cfg, image + ".")
  }

  /** The `NAME=VALUE` part after the image prefix. */
  function Mapping(image: string, cfg: string): string {
    TrimPrefix(cfg, image + ".")
  }

  /** `strings.SplitN(mapping, "=", 2)` has two parts iff the mapping holds `=`. */
  predicate WellFormed(image: string, cfg: string) {
    Cut(Mapping(image, cfg), '=').2
  }

  function EntryName(image: string, cfg: string): (r: string)
    ensures '=' !in r
  {
    Cut(Mapping(image, cfg), '=').0
  }

  function EntryValue(image: string, cfg: string): string {
    Cut(Mapping(image, cfg), '=').1
  }

  /** A value `$X` is read from the environment variable `X`, anything else is literal. */
  function Resolve(value: string, getenv: Getenv): (r: string)
    ensures HasPrefix(value, "$") ==> r == getenv(value[1..])
    ensures !HasPrefix(value, "$") ==> r == value
  {
    if HasPrefix(value, "$") then getenv(value[1..]) else value
  }

  /** The environment binding of one entry. */
  function Binding(image: string, cfg: string, getenv: Getenv): (r: string)
    ensures '=' in r
  {
    var r := EntryName(image, cfg) + "=" + Resolve(EntryValue(image, cfg), getenv);
    assert r[|EntryName(image, cfg)|] == '=';
    r
  }

  /** The entries for `image`, in order. */
  function Accepted(image: string, cfgs: seq<string>): (r: seq<string>)
    ensures forall c :: c in r <==> c in cfgs && Accepts(image, c)
    decreases |cfgs|
  {
    if |cfgs| == 0 then []
    else
      var last := cfgs[|cfgs| - 1];
      Accepted(image, cfgs[..|cfgs| - 1]) + (if Accepts(image, last) then [last] else [])
  }

  /** The first entry for `image` that has no `=`. */
  function FirstInvalid(image: string, cfgs: seq<string>): (r: Option<string>)
    ensures r.Some? ==> r.value in cfgs && Accepts(image, r.value) && !WellFormed(image, r.value)
    ensures r.None? ==> forall c :: c in cfgs && Accepts(image, c) ==> WellFormed(image, c)
    decreases |cfgs|
  {
    if |cfgs| == 0 then None
    else
      var last := cfgs[|cfgs| - 1];
      var before := FirstInvalid(image, cfgs[..|cfgs| - 1]);
      if before.Some? then before
      else if Accepts(image, last) && !WellFormed(image, last) then Some(last)
      else None
  }

  /** Once an invalid entry is found, later entries do not change the verdict. */
  lemma {:induction false} FirstInvalidSticks(image: string, cfgs: seq<string>, i: nat)
    requires i <= |cfgs| && FirstInvalid(image, cfgs[..i]).Some?
    ensures FirstInvalid(image, cfgs) == FirstInvalid(image, cfgs[..i])
    decreases |cfgs| - i
  {
    if i < |cfgs| {
      var init := cfgs[..|cfgs| - 1];
      assert init[..i] == cfgs[..i];
      FirstInvalidSticks(image, init, i);
    } else {
      assert cfgs[..i] == cfgs;
    }
  }

  /** `-e NAME` for every entry, in order. */
  function ArgsOf(image: string, entries: seq<string>): (r: seq<string>)
    ensures |r| == 2 * |entries|
    ensures forall i :: 0 <= i < |entries| ==> r[2 * i] == "-e" && r[2 * i + 1] == EntryName(image, entries[i])
    decreases |entries|
  {
    if |entries| == 0 then []
    else ArgsOf(image, entries[..|entries| - 1]) + ["-e", EntryName(image, entries[|entries| - 1])]
  }

  /** The binding of every entry, in order: the environment the code evidently means to build. */
  function BindingsOf(image: string, entries: seq<string>, getenv: Getenv): (r: seq<string>)
    ensures |r| == |entries|
    decreases |entries|
  {
    if |entries| == 0 then []
    else BindingsOf(image, entries[..|entries| - 1], getenv) + [Binding(image, entries[|entries| - 1], getenv)]
  }

  /** `env = append(args, binding)` read with copying `append`: the arguments of all
      earlier entries followed by the last entry's binding. */
  function EnvAsWritten(image: string, entries: seq<string>, getenv: Getenv): (r: seq<string>)
    ensures |entries| == 0 ==> r == []
    ensures |entries| > 0 ==> |r| == 2 * |entries| - 1
  {
    if |entries| == 0 then []
    else ArgsOf(image, entries[..|entries| - 1]) + [Binding(image, entries[|entries| - 1], getenv)]
  }

  /** No docker argument carries `=`, so no value, literal or resolved, reaches the argv. */
  lemma ArgsCarryNoValues(image: string, entries: seq<string>, x: string)
    requires x in ArgsOf(image, entries)
    ensures '=' !in x
  {
    var r := ArgsOf(image, entries);
    var k :| 0 <= k < |r| && r[k] == x;
    assert r[2 * (k / 2)] == "-e" && r[2 * (k / 2) + 1] == EntryName(image, entries[k / 2]);
  }

  /** The first `=` splits an entry, so a value may itself contain `=`. */
  lemma SplitAtFirstEquals(image: string, name: string, value: string)
    requires '=' !in name
    ensures Accepts(image, image + "." + name + "=" + value)
    ensures WellFormed(image, image + "." + name + "=" + value)
    ensures EntryName(image, image + "." + name + "=" + value) == name
    ensures EntryValue(image, image + "." + name + "=" + value) == value
  {
    var cfg := image + "." + name + "=" + value;
    assert cfg[..|image + "."|] == image + ".";
    assert Mapping(image, cfg) == name + ['='] + value;
    CutAt(name, value, '=');
  }

  /** How the specification functions grow by an entry for another image. */
  lemma StepSkip(image: string, cfgs: seq<string>, cfg: string)
    requires !Accepts(image, cfg)
    ensures FirstInvalid(image, cfgs + [cfg]) == FirstInvalid(image, cfgs)
    ensures Accepted(image, cfgs + [cfg]) == Accepted(image, cfgs)
  {
    assert (cfgs + [cfg])[..|cfgs|] == cfgs;
  }

  /** ... by a malformed entry. */
  lemma StepBad(image: string, cfgs: seq<string>, cfg: string)
    requires FirstInvalid(image, cfgs).None? && Accepts(image, cfg) && !WellFormed(image, cfg)
    ensures FirstInvalid(image, cfgs + [cfg]) == Some(cfg)
  {
    assert (cfgs + [cfg])[..|cfgs|] == cfgs;
  }

  /** ... by a well-formed entry for the image. */
  lemma StepGood(image: string, cfgs: seq<string>, cfg: string)
    requires FirstInvalid(image, cfgs).None? && Accepts(image, cfg) && WellFormed(image, cfg)
    ensures FirstInvalid(image, cfgs + [cfg]).None?
    ensures Accepted(image, cfgs + [cfg]) == Accepted(image, cfgs) + [cfg]
  {
    assert (cfgs + [cfg])[..|cfgs|] == cfgs;
  }

  lemma ArgsSnoc(image: string, entries: seq<string>, cfg: string, getenv: Getenv)
    ensures ArgsOf(image, entries + [cfg]) == ArgsOf(image, entries) + ["-e", EntryName(image, cfg)]
    ensures BindingsOf(image, entries + [cfg], getenv) == BindingsOf(image, entries, getenv) + [Binding(image, cfg, getenv)]
    ensures EnvAsWritten(image, entries + [cfg], getenv) == ArgsOf(image, entries) + [Binding(image, cfg, getenv)]
  {
    assert (entries + [cfg])[..|entries|] == entries;
  }

  /** The loop of start.go:29-47 as written: `env` is rebuilt from `args` every time.
      The result lists the arguments and the environment, or the format error.
      The environment is computed with a copying `append`; the contract also holds
      for Go's `append`, which may share `args`' array and then leave `-e` where
      the last binding was. */
  method ConfigArgsAsWritten(image: string, config: string, getenv: Getenv)
    returns (args: seq<string>, env: seq<string>, err: Option<string>)
    ensures var cfgs := Parse.CommaList(config);
      var bad := FirstInvalid(image, cfgs);
      var entries := Accepted(image, cfgs);
      var n := |entries|;
      (bad.Some? ==> err == Some("invalid config format: " + bad.value)) &&
      (bad.None? ==> (err.None? && args == ArgsOf(image, entries) &&
         (n == 0 ==> env == []) &&
         (n > 0 ==> (|env| == 2 * n - 1 && env[..2 * n - 2] == args[..2 * n - 2] &&
                     (env[2 * n - 2] == Binding(image, entries[n - 1], getenv) || env[2 * n - 2] == "-e"))) &&
         (n <= 2 ==> env == EnvAsWritten(image, entries, getenv))))
  {
    var cfgs := Parse.ParseConfig(config);
    args, env, err := EntriesAsWritten(image, cfgs, getenv);
  }

  /** The entry loop itself, over the parsed entries. */
  method EntriesAsWritten(image: string, cfgs: seq<string>, getenv: Getenv)
    returns (args: seq<string>, env: seq<string>, err: Option<string>)
    ensures var bad := FirstInvalid(image, cfgs);
      var entries := Accepted(image, cfgs);
      var n := |entries|;
      (bad.Some? ==> err == Some("invalid config format: " + bad.value)) &&
      (bad.None? ==> (err.None? && args == ArgsOf(image, entries) &&
         (n == 0 ==> env == []) &&
         (n > 0 ==> (|env| == 2 * n - 1 && env[..2 * n - 2] == args[..2 * n - 2] &&
                     (env[2 * n - 2] == Binding(image, entries[n - 1], getenv) || env[2 * n - 2] == "-e"))) &&
         (n <= 2 ==> env == EnvAsWritten(image, entries, getenv))))
  {
    args, env := [], [];
    var i := 0;
    while i < |cfgs|
      invariant 0 <= i <= |cfgs|
      invariant FirstInvalid(image, cfgs[..i]).None?
      invariant args == ArgsOf(image, Accepted(image, cfgs[..i]))
      invariant env == EnvAsWritten(image, Accepted(image, cfgs[..i]), getenv)
    {
      var cfg := cfgs[i];
      assert cfgs[..i + 1] == cfgs[..i] + [cfg];
      var prefix := image + ".";
      if !HasPrefix(cfg, prefix) {
        StepSkip(image, cfgs[..i], cfg);
        i := i + 1;
        continue;
      }
      var mapping := TrimPrefix(cfg, prefix);
      var parts := Cut(mapping, '=');
      assert mapping == Mapping(image, cfg);
      if !parts.2 {
        StepBad(image, cfgs[..i], cfg);
        FirstInvalidSticks(image, cfgs, i + 1);
        return [], [], Some("invalid config format: " + cfg);
      }
      assert parts.0 == EntryName(image, cfg) && parts.1 == EntryValue(image, cfg);
      StepGood(image, cfgs[..i], cfg);
      ArgsSnoc(image, Accepted(image, cfgs[..i]), cfg, getenv);
      if HasPrefix(parts.1, "$") {
        env := args + [parts.0 + "=" + getenv(parts.1[1..])];
      } else {
        env := args + [parts.0 + "=" + parts.1];
      }
      args := args + ["-e", parts.0];
      i := i + 1;
    }
    assert cfgs[..i] == cfgs;
    AsWrittenShape(image, Accepted(image, cfgs), getenv);
    err := None;
  }

  /** The shape of the as-written environment that holds under both readings of
      Go's `append`: the arguments of the earlier entries, then one last item. */
  lemma AsWrittenShape(image: string, entries: seq<string>, getenv: Getenv)
    ensures var n := |entries|;
      var env := EnvAsWritten(image, entries, getenv);
      var args := ArgsOf(image, entries);
      (n == 0 ==> env == []) &&
      (n > 0 ==> (|env| == 2 * n - 1 && env[..2 * n - 2] == args[..2 * n - 2] &&
                  (env[2 * n - 2] == Binding(image, entries[n - 1], getenv) || env[2 * n - 2] == "-e")))
  {
    if |entries| > 0 {
      EnvPrefix(image, entries, getenv);
    }
  }

  /** The as-written environment shares all but its last item with the arguments,
      and that last item is the last entry's binding. */
  lemma EnvPrefix(image: string, entries: seq<string>, getenv: Getenv)
    requires |entries| > 0
    ensures var n := |entries|;
      EnvAsWritten(image, entries, getenv)[..2 * n - 2] == ArgsOf(image, entries)[..2 * n - 2] &&
      EnvAsWritten(image, entries, getenv)[2 * n - 2] == Binding(image, entries[n - 1], getenv)
  {
    var n := |entries|;
    var init := entries[..n - 1];
    assert ArgsOf(image, entries) == ArgsOf(image, init) + ["-e", EntryName(image, entries[n - 1])];
    assert |ArgsOf(image, init)| == 2 * n - 2;
  }

  /** With two entries for the image, the environment holds `-e`, the first name
      and only the second binding; the first binding is lost. */
  lemma AsWrittenLosesFirstBinding(image: string, c1: string, c2: string, getenv: Getenv)
    requires Accepts(image, c1) && Accepts(image, c2)
    ensures EnvAsWritten(image, [c1, c2], getenv) == ["-e", EntryName(image, c1), Binding(image, c2, getenv)]
    ensures EnvAsWritten(image, [c1, c2], getenv) != BindingsOf(image, [c1, c2], getenv)
  {
    var entries := [c1, c2];
    assert entries[..1] == [c1] && entries[1] == c2;
    assert [c1][..0] == [];
    assert ArgsOf(image, [c1]) == ["-e", EntryName(image, c1)];
    assert EnvAsWritten(image, entries, getenv) == ArgsOf(image, [c1]) + [Binding(image, c2, getenv)];
    assert |EnvAsWritten(image, entries, getenv)| == 3 != |BindingsOf(image, entries, getenv)|;
  }

  /** A two-entry `--config` of trimmed, comma-free entries is read as those entries. */
  lemma TwoEntryConfig(c1: string, c2: string)
    requires ',' !in c1 && ',' !in c2
    requires TrimSpace(c1) == c1 && TrimSpace(c2) == c2
    ensures Parse.CommaList(c1 + "," + c2) == [c1, c2]
  {
    var parts := [c1, c2];
    assert parts[1..] == [c2];
    assert Join(parts, ',') == c1 + [','] + c2;
    assert c1 + "," + c2 == c1 + [','] + c2;
    SplitJoin(parts, ',');
    assert Split(c1 + "," + c2, ',') == parts;
    assert parts[..1] == [c1] && [c1][..0] == [];
    assert Parse.TrimAll([c1]) == [TrimSpace(c1)];
    assert Parse.TrimAll(parts) == Parse.TrimAll([c1]) + [TrimSpace(c2)];
  }

  /** The loop with the environment accumulated, as evidently intended: every
      entry contributes `-e NAME` to the arguments and `NAME=VALUE` to the environment. */
  method ConfigArgs(image: string, config: string, getenv: Getenv)
    returns (args: seq<string>, env: seq<string>, err: Option<string>)
    ensures var cfgs := Parse.CommaList(config);
      var bad := FirstInvalid(image, cfgs);
      var entries := Accepted(image, cfgs);
      (bad.Some? ==> err == Some("invalid config format: " + bad.value)) &&
      (bad.None? ==> err.None? && args == ArgsOf(image, entries) && env == BindingsOf(image, entries, getenv))
  {
    var cfgs := Parse.ParseConfig(config);
    args, env, err := Entries(image, cfgs, getenv);
  }

  /** The corrected entry loop, over the parsed entries. */
  method Entries(image: string, cfgs: seq<string>, getenv: Getenv)
    returns (args: seq<string>, env: seq<string>, err: Option<string>)
    ensures var bad := FirstInvalid(image, cfgs);
      var entries := Accepted(image, cfgs);
      (bad.Some? ==> err == Some("invalid config format: " + bad.value)) &&
      (bad.None? ==> err.None? && args == ArgsOf(image, entries) && env == BindingsOf(image, entries, getenv))
  {
    args, env := [], [];
    var i := 0;
    while i < |cfgs|
      invariant 0 <= i <= |cfgs|
      invariant FirstInvalid(image, cfgs[..i]).None?
      invariant args == ArgsOf(image, Accepted(image, cfgs[..i]))
      invariant env == BindingsOf(image, Accepted(image, cfgs[..i]), getenv)
    {
      var cfg := cfgs[i];
      assert cfgs[..i + 1] == cfgs[..i] + [cfg];
      var prefix := image + ".";
      if !HasPrefix(cfg, prefix) {
        StepSkip(image, cfgs[..i], cfg);
        i := i + 1;
        continue;
      }
      var mapping := TrimPrefix(cfg, prefix);
      var parts := Cut(mapping, '=');
      assert mapping == Mapping(image, cfg);
      if !parts.2 {
        StepBad(image, cfgs[..i], cfg);
        FirstInvalidSticks(image, cfgs, i + 1);
        return [], [], Some("invalid config format: " + cfg);
      }
      assert parts.0 == EntryName(image, cfg) && parts.1 == EntryValue(image, cfg);
      StepGood(image, cfgs[..i], cfg);
      ArgsSnoc(image, Accepted(image, cfgs[..i]), cfg, getenv);
      if HasPrefix(parts.1, "$") {
        env := env + [parts.0 + "=" + getenv(parts.1[1..])];
      } else {
        env := env + [parts.0 + "=" + parts.1];
      }
      args := args + ["-e", parts.0];
      i := i + 1;
    }
    assert cfgs[..i] == cfgs;
    err := None;
  }

  /** With one entry, the source's environment is exactly that entry's binding. */
  lemma OneEntryAgrees(image: string, c: string, getenv: Getenv)
    ensures EnvAsWritten(image, [c], getenv) == BindingsOf(image, [c], getenv) == [Binding(image, c, getenv)]
  {
    assert [c][..0] == [];
  }

  /** The command of the catalog server named like the image, or none. */
  function CommandFor(servers: map<string, AgentServers.Server>, image: string): (r: seq<string>)
    ensures image in servers ==> r == servers[image].run.command
    ensures image !in servers ==> r == []
  {
    if image in servers then servers[image].run.command else []
  }

  /** `startMCPClient` of start.go, built on the corrected entry loop `ConfigArgs`
      (every binding reaches the environment): fails on the
      catalog listing, then on a malformed entry (before any client exists), then
      on `Start`; otherwise returns the started client. */
  method StartMCPClient(image: string, pull: bool, config: string,
                        listed: Result<map<string, AgentServers.Server>>, getenv: Getenv, b: McpClient.Backend)
    returns (client: McpClient.Client?, err: Option<string>)
    ensures client == null <==> err.Some?
    ensures listed.Err? ==> err == Some("listing servers: " + listed.error)
    ensures listed.Ok? && FirstInvalid(image, Parse.CommaList(config)).Some? ==>
      err == Some("invalid config format: " + FirstInvalid(image, Parse.CommaList(config)).value)
    ensures listed.Ok? && FirstInvalid(image, Parse.CommaList(config)).None? ==>
      var entries := Accepted(image, Parse.CommaList(config));
      var startErr := McpClient.FreshStart(image, pull, BindingsOf(image, entries, getenv), ArgsOf(image, entries), b);
      (startErr.Some? ==> err == Some("failed to start server " + image + ": " + startErr.value)) &&
      (startErr.None? ==> (client != null && fresh(client) && client.image == image && client.pull == pull &&
         client.args == ArgsOf(image, entries) && client.env == BindingsOf(image, entries, getenv) &&
         client.command == CommandFor(listed.value, image) && client.process.Some?))
  {
    if listed.Err? {
      return null, Some("listing servers: " + listed.error);
    }
    var command := CommandFor(listed.value, image);
    var args, env, cfgErr := ConfigArgs(image, config, getenv);
    if cfgErr.Some? {
      return null, cfgErr;
    }
    var c := new McpClient.Client(image, pull, env, args, command);
    var startErr := c.Start(b);
    if startErr.Some? {
      return null, Some("failed to start server " + image + ": " + startErr.value);
    }
    return c, None;
  }

  /** `startMCPClient` of gateway/cmd/agents_gateway/server/server.go: the same
      corrected entry loop, no catalog, and never a command. */
  method GatewayStartMCPClient(image: string, pull: bool, config: string, getenv: Getenv, b: McpClient.Backend)
    returns (client: McpClient.Client?, err: Option<string>)
    ensures client == null <==> err.Some?
    ensures client != null ==>
      fresh(client) && client.image == image && client.pull == pull && client.command == [] &&
      client.process.Some? && client.sent == [McpClient.Initialize("docker", "1.0.0")]
    ensures FirstInvalid(image, Parse.CommaList(config)).Some? ==>
      err == Some("invalid config format: " + FirstInvalid(image, Parse.CommaList(config)).value)
    ensures FirstInvalid(image, Parse.CommaList(config)).None? ==>
      var entries := Accepted(image, Parse.CommaList(config));
      var startErr := McpClient.FreshStart(image, pull, BindingsOf(image, entries, getenv), ArgsOf(image, entries), b);
      (startErr.Some? ==> err == Some("failed to start server " + image + ": " + startErr.value)) &&
      (startErr.None? ==> (client != null && fresh(client) && client.image == image && client.pull == pull &&
         client.args == ArgsOf(image, entries) && client.env == BindingsOf(image, entries, getenv) &&
         client.command == [] && client.process.Some?))
  {
    var args, env, cfgErr := ConfigArgs(image, config, getenv);
    if cfgErr.Some? {
      return null, cfgErr;
    }
    var c := new McpClient.Client(image, pull, env, args, []);
    var startErr := c.Start(b);
    if startErr.Some? {
      return null, Some("failed to start server " + image + ": " + startErr.value);
    }
    return c, None;
  }
}
