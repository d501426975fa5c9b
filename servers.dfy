/** The server catalog of the agents gateway (cmd/agents_gateway/servers): its
    reader and the URL and build-context getters of a catalog entry. */
module AgentServers {
  import opened Wrappers
  import opened Strs
  import opened ByName

  datatype About = About(title: string, readme: string)
  datatype Source = Source(project: string, branch: string, directory: string, dockerfile: string)
  datatype Run = Run(command: seq<string>)
  /** A catalog entry; server.go reads these fields, whose declaration is not
      part of this model. */
  datatype Server = Server(name: string, image: string, about: About, source: Source, run: Run)

  function ServerName(s: Server): string { s.name }

  /** `List`: a decode error gives a nil map and the wrapped error; otherwise the
      servers indexed by name. */
  method List(servers: Result<seq<Server>>) returns (byName: Option<map<string, Server>>, err: Option<string>)
    ensures servers.Err? ==> byName.None? && err == Some("reading catalog: " + servers.error)
    ensures servers.Ok? ==> err.None? && byName == Some(IndexBy(servers.value, ServerName))
  {
    if servers.Err? {
      return None, Some("reading catalog: " + servers.error);
    }
    var list := servers.value;
    var m: map<string, Server> := map[];
    var i := 0;
    while i < |list|
      invariant 0 <= i <= |list|
      invariant m == IndexBy(list[..i], ServerName)
    {
      assert list[..i + 1][..i] == list[..i];
      m := m[list[i].name := list[i]];
      i := i + 1;
    }
    assert list[..i] == list;
    return Some(m), None;
  }

  /** `GetTitle`: the About title, falling back to the name. */
  function GetTitle(s: Server): (r: string)
    ensures r == s.about.title || r == s.name
    ensures r == "" ==> s.about.title == "" && s.name == ""
    ensures s.about.title != "" ==> r == s.about.title
  {
    if s.about.title != "" then s.about.title else s.name
  }

  /** `GetMaturity`: community images are those published under `mcpcommunity/`. */
  function GetMaturity(s: Server): (r: string)
    ensures r == "Community Image" <==> HasPrefix(s.image, "mcpcommunity/")
    ensures r == "Community Image" || r == "Official Image"
  {
    if HasPrefix(s.image, "mcpcommunity/") then "Community Image" else "Official Image"
  }

  function GetHubURL(s: Server): (r: string)
    ensures HasPrefix(r, "https://hub.docker.com/repository/docker/")
    ensures r[|"https://hub.docker.com/repository/docker/"|..] == s.image
  {
    "https://hub.docker.com/repository/docker/" + s.image
  }

  /** `GetBranch`: the source branch, `main` when none is given. */
  function GetBranch(s: Server): (r: string)
    ensures r != ""
    ensures s.source.branch == "" ==> r == "main"
    ensures s.source.branch != "" ==> r == s.source.branch
  {
    if s.source.branch == "" then "main" else s.source.branch
  }

  /** `GetDockerfile`: the Dockerfile path, `Dockerfile` when none is given. */
  function GetDockerfile(s: Server): (r: string)
    ensures r != ""
    ensures s.source.dockerfile == "" ==> r == "Dockerfile"
    ensures s.source.dockerfile != "" ==> r == s.source.dockerfile
  {
    if s.source.dockerfile == "" then "Dockerfile" else s.source.dockerfile
  }

  predicate HasDirectory(s: Server) {
    s.source.directory != "" && s.source.directory != "."
  }

  /** `GetContext`: the Docker build context `<project>.git#<ref>:<dir>`. */
  function GetContext(s: Server): string {
    var base := s.source.project + ".git" + (if GetBranch(s) != "main" then "#" + s.source.branch else "#");
    var withDir := if HasDirectory(s) then base + ":" + s.source.directory else base;
    TrimSuffix(withDir, "#")
  }

  /** The four shapes of the build context, for a directory that does not itself
      end in `#`.  On the main branch with a directory the `#` stays, giving
      `<project>.git#:<dir>`. */
  lemma ContextShapes(s: Server)
    requires !HasSuffix(s.source.directory, "#")
    ensures GetBranch(s) == "main" && !HasDirectory(s) ==> GetContext(s) == s.source.project + ".git"
    ensures GetBranch(s) == "main" && HasDirectory(s) ==>
      GetContext(s) == s.source.project + ".git#:" + s.source.directory
    ensures GetBranch(s) != "main" && HasDirectory(s) ==>
      GetContext(s) == s.source.project + ".git#" + s.source.branch + ":" + s.source.directory
    ensures GetBranch(s) != "main" && !HasDirectory(s) ==>
      GetContext(s) == TrimSuffix(s.source.project + ".git#" + s.source.branch, "#")
  {
    var p := s.source.project;
    var d := s.source.directory;
    var b := s.source.branch;
    if GetBranch(s) == "main" {
      var base := p + ".git" + "#";
      if HasDirectory(s) {
        KeepsDirectory(base, d);
        assert base + ":" + d == p + ".git#:" + d;
      } else {
        DropsHash(p + ".git");
      }
    } else {
      var base := p + ".git" + ("#" + b);
      assert base == p + ".git#" + b;
      if HasDirectory(s) {
        KeepsDirectory(base, d);
      }
    }
  }

  /** A context ending in a directory that does not end in `#` is not trimmed. */
  lemma KeepsDirectory(base: string, d: string)
    requires d != "" && !HasSuffix(d, "#")
    ensures TrimSuffix(base + ":" + d, "#") == base + ":" + d
  {
    var w := base + ":" + d;
    assert w[|w| - 1..] == d[|d| - 1..];
  }

  /** The `#` of the main branch is trimmed again. */
  lemma DropsHash(x: string)
    ensures TrimSuffix(x + "#", "#") == x
  {
    var w := x + "#";
    assert w[|w| - 1..] == "#";
    assert w[..|w| - 1] == x;
  }

  /** The path below the repository that both web URLs share. */
  function BranchPath(s: Server): string {
    GetBranch(s) + (if s.source.directory != "" then "/" + s.source.directory else "")
  }

  /** `GetSourceURL`: `<project>/tree/<branch>[/<dir>]`. */
  function GetSourceURL(s: Server): (r: string)
    ensures r == s.source.project + "/tree/" + BranchPath(s)
  {
    var source := s.source.project + "/tree/" + GetBranch(s);
    if s.source.directory != "" then source + "/" + s.source.directory else source
  }

  /** `GetDockerfileUrl`: `<project>/blob/<branch>[/<dir>]/<dockerfile>`. */
  function GetDockerfileUrl(s: Server): (r: string)
    ensures r == s.source.project + "/blob/" + BranchPath(s) + "/" + GetDockerfile(s)
  {
    var base := s.source.project + "/blob/" + GetBranch(s);
    var withDir := if s.source.directory != "" then base + "/" + s.source.directory else base;
    withDir + "/" + GetDockerfile(s)
  }

  /** `GetReadmeURL`: `<project>/blob/<branch>/<readme>`, never under the directory. */
  function GetReadmeURL(s: Server): (r: string)
    ensures HasPrefix(r, s.source.project + "/blob/" + GetBranch(s) + "/")
    ensures r[|s.source.project + "/blob/" + GetBranch(s) + "/"|..] == s.about.readme
  {
    s.source.project + "/blob/" + GetBranch(s) + "/" + s.about.readme
  }
}
