/** The server-only catalog reader of pkg/catalog/yaml.go. */
module CatalogYaml {
  import opened Wrappers
  import opened ByName
  import opened Catalog

  /** `Get`: a decode error gives a nil map and the wrapped error; otherwise the
      servers indexed by name. */
  method Get(servers: Result<seq<Server>>) returns (byName: Option<map<string, Server>>, err: Option<string>)
    ensures servers.Err? ==> byName.None? && err == Some("reading catalog: " + servers.error)
    ensures servers.Ok? ==> err.None? && byName == Some(IndexBy(servers.value, ServerName))
  {
    if servers.Err? {
      return None, Some("reading catalog: " + servers.error);
    }
    var list := servers.value;
    var m: map<string, Server> := map[];
    var i := 0;
    while i < |list|
      invariant 0 <= i <= |list|
      invariant m == IndexBy(list[..i], ServerName)
    {
      assert list[..i + 1][..i] == list[..i];
      m := m[list[i].name := list[i]];
      i := i + 1;
    }
    assert list[..i] == list;
    return Some(m), None;
  }
}
