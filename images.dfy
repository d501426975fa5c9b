/** The image bookkeeping at the start of the agents gateway: the ordered server
    names (cmd/agents_gateway/server/run.go), the set of images the named servers
    and tool groups use, and the `mcp/` images whose signatures are checked
    (run.go and cmd/agents_gateway/server/server.go). */
module Images {
  import opened Strs
  import opened Catalog

  // ------------------------------------------------------- sort.Strings

  /** Go's string order is byte order, which agrees with code-point order. */
  predicate Le(a: string, b: string) { !LexLess(b, a) }

  predicate Sorted(s: seq<string>) {
    forall i, j :: 0 <= i < j < |s| ==> Le(s[i], s[j])
  }

  lemma LexAsymmetric(a: string, b: string)
    requires LexLess(a, b)
    ensures !LexLess(b, a)
  {
    if LexLess(b, a) {
      LexTransitive(a, b, a);
      LexLessIrreflexive(a);
    }
  }

  lemma LeTransitive(a: string, b: string, c: string)
    requires Le(a, b) && Le(b, c)
    ensures Le(a, c)
  {
    LexTotal(a, b);
    LexTotal(b, c);
    if a != b && b != c {
      LexTransitive(a, b, c);
      LexAsymmetric(a, c);
    } else if a != b {
      LexAsymmetric(a, c);
    } else if b != c {
      LexAsymmetric(a, c);
    } else {
      LexLessIrreflexive(a);
    }
  }

  /** Inserts `x` before the first element not below it. */
  function Insert(x: string, s: seq<string>): (r: seq<string>)
    requires Sorted(s)
    ensures Sorted(r)
    ensures multiset(r) == multiset(s) + multiset{x}
    decreases |s|
  {
    if |s| == 0 then [x]
    else if Le(x, s[0]) then
      assert forall j :: 0 <= j < |s| ==> Le(x, s[j]) by {
        forall j | 0 <= j < |s| ensures Le(x, s[j]) {
          if j > 0 { LeTransitive(x, s[0], s[j]); }
        }
      }
      [x] + s
    else
      var rest := Insert(x, s[1..]);
      assert s == [s[0]] + s[1..];
      LexTotal(x, s[0]);
      LexAsymmetric(s[0], x);
      assert forall j :: 0 <= j < |rest| ==> Le(s[0], rest[j]) by {
        forall j | 0 <= j < |rest| ensures Le(s[0], rest[j]) {
          assert rest[j] in multiset(rest);
          if rest[j] != x {
            assert rest[j] in multiset(s[1..]);
            var k :| 0 <= k < |s[1..]| && s[1..][k] == rest[j];
            assert s[k + 1] == rest[j];
          }
        }
      }
      [s[0]] + rest
  }

  /** The model of `sort.Strings`: a sorted permutation of the input. */
  function SortStrings(xs: seq<string>): (r: seq<string>)
    ensures Sorted(r)
    ensures multiset(r) == multiset(xs)
    decreases |xs|
  {
    if |xs| == 0 then []
    else
      assert xs == xs[..|xs| - 1] + [xs[|xs| - 1]];
      Insert(xs[|xs| - 1], SortStrings(xs[..|xs| - 1]))
  }

  /** `serverNames` in run.go: every key of the registry's servers, once, sorted. */
  method ServerNames<T>(registry: map<string, T>) returns (serverNames: seq<string>)
    ensures Sorted(serverNames)
    ensures forall n :: n in serverNames <==> n in registry
    ensures |serverNames| == |registry|
  {
    var names: seq<string> := [];
    var remaining := registry.Keys;
    while remaining != {}
      invariant remaining <= registry.Keys
      invariant multiset(names) == multiset(registry.Keys - remaining)
      decreases remaining
    {
      var n :| n in remaining;
      assert (registry.Keys - (remaining - {n})) == (registry.Keys - remaining) + {n};
      names := names + [n];
      remaining := remaining - {n};
    }
    assert registry.Keys - remaining == registry.Keys;
    serverNames := SortStrings(names);
    ListsSet(serverNames, registry.Keys);
  }

  lemma ListsSet(xs: seq<string>, keys: set<string>)
    requires multiset(xs) == multiset(keys)
    ensures forall n :: n in xs <==> n in keys
    ensures |xs| == |keys|
  {
    forall n ensures n in xs <==> n in keys {
      assert n in xs <==> n in multiset(xs);
    }
    assert |xs| == |multiset(xs)| == |multiset(keys)| == |keys|;
  }

  // ----------------------------------------------------------- image set

  /** The images one name brings: its server's image, else every tool's container
      image of its tool group, else none. */
  ghost function NameImages(c: Catalog, name: string): set<string> {
    if name in c.servers then {c.servers[name].image}
    else if name in c.tools then set k | k in c.tools[name] :: c.tools[name][k].container.image
    else {}
  }

  ghost function ImagesOf(c: Catalog, names: seq<string>): set<string>
    decreases |names|
  {
    if |names| == 0 then {}
    else ImagesOf(c, names[..|names| - 1]) + NameImages(c, names[|names| - 1])
  }

  /** An image is collected iff some name brings it. */
  lemma {:induction false} ImagesOfMembers(c: Catalog, names: seq<string>, image: string)
    ensures image in ImagesOf(c, names) <==> exists i :: 0 <= i < |names| && image in NameImages(c, names[i])
    decreases |names|
  {
    if |names| > 0 {
      var init := names[..|names| - 1];
      ImagesOfMembers(c, init, image);
      if image in ImagesOf(c, init) {
        var i :| 0 <= i < |init| && image in NameImages(c, init[i]);
        assert names[i] == init[i];
      }
      if exists i :: 0 <= i < |names| && image in NameImages(c, names[i]) {
        var i :| 0 <= i < |names| && image in NameImages(c, names[i]);
        if i < |names| - 1 { assert init[i] == names[i]; }
      }
    }
  }

  /** A server name hides a tool group of the same name. */
  lemma ServerHidesGroup(c: Catalog, name: string)
    requires name in c.servers && name in c.tools
    ensures NameImages(c, name) == {c.servers[name].image}
  {
  }

  /** A tool group brings exactly its tools' images. */
  lemma GroupImages(c: Catalog, name: string, image: string)
    requires name !in c.servers && name in c.tools
    ensures image in NameImages(c, name) <==> exists k :: k in c.tools[name] && c.tools[name][k].container.image == image
  {
  }

  /** An unknown name brings no image. */
  lemma UnknownBringsNothing(c: Catalog, name: string)
    requires name !in c.servers && name !in c.tools
    ensures NameImages(c, name) == {}
  {
  }

  /** The `uniqueDockerImages` loop of run.go:80-100 and server.go:31-51. */
  method UniqueImages(c: Catalog, serverNames: seq<string>) returns (unique: set<string>)
    ensures unique == ImagesOf(c, serverNames)
  {
    unique := {};
    var i := 0;
    while i < |serverNames|
      invariant 0 <= i <= |serverNames|
      invariant unique == ImagesOf(c, serverNames[..i])
    {
      var name := serverNames[i];
      assert serverNames[..i + 1][..i] == serverNames[..i];
      if name in c.servers {
        unique := unique + {c.servers[name].image};
      } else if name in c.tools {
        var tools := c.tools[name];
        var remaining := tools.Keys;
        ghost var start := unique;
        while remaining != {}
          invariant remaining <= tools.Keys
          invariant unique == start + set k | k in tools.Keys - remaining :: tools[k].container.image
          decreases remaining
        {
          var k :| k in remaining;
          assert tools.Keys - (remaining - {k}) == (tools.Keys - remaining) + {k};
          unique := unique + {tools[k].container.image};
          remaining := remaining - {k};
        }
        assert tools.Keys - remaining == tools.Keys;
      }
      i := i + 1;
    }
    assert serverNames[..i] == serverNames;
  }

  // ----------------------------------------------------- image lists

  predicate Distinct(s: seq<string>) {
    forall i, j :: 0 <= i < j < |s| ==> s[i] != s[j]
  }

  /** The images that belong to the `mcp/` namespace, in order. */
  function McpImages(images: seq<string>): (r: seq<string>)
    ensures forall x :: x in r <==> x in images && HasPrefix(x, "mcp/")
    ensures |r| <= |images|
    decreases |images|
  {
    if |images| == 0 then []
    else
      var last := images[|images| - 1];
      McpImages(images[..|images| - 1]) + (if HasPrefix(last, "mcp/") then [last] else [])
  }

  /** `McpImages` keeps distinctness. */
  lemma {:induction false} McpImagesDistinct(images: seq<string>)
    requires Distinct(images)
    ensures Distinct(McpImages(images))
    decreases |images|
  {
    if |images| > 0 {
      var init := images[..|images| - 1];
      assert Distinct(init);
      McpImagesDistinct(init);
      var last := images[|images| - 1];
      assert last !in init;
    }
  }

  /** One more image extends the `mcp/` images by itself when it is one. */
  lemma McpImagesSnoc(images: seq<string>, i: nat)
    requires i < |images|
    ensures McpImages(images[..i + 1]) ==
      McpImages(images[..i]) + (if HasPrefix(images[i], "mcp/") then [images[i]] else [])
  {
    assert images[..i + 1][..i] == images[..i];
  }

  /** run.go:102-111: one pass over the set fills both lists. */
  method ImageLists(unique: set<string>) returns (dockerImages: seq<string>, mcpImages: seq<string>)
    ensures Distinct(dockerImages)
    ensures forall x :: x in dockerImages <==> x in unique
    ensures mcpImages == McpImages(dockerImages)
  {
    dockerImages, mcpImages := [], [];
    var remaining := unique;
    while remaining != {}
      invariant remaining <= unique
      invariant Distinct(dockerImages)
      invariant forall x :: x in dockerImages <==> x in unique - remaining
      invariant mcpImages == McpImages(dockerImages)
      decreases remaining
    {
      var image :| image in remaining;
      assert (dockerImages + [image])[..|dockerImages|] == dockerImages;
      dockerImages := dockerImages + [image];
      if HasPrefix(image, "mcp/") {
        mcpImages := mcpImages + [image];
      }
      remaining := remaining - {image};
    }
  }

  /** server.go:52-64: the set is listed first, then a second loop over the list
      picks the `mcp/` images. */
  method ImageListsTwoPass(unique: set<string>) returns (dockerImages: seq<string>, mcpImages: seq<string>)
    ensures Distinct(dockerImages)
    ensures forall x :: x in dockerImages <==> x in unique
    ensures mcpImages == McpImages(dockerImages)
  {
    dockerImages := [];
    var remaining := unique;
    while remaining != {}
      invariant remaining <= unique
      invariant Distinct(dockerImages)
      invariant forall x :: x in dockerImages <==> x in unique - remaining
      decreases remaining
    {
      var image :| image in remaining;
      assert image !in dockerImages;
      dockerImages := dockerImages + [image];
      remaining := remaining - {image};
    }
    mcpImages := [];
    var i := 0;
    while i < |dockerImages|
      invariant 0 <= i <= |dockerImages|
      invariant mcpImages == McpImages(dockerImages[..i])
    {
      McpImagesSnoc(dockerImages, i);
      if HasPrefix(dockerImages[i], "mcp/") {
        mcpImages := mcpImages + [dockerImages[i]];
      }
      i := i + 1;
    }
    assert dockerImages[..i] == dockerImages;
  }

  /** run.go:72-111 taken together. */
  method RunImages<T>(c: Catalog, registry: map<string, T>)
    returns (serverNames: seq<string>, dockerImages: seq<string>, mcpImages: seq<string>)
    ensures Sorted(serverNames) && (forall n :: n in serverNames <==> n in registry)
    ensures Distinct(dockerImages)
    ensures forall x :: x in dockerImages <==> x in ImagesOf(c, serverNames)
    ensures mcpImages == McpImages(dockerImages)
  {
    serverNames := ServerNames(registry);
    var unique := UniqueImages(c, serverNames);
    dockerImages, mcpImages := ImageLists(unique);
  }

  /** server.go:30-64 taken together. */
  method ServerImages(c: Catalog, serverNames: seq<string>)
    returns (dockerImages: seq<string>, mcpImages: seq<string>)
    ensures Distinct(dockerImages)
    ensures forall x :: x in dockerImages <==> x in ImagesOf(c, serverNames)
    ensures mcpImages == McpImages(dockerImages)
  {
    var unique := UniqueImages(c, serverNames);
    dockerImages, mcpImages := ImageListsTwoPass(unique);
  }
}
