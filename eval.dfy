/** The `{{path|filter}}` template evaluator of pkg/eval and its Windows path
    rewriting into Linux volume specifications. */
module Eval {
  import opened Strs
  import opened Values

  type Config = map<string, Value>

  // ---------------------------------------------------------------- dig

  /** Looks up a dotted path.  The whole key and each segment are trimmed; a
      missing or nil leaf is `""`, and a missing or non-map intermediate is `""`. */
  function Dig(key: string, config: Config): (r: Value)
    ensures r != Nil
    decreases |key|
  {
    var k := TrimSpace(key);
    var (top, rest, found) := Cut(k, '.');
    if !found then
      (if k in config && config[k] != Nil then config[k] else Str(""))
    else
      var t := TrimSpace(top);
      if t in config && config[t].Map? then Dig(rest, config[t].entries) else Str("")
  }

  /** Reference reading of a dotted path as its list of segments: every segment
      is compared after trimming, descent goes through map values only, and the
      leaf is the stored value unless it is missing or nil. */
  function Walk(segments: seq<string>, config: Config): Value
    requires |segments| >= 1
    decreases |segments|
  {
    var t := TrimSpace(segments[0]);
    if |segments| == 1 then
      (if t in config && config[t] != Nil then config[t] else Str(""))
    else if t in config && config[t].Map? then Walk(segments[1..], config[t].entries)
    else Str("")
  }

  lemma TrimLeftIdempotent(s: string)
    ensures TrimLeft(TrimLeft(s)) == TrimLeft(s)
  {
  }

  lemma {:induction false} TrimLeftConcat(a: string, b: string)
    requires TrimLeft(a) != "" || b == "" || !IsSpace(b[0])
    ensures TrimLeft(a + b) == TrimLeft(a) + b
    decreases |a|
  {
    if |a| == 0 {
      assert a + b == b;
    } else if IsSpace(a[0]) {
      assert (a + b)[1..] == a[1..] + b;
      TrimLeftConcat(a[1..], b);
    } else {
      assert (a + b)[0] == a[0];
    }
  }

  lemma {:induction false} TrimRightConcat(a: string, b: string)
    requires TrimRight(b) != "" || a == "" || !IsSpace(a[|a| - 1])
    ensures TrimRight(a + b) == a + TrimRight(b)
    decreases |b|
  {
    if |b| == 0 {
      assert a + b == a;
    } else if IsSpace(b[|b| - 1]) {
      assert (a + b)[..|a + b| - 1] == a + b[..|b| - 1];
      TrimRightConcat(a, b[..|b| - 1]);
    } else {
      assert (a + b)[|a + b| - 1] == b[|b| - 1];
    }
  }

  lemma {:induction false} TrimRightSpaces(a: string, r: string)
    requires forall k :: 0 <= k < |r| ==> IsSpace(r[k])
    ensures TrimRight(a + r) == TrimRight(a)
    decreases |r|
  {
    if |r| == 0 {
      assert a + r == a;
    } else {
      assert (a + r)[..|a + r| - 1] == a + r[..|r| - 1];
      TrimRightSpaces(a, r[..|r| - 1]);
    }
  }

  lemma {:induction false} TrimLeftAllSpaces(s: string)
    requires forall k :: 0 <= k < |s| ==> IsSpace(s[k])
    ensures TrimLeft(s) == ""
    decreases |s|
  {
    if |s| > 0 {
      TrimLeftAllSpaces(s[1..]);
    }
  }

  /** Trimming the right end first does not change what `TrimSpace` yields. */
  lemma TrimSpaceAfterTrimRight(x: string)
    ensures TrimSpace(TrimRight(x)) == TrimSpace(x)
  {
    var y := TrimRight(x);
    var r := x[|y|..];
    assert x == y + r;
    TrimRightDropsSpaces(x);
    forall k | 0 <= k < |r|
      ensures IsSpace(r[k])
    {
      assert r[k] == x[|y| + k];
    }
    TrimSpaceOfSpaceTail(y, r);
  }

  /** Trailing white space after text that already ends in none does not
      change what `TrimSpace` yields. */
  lemma TrimSpaceOfSpaceTail(y: string, r: string)
    requires y == "" || !IsSpace(y[|y| - 1])
    requires forall k :: 0 <= k < |r| ==> IsSpace(r[k])
    ensures TrimSpace(TrimRight(y)) == TrimSpace(y + r)
  {
    assert TrimRight(y) == y;
    var l := TrimLeft(y);
    if l != "" {
      TrimLeftConcat(y, r);
      TrimRightSpaces(l, r);
    } else {
      TrimLeftDropsSpaces(y);
      forall k | 0 <= k < |y + r|
        ensures IsSpace((y + r)[k])
      {
        if k >= |y| {
          assert (y + r)[k] == r[k - |y|];
        }
      }
      TrimLeftAllSpaces(y + r);
    }
  }

  lemma CharOfTrimSpace(s: string, c: char)
    requires c !in s
    ensures c !in TrimSpace(s)
  {
    var l := TrimLeft(s);
    assert c !in l by { assert l == s[|s| - |l|..]; }
    assert TrimRight(l) == l[..|TrimRight(l)|];
  }

  /** Trimming a dotted key trims only the outer ends of its first and last parts. */
  lemma TrimDotted(s0: string, j: string)
    ensures TrimSpace(s0 + ['.'] + j) == TrimLeft(s0) + ['.'] + TrimRight(j)
  {
    var l := TrimLeft(s0);
    var dj := ['.'] + j;
    assert dj[0] == '.';
    TrimLeftConcat(s0, dj);
    assert s0 + ['.'] + j == s0 + dj;
    var ld := l + ['.'];
    assert ld[|ld| - 1] == '.';
    assert l + dj == ld + j;
    TrimRightConcat(ld, j);
  }

  lemma DigStep(s0: string, j: string, config: Config)
    requires '.' !in s0
    ensures Dig(s0 + ['.'] + j, config) ==
      var t := TrimSpace(s0);
      if t in config && config[t].Map? then Dig(j, config[t].entries) else Str("")
  {
    var l := TrimLeft(s0);
    TrimDotted(s0, j);
    assert '.' !in l by { assert l == s0[|s0| - |l|..]; }
    CutAt(l, TrimRight(j), '.');
    TrimLeftIdempotent(s0);
    TrimSpaceAfterTrimRight(j);
    var t := TrimSpace(s0);
    if t in config && config[t].Map? {
      DigTrimmed(TrimRight(j), j, config[t].entries);
    }
  }

  lemma DigSingle(s0: string, config: Config)
    requires '.' !in s0
    ensures Dig(s0, config) == Walk([s0], config)
  {
    CharOfTrimSpace(s0, '.');
  }

  lemma {:induction false} DigJoin(segments: seq<string>, config: Config)
    requires |segments| >= 1
    requires forall i :: 0 <= i < |segments| ==> '.' !in segments[i]
    ensures Dig(Join(segments, '.'), config) == Walk(segments, config)
    decreases |segments|
  {
    var s0 := segments[0];
    if |segments| == 1 {
      DigSingle(s0, config);
    } else {
      var tail := segments[1..];
      var j := Join(tail, '.');
      assert Join(segments, '.') == s0 + ['.'] + j;
      DigStep(s0, j, config);
      var t := TrimSpace(s0);
      if t in config && config[t].Map? {
        assert forall i :: 0 <= i < |tail| ==> '.' !in tail[i] by {
          forall i | 0 <= i < |tail| ensures '.' !in tail[i] {
            assert tail[i] == segments[i + 1];
          }
        }
        DigJoin(tail, config[t].entries);
        assert Walk(segments, config) == Walk(tail, config[t].entries);
      } else {
        assert Walk(segments, config) == Str("");
      }
    }
  }

  /** `Dig` depends on its key only through the trimmed key. */
  lemma DigTrimmed(a: string, b: string, config: Config)
    requires TrimSpace(a) == TrimSpace(b)
    ensures Dig(a, config) == Dig(b, config)
  {
  }

  /** `dig` reads the key as a path of trimmed `.`-separated segments. */
  lemma DigIsWalk(key: string, config: Config)
    ensures Dig(key, config) == Walk(Split(key, '.'), config)
  {
    JoinSplit(key, '.');
    DigJoin(Split(key, '.'), config);
  }

  // ------------------------------------------------------- Expression

  predicate IsTemplate(e: string) {
    HasPrefix(e, "{{") && HasSuffix(e, "}}")
  }

  /** A template is at least four characters long, so its inner text exists. */
  lemma TemplateLength(e: string)
    requires IsTemplate(e)
    ensures |e| >= 4
  {
    assert e[..2] == "{{";
    assert e[|e| - 2..] == "}}";
    assert e[0] == '{' && e[1] == '{';
    assert e[|e| - 1] == '}' && e[|e| - 2] == '}';
  }

  function Inner(e: string): (r: string)
    requires IsTemplate(e)
    ensures e == "{{" + r + "}}"
  {
    TemplateLength(e);
    e[2..|e| - 2]
  }

  /** The `volume` filter on one value: a list becomes the list of `x:x`
      strings; anything else becomes `s:s` of its reflect text. */
  function VolumeFilter(v: Value): (r: Value)
    ensures v.List? ==> r.List? && |r.items| == |v.items|
    ensures v.List? ==> forall i :: 0 <= i < |v.items| ==>
      r.items[i] == Str(Format(v.items[i]) + ":" + Format(v.items[i]))
    ensures !v.List? ==> r == Str(ReflectString(v) + ":" + ReflectString(v))
  {
    if v.List? then
      List(seq(|v.items|, i requires 0 <= i < |v.items| => Str(Format(v.items[i]) + ":" + Format(v.items[i]))))
    else Str(ReflectString(v) + ":" + ReflectString(v))
  }

  /** One filter: only a trimmed `volume` changes the value. */
  function ApplyFilter(v: Value, name: string): Value {
    if TrimSpace(name) == "volume" then VolumeFilter(v) else v
  }

  /** Applies filter names in order, left to right. */
  function ApplyFilters(v: Value, filters: seq<string>): Value
    decreases |filters|
  {
    if |filters| == 0 then v
    else ApplyFilter(ApplyFilters(v, filters[..|filters| - 1]), filters[|filters| - 1])
  }

  /** What `Expression` denotes. */
  function Evaluate(e: string, config: Config): Value {
    if !IsTemplate(e) then Str(e) else EvaluateInner(Inner(e), config)
  }

  /** A template's text between the braces: a path, then optional `|` filters. */
  function EvaluateInner(inner: string, config: Config): Value {
    var c := Cut(inner, '|');
    if !c.2 then Dig(c.0, config) else ApplyFilters(Dig(c.0, config), Split(c.1, '|'))
  }

  /** `Expression`: looks the path up, then runs the filter loop. */
  method Expression(e: string, config: Config) returns (value: Value)
    ensures value == Evaluate(e, config)
  {
    if !IsTemplate(e) {
      return Str(e);
    }
    var c := Cut(Inner(e), '|');
    value := Dig(c.0, config);
    if !c.2 {
      return;
    }
    value := RunFilters(value, Split(c.1, '|'));
  }

  /** The inner loop of the `volume` filter over a list value. */
  method VolumeList(items: seq<Value>) returns (list: seq<Value>)
    ensures VolumeFilter(List(items)) == List(list)
  {
    list := [];
    var i := 0;
    while i < |items|
      invariant 0 <= i <= |items|
      invariant |list| == i
      invariant forall j :: 0 <= j < i ==> list[j] == Str(Format(items[j]) + ":" + Format(items[j]))
    {
      list := list + [Str(Format(items[i]) + ":" + Format(items[i]))];
      i := i + 1;
    }
  }

  /** The loop of `Expression` over the `|`-separated filter names. */
  method RunFilters(start: Value, filters: seq<string>) returns (value: Value)
    ensures value == ApplyFilters(start, filters)
  {
    value := start;
    var k := 0;
    while k < |filters|
      invariant 0 <= k <= |filters|
      invariant value == ApplyFilters(start, filters[..k])
    {
      var f := TrimSpace(filters[k]);
      assert filters[..k + 1][..k] == filters[..k];
      if f == "volume" {
        if value.List? {
          var list := VolumeList(value.items);
          value := List(list);
        } else {
          value := Str(ReflectString(value) + ":" + ReflectString(value));
        }
      }
      k := k + 1;
    }
    assert filters[..k] == filters;
  }

  /** The strings one evaluated value contributes to `Expressions`. */
  function Render(v: Value): (r: seq<string>)
    ensures v.List? ==> |r| == |v.items| && forall i :: 0 <= i < |r| ==> r[i] == Format(v.items[i])
    ensures !v.List? ==> r == [ReflectString(v)]
  {
    if v.List? then seq(|v.items|, i requires 0 <= i < |v.items| => Format(v.items[i]))
    else [ReflectString(v)]
  }

  /** The concatenation of `f` over `es`, in order. */
  function FlatMap(es: seq<string>, f: string -> seq<string>): seq<string>
    decreases |es|
  {
    if |es| == 0 then [] else FlatMap(es[..|es| - 1], f) + f(es[|es| - 1])
  }

  /** What `Expressions` denotes: the renderings of every evaluated template, in order. */
  function EvaluateAll(es: seq<string>, config: Config): seq<string> {
    FlatMap(es, e => Render(Evaluate(e, config)))
  }

  /** `Expressions`: evaluates every template and flattens list results. */
  method Expressions(es: seq<string>, config: Config) returns (replaced: seq<string>)
    ensures replaced == EvaluateAll(es, config)
  {
    ghost var f := e => Render(Evaluate(e, config));
    replaced := [];
    var k := 0;
    while k < |es|
      invariant 0 <= k <= |es|
      invariant replaced == FlatMap(es[..k], f)
    {
      var value := Expression(es[k], config);
      assert es[..k + 1][..k] == es[..k];
      assert f(es[k]) == Render(value);
      replaced := AppendRendered(replaced, value);
      k := k + 1;
    }
    assert es[..k] == es;
  }

  /** The appends `Expressions` makes for one evaluated value. */
  method AppendRendered(acc: seq<string>, value: Value) returns (r: seq<string>)
    ensures r == acc + Render(value)
  {
    r := acc;
    if value.List? {
      var i := 0;
      while i < |value.items|
        invariant 0 <= i <= |value.items|
        invariant r == acc + Render(value)[..i]
      {
        assert Render(value)[..i + 1] == Render(value)[..i] + [Format(value.items[i])];
        r := r + [Format(value.items[i])];
        i := i + 1;
      }
      assert Render(value)[..i] == Render(value);
    } else {
      r := r + [ReflectString(value)];
    }
  }

  // ------------------------------------------------ properties of Evaluate

  /** A text that is not a `{{...}}` template is returned as it is. */
  lemma NonTemplateUnchanged(e: string, config: Config)
    requires !IsTemplate(e)
    ensures Evaluate(e, config) == Str(e)
  {
  }

  /** Without `|` the result is the lookup of the path between the braces. */
  lemma NoFilterIsLookup(path: string, config: Config)
    requires '|' !in path
    ensures Evaluate("{{" + path + "}}", config) == Dig(path, config)
  {
    var e := "{{" + path + "}}";
    assert HasPrefix(e, "{{") && HasSuffix(e, "}}");
    assert Inner(e) == path;
  }

  /** Filters other than `volume` leave the value as it is. */
  lemma {:induction false} OtherFiltersAreNoOps(v: Value, filters: seq<string>)
    requires forall i :: 0 <= i < |filters| ==> TrimSpace(filters[i]) != "volume"
    ensures ApplyFilters(v, filters) == v
    decreases |filters|
  {
    if |filters| > 0 {
      OtherFiltersAreNoOps(v, filters[..|filters| - 1]);
    }
  }

  /** Filters apply left to right: a sequence of filters is their composition. */
  lemma {:induction false} FiltersCompose(v: Value, f: seq<string>, g: seq<string>)
    ensures ApplyFilters(v, f + g) == ApplyFilters(ApplyFilters(v, f), g)
    decreases |g|
  {
    if |g| == 0 {
      assert f + g == f;
    } else {
      assert (f + g)[..|f + g| - 1] == f + g[..|g| - 1];
      FiltersCompose(v, f, g[..|g| - 1]);
    }
  }

  /** The result of evaluation is never nil. */
  lemma {:induction false} ApplyFiltersNotNil(v: Value, filters: seq<string>)
    requires v != Nil
    ensures ApplyFilters(v, filters) != Nil
    decreases |filters|
  {
    if |filters| > 0 {
      ApplyFiltersNotNil(v, filters[..|filters| - 1]);
    }
  }

  lemma EvaluateNotNil(e: string, config: Config)
    ensures Evaluate(e, config) != Nil
  {
    if IsTemplate(e) {
      var c := Cut(Inner(e), '|');
      if c.2 {
        ApplyFiltersNotNil(Dig(c.0, config), Split(c.1, '|'));
      }
    }
  }

  /** `Expressions` keeps input order: evaluating a concatenation concatenates. */
  lemma {:induction false} FlatMapAppend(a: seq<string>, b: seq<string>, f: string -> seq<string>)
    ensures FlatMap(a + b, f) == FlatMap(a, f) + FlatMap(b, f)
    decreases |b|
  {
    if |b| == 0 {
      assert a + b == a;
    } else {
      assert (a + b)[..|a + b| - 1] == a + b[..|b| - 1];
      FlatMapAppend(a, b[..|b| - 1], f);
    }
  }

  lemma EvaluateAllAppend(a: seq<string>, b: seq<string>, config: Config)
    ensures EvaluateAll(a + b, config) == EvaluateAll(a, config) + EvaluateAll(b, config)
  {
    FlatMapAppend(a, b, e => Render(Evaluate(e, config)));
  }

  lemma {:induction false} FlatMapLength(es: seq<string>, f: string -> seq<string>)
    requires forall i :: 0 <= i < |es| ==> |f(es[i])| == 1
    ensures |FlatMap(es, f)| == |es|
    decreases |es|
  {
    if |es| > 0 {
      FlatMapLength(es[..|es| - 1], f);
    }
  }

  /** Every non-list result contributes exactly one string. */
  lemma EvaluateAllLength(es: seq<string>, config: Config)
    requires forall i :: 0 <= i < |es| ==> !Evaluate(es[i], config).List?
    ensures |EvaluateAll(es, config)| == |es|
  {
    FlatMapLength(es, e => Render(Evaluate(e, config)));
  }

  /** Non-template texts pass through `Expressions` one for one. */
  lemma {:induction false} EvaluateAllPlain(es: seq<string>, config: Config)
    requires forall i :: 0 <= i < |es| ==> !IsTemplate(es[i])
    ensures EvaluateAll(es, config) == es
    decreases |es|
  {
    if |es| > 0 {
      EvaluateAllPlain(es[..|es| - 1], config);
      assert es[..|es| - 1] + [es[|es| - 1]] == es;
    }
  }

  // ------------------------------------------------------------ paths

  predicate IsLetter(ch: char) {
    ('a' <= ch <= 'z') || ('A' <= ch <= 'Z')
  }

  /** The `^([a-zA-Z]):/` pattern. */
  predicate HasLinuxDrive(p: string) {
    |p| >= 3 && IsLetter(p[0]) && p[1] == ':' && p[2] == '/'
  }

  /** `toLinuxPath`: every `\` becomes `/`, then a leading `X:/` becomes `/X/`. */
  function ToLinuxPath(p: string): (r: string)
    ensures '\\' !in r
  {
    var q := ReplaceChar(p, '\\', '/');
    if HasLinuxDrive(q) then "/" + [q[0]] + "/" + q[3..] else q
  }

  /** A path without a leading drive only has its backslashes replaced. */
  lemma ToLinuxPathNoDrive(p: string)
    requires !HasLinuxDrive(ReplaceChar(p, '\\', '/'))
    ensures ToLinuxPath(p) == ReplaceChar(p, '\\', '/')
  {
  }

  /** A leading drive letter becomes a root directory of the same letter. */
  lemma ToLinuxPathDrive(p: string)
    requires |p| >= 3 && IsLetter(p[0]) && p[1] == ':' && (p[2] == '/' || p[2] == '\\')
    ensures ToLinuxPath(p) == "/" + [p[0]] + "/" + ReplaceChar(p[3..], '\\', '/')
  {
    var q := ReplaceChar(p, '\\', '/');
    assert q[3..] == ReplaceChar(p[3..], '\\', '/');
  }

  lemma ToLinuxPathIdempotent(p: string)
    ensures ToLinuxPath(ToLinuxPath(p)) == ToLinuxPath(p)
  {
    var r := ToLinuxPath(p);
    ReplaceWithoutChar(r);
  }

  lemma ReplaceWithoutChar(s: string)
    requires '\\' !in s
    ensures ReplaceChar(s, '\\', '/') == s
  {
  }

  /** `^[a-zA-Z]:\\`: the drive-letter test. */
  predicate HasWindowsDrive(p: string) {
    |p| >= 3 && IsLetter(p[0]) && p[1] == ':' && p[2] == '\\'
  }

  /** `^\\\\[^\\]+\\[^\\]+`: two backslashes, a host, a backslash and a share. */
  predicate IsUncPath(p: string) {
    |p| >= 2 && p[0] == '\\' && p[1] == '\\' &&
    var (host, share, found) := Cut(p[2..], '\\');
    found && |host| >= 1 && |share| >= 1 && share[0] != '\\'
  }

  predicate IsWindowsPath(p: string) {
    HasWindowsDrive(p) || IsUncPath(p)
  }

  /** `volumeTarget`: a Windows path rewritten for Linux, any other path as is. */
  function VolumeTarget(v: Value): (r: string)
    ensures IsWindowsPath(Format(v)) ==> r == ToLinuxPath(Format(v))
    ensures !IsWindowsPath(Format(v)) ==> r == Format(v)
  {
    var path := Format(v);
    if IsWindowsPath(path) then ToLinuxPath(path) else path
  }

  /** `volume`: the formatted value, then `:`, then the rewritten target. */
  function Volume(v: Value): (r: string)
    ensures HasPrefix(r, Format(v) + ":")
    ensures !IsWindowsPath(Format(v)) ==> r == Format(v) + ":" + Format(v)
    ensures IsWindowsPath(Format(v)) ==> r == Format(v) + ":" + ToLinuxPath(Format(v))
  {
    var source := Format(v);
    var target := if IsWindowsPath(source) then ToLinuxPath(source) else source;
    source + ":" + target
  }

  /** `volume` is the source followed by `volumeTarget` of the same value. */
  lemma VolumeIsSourceAndTarget(v: Value)
    ensures Volume(v) == Format(v) + ":" + VolumeTarget(v)
  {
  }

  /** The target half of a Windows volume contains no backslash. */
  lemma WindowsTargetHasNoBackslash(v: Value)
    requires IsWindowsPath(Format(v))
    ensures '\\' !in VolumeTarget(v)
  {
  }

  // ------------------------------------------------------ test cases

  /** A template whose inner text has no `|` is the lookup of that text. */
  lemma TemplateLookup(e: string, inner: string, config: Config)
    requires e == "{{" + inner + "}}" && '|' !in inner
    ensures Evaluate(e, config) == Dig(inner, config)
  {
    NoFilterIsLookup(inner, config);
  }

  /** A key without `.` is looked up after trimming. */
  lemma DigFlat(key: string, config: Config)
    requires '.' !in key
    ensures Dig(key, config) ==
      var k := TrimSpace(key);
      if k in config && config[k] != Nil then config[k] else Str("")
  {
    CharOfTrimSpace(key, '.');
  }

  /** A template with `|` filters runs the filter loop on the lookup of its
      path. */
  lemma PipedTemplate(path: string, rest: string, config: Config)
    requires '|' !in path
    ensures Evaluate("{{" + path + "|" + rest + "}}", config) == ApplyFilters(Dig(path, config), Split(rest, '|'))
  {
    var e := "{{" + path + "|" + rest + "}}";
    assert HasPrefix(e, "{{") && HasSuffix(e, "}}");
    assert Inner(e) == path + ['|'] + rest;
    CutAt(path, rest, '|');
  }

  /** With `|` filters none of which is `volume`, the result is the plain lookup. */
  lemma IgnoredFiltersLookup(path: string, rest: string, config: Config)
    requires '|' !in path
    requires forall i :: 0 <= i < |Split(rest, '|')| ==> TrimSpace(Split(rest, '|')[i]) != "volume"
    ensures Evaluate("{{" + path + "|" + rest + "}}", config) == Dig(path, config)
  {
    PipedTemplate(path, rest, config);
    OtherFiltersAreNoOps(Dig(path, config), Split(rest, '|'));
  }

  /** A single `volume` filter on a string leaf `s` yields `s:s`. */
  lemma VolumeOfString(path: string, filter: string, config: Config, s: string)
    requires '|' !in path && '|' !in filter && TrimSpace(filter) == "volume"
    requires Dig(path, config) == Str(s)
    ensures Evaluate("{{" + path + "|" + filter + "}}", config) == Str(s + ":" + s)
  {
    PipedTemplate(path, filter, config);
    assert Split(filter, '|') == [filter];
    assert [filter][..0] == [];
    assert ApplyFilters(Str(s), [filter]) == VolumeFilter(Str(s));
  }
}
