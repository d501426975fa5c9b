/** The older template evaluator of the compose provider
    (cmd/docker-mcpgateway/eval.go): it ignores every filter. */
module GatewayEval {
  import opened Strs
  import opened Values
  import Eval

  /** This file's own copy of `dig`. */
  function Dig(key: string, config: map<string, Value>): (r: Value)
    ensures r != Nil
    decreases |key|
  {
    var k := TrimSpace(key);
    var (top, rest, found) := Cut(k, '.');
    if !found then
      (if k in config && config[k] != Nil then config[k] else Str(""))
    else
      var t := TrimSpace(top);
      if t in config && config[t].Map? then Dig(rest, config[t].entries) else Str("")
  }

  /** `evaluate`: a non-template is returned as is; otherwise the text before the
      first `|` is looked up, with the same lookup as pkg/eval, and printed with
      `%s` (so a number or a boolean prints as `%!s(T=text)`). */
  function Evaluate(e: string, config: map<string, Value>): (r: string)
    ensures !Eval.IsTemplate(e) ==> r == e
    ensures Eval.IsTemplate(e) ==> r == FormatS(Eval.Dig(Cut(Eval.Inner(e), '|').0, config))
  {
    if !Eval.IsTemplate(e) then e
    else
      var parts := Split(Eval.Inner(e), '|');
      SplitFirst(Eval.Inner(e), '|');
      DigAgrees(parts[0], config);
      FormatS(Dig(parts[0], config))
  }

  /** The two copies of `dig` compute the same lookup. */
  lemma {:induction false} DigAgrees(key: string, config: map<string, Value>)
    ensures Dig(key, config) == Eval.Dig(key, config)
    decreases |key|
  {
    var k := TrimSpace(key);
    var (top, rest, found) := Cut(k, '.');
    if found {
      var t := TrimSpace(top);
      if t in config && config[t].Map? {
        DigAgrees(rest, config[t].entries);
      }
    }
  }

  /** The first piece of a split is the text before the first separator. */
  lemma SplitFirst(s: string, c: char)
    ensures Split(s, c)[0] == Cut(s, c).0
  {
  }

  lemma NonTemplateUnchanged(e: string, config: map<string, Value>)
    requires !Eval.IsTemplate(e)
    ensures Evaluate(e, config) == e
  {
  }

  /** Everything after the first `|` is discarded. */
  lemma FiltersDiscarded(path: string, rest: string, config: map<string, Value>)
    requires '|' !in path
    ensures Evaluate("{{" + path + "|" + rest + "}}", config) == FormatS(Eval.Dig(path, config))
  {
    var e := "{{" + path + "|" + rest + "}}";
    assert Strs.HasPrefix(e, "{{") && Strs.HasSuffix(e, "}}");
    assert Eval.Inner(e) == path + ['|'] + rest;
    CutAt(path, rest, '|');
    SplitFirst(path + ['|'] + rest, '|');
    DigAgrees(path, config);
  }

  /** A number or a boolean in the configuration is a bad verb for `%s`: the
      template evaluates to `%!s(T=text)`, not to the value's text. */
  lemma ScalarPrintsBadVerb(path: string, config: map<string, Value>)
    requires '|' !in path
    requires Eval.Dig(path, config).Scalar?
    ensures var v := Eval.Dig(path, config);
      Evaluate("{{" + path + "}}", config) == "%!s(" + v.goType + "=" + v.text + ")"
  {
    var e := "{{" + path + "}}";
    assert Strs.HasPrefix(e, "{{") && Strs.HasSuffix(e, "}}");
    assert Eval.Inner(e) == path;
  }

  /** Over text-only values `%s` prints what `%v` prints: the lookup formatted as
      pkg/eval's `Expressions` renders a list item. */
  lemma TextPrintsAsFormat(path: string, rest: string, config: map<string, Value>)
    requires '|' !in path
    requires OnlyText(Eval.Dig(path, config))
    ensures Evaluate("{{" + path + "|" + rest + "}}", config) == Format(Eval.Dig(path, config))
  {
    FiltersDiscarded(path, rest, config);
    FormatSOfText(Eval.Dig(path, config));
  }

  /** For a template without filters whose path ends at a string, both evaluators
      produce that string. */
  lemma AgreesWithEval(path: string, config: map<string, Value>)
    requires '|' !in path
    requires Eval.Dig(path, config).Str?
    ensures Eval.Evaluate("{{" + path + "}}", config) == Str(Evaluate("{{" + path + "}}", config))
  {
    var e := "{{" + path + "}}";
    assert Strs.HasPrefix(e, "{{") && Strs.HasSuffix(e, "}}");
    assert Eval.Inner(e) == path;
    Eval.NoFilterIsLookup(path, config);
    SplitFirst(path, '|');
    DigAgrees(path, config);
  }
}
