/** Dynamically typed values: the `any` trees of the Go code (YAML configuration,
    JSON tool arguments) and the dict/list values of the Python code. */
module Values {

  datatype Value =
    | Nil
    | Str(s: string)
      /** A number or a boolean: its Go type (`float64`, `int`, `bool`) and its `%v` text. */
    | Scalar(goType: string, text: string)
    | List(items: seq<Value>)
    | Map(entries: map<string, Value>)

  /** Go's `fmt.Sprintf("%v", v)` for the value shapes the model renders:
      strings verbatim, numbers and booleans as their text, nil as `<nil>`,
      lists as `[a b c]`.  Maps render as a fixed
      text: Go's sorted `map[k:v]` rendering is not part of this model. */
  function Format(v: Value): (r: string)
    ensures v.Str? ==> r == v.s
    ensures v.Scalar? ==> r == v.text
  {
    match v
    case Nil => "<nil>"
    case Str(s) => s
    case Scalar(_, text) => text
    case List(items) => "[" + FormatItems(items) + "]"
    case Map(_) => "map[...]"
  }

  /** The space-separated `%v` renderings of a list's items. */
  function FormatItems(items: seq<Value>): string
    decreases items
  {
    if items == [] then ""
    else if |items| == 1 then Format(items[0])
    else Format(items[0]) + " " + FormatItems(items[1..])
  }

  /** Go's `fmt.Sprintf("%s", v)`: strings verbatim; a number or a boolean is a
      bad verb for `%s` and prints as `%!s(T=text)`, nil as `%!s(<nil>)`; lists
      as `[a b c]` with every item printed the same way.  Maps render as the
      same fixed text as under `Format`. */
  function FormatS(v: Value): (r: string)
    ensures v.Str? ==> r == v.s
    ensures v.Scalar? ==> r == "%!s(" + v.goType + "=" + v.text + ")"
    ensures v.Nil? ==> r == "%!s(<nil>)"
    ensures v.List? ==> r == "[" + FormatItemsS(v.items) + "]"
  {
    match v
    case Nil => "%!s(<nil>)"
    case Str(s) => s
    case Scalar(goType, text) => "%!s(" + goType + "=" + text + ")"
    case List(items) => "[" + FormatItemsS(items) + "]"
    case Map(_) => "map[...]"
  }

  /** The space-separated `%s` renderings of a list's items. */
  function FormatItemsS(items: seq<Value>): string
    decreases items
  {
    if items == [] then ""
    else if |items| == 1 then FormatS(items[0])
    else FormatS(items[0]) + " " + FormatItemsS(items[1..])
  }

  /** `%s` and `%v` print a value alike exactly when nothing in it is a number,
      a boolean or nil: strings, and lists and maps built from strings. */
  predicate OnlyText(v: Value)
    decreases v
  {
    match v
    case Nil => false
    case Str(_) => true
    case Scalar(_, _) => false
    case List(items) => forall i :: 0 <= i < |items| ==> OnlyText(items[i])
    case Map(_) => true
  }

  lemma {:induction false} FormatSOfText(v: Value)
    requires OnlyText(v)
    ensures FormatS(v) == Format(v)
    decreases v, 1
  {
    if v.List? {
      FormatItemsSOfText(v.items);
    }
  }

  lemma {:induction false} FormatItemsSOfText(items: seq<Value>)
    requires forall i :: 0 <= i < |items| ==> OnlyText(items[i])
    ensures FormatItemsS(items) == FormatItems(items)
    decreases items, 0
  {
    if items != [] {
      FormatSOfText(items[0]);
      if |items| > 1 {
        FormatItemsSOfText(items[1..]);
      }
    }
  }

  /** Go's `reflect.Value.String()`: the string itself for a string value, and a
      `<T Value>` text naming the dynamic type for every other kind. */
  function ReflectString(v: Value): (r: string)
    ensures v.Str? ==> r == v.s
    ensures v.Scalar? ==> r == "<" + v.goType + " Value>"
  {
    match v
    case Nil => "<invalid Value>"
    case Str(s) => s
    case Scalar(goType, _) => "<" + goType + " Value>"
    case List(_) => "<[]interface {} Value>"
    case Map(_) => "<map[string]interface {} Value>"
  }
}
