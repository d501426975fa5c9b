/** The Python string operations the agent callbacks use: substring search
    (`m in s`, `s.split(m, 1)[0]`), `sep.join(xs)` and `"".join(xs)`. */
module PyText {
  import opened Wrappers

  /** `m` occurs in `s` at index `i`. */
  predicate OccursAt(s: string, m: string, i: nat) {
    i + |m| <= |s| && s[i..i + |m|] == m
  }

  /** `m in s`. */
  predicate Contains(s: string, m: string) {
    exists i: nat :: i <= |s| && OccursAt(s, m, i)
  }

  /** The index of the first occurrence of `m` in `s` (`s.find(m)`, with
      `None` for -1). */
  function Find(s: string, m: string): Option<nat>
    decreases |s|
  {
    if |s| < |m| then None
    else if s[..|m|] == m then Some(0)
    else
      var rest := Find(s[1..], m);
      if rest.Some? then Some(rest.value + 1) else None
  }

  /** An occurrence past the first character is an occurrence in the tail. */
  lemma ShiftOccurs(s: string, m: string, j: nat)
    requires |s| > 0
    ensures OccursAt(s, m, j + 1) <==> OccursAt(s[1..], m, j)
  {
    if j + 1 + |m| <= |s| {
      assert s[j + 1..j + 1 + |m|] == s[1..][j..j + |m|];
    }
  }

  /** `Find` gives the first occurrence, and `None` only when there is none. */
  lemma {:induction false} FindSpec(s: string, m: string)
    ensures Find(s, m).Some? ==>
      OccursAt(s, m, Find(s, m).value) && forall j: nat :: j < Find(s, m).value ==> !OccursAt(s, m, j)
    ensures Find(s, m).None? ==> forall j: nat :: !OccursAt(s, m, j)
    decreases |s|
  {
    if |s| >= |m| && s[..|m|] != m {
      FindSpec(s[1..], m);
      forall j: nat
        ensures OccursAt(s, m, j + 1) <==> OccursAt(s[1..], m, j)
      {
        ShiftOccurs(s, m, j);
      }
      assert !OccursAt(s, m, 0);
      forall j: nat | j > 0
        ensures OccursAt(s, m, j) <==> OccursAt(s[1..], m, j - 1)
      {
        ShiftOccurs(s, m, j - 1);
      }
    }
  }

  lemma FindFinds(s: string, m: string)
    ensures Find(s, m).Some? <==> Contains(s, m)
  {
    FindSpec(s, m);
    if Contains(s, m) {
      var i: nat :| i <= |s| && OccursAt(s, m, i);
    }
    if Find(s, m).Some? {
      assert OccursAt(s, m, Find(s, m).value);
    }
  }

  /** `s.split(m, 1)[0]`: the text before the first occurrence of `m`, or all
      of `s` when there is none. */
  function Before(s: string, m: string): (r: string)
    ensures |r| <= |s| && r == s[..|r|]
  {
    FindSpec(s, m);
    match Find(s, m)
    case Some(i) => s[..i]
    case None => s
  }

  /** The text before the first occurrence holds no occurrence. */
  lemma BeforeHasNone(s: string, m: string)
    requires |m| > 0
    ensures !Contains(Before(s, m), m)
    ensures !Contains(s, m) ==> Before(s, m) == s
  {
    FindFinds(s, m);
    FindSpec(s, m);
    var r := Before(s, m);
    forall j: nat | OccursAt(r, m, j)
      ensures false
    {
      assert r[j..j + |m|] == s[j..j + |m|];
      assert OccursAt(s, m, j);
    }
  }

  /** `"".join(xs)`. */
  function Concat(xs: seq<string>): string
    decreases |xs|
  {
    if |xs| == 0 then "" else Concat(xs[..|xs| - 1]) + xs[|xs| - 1]
  }

  /** The lengths add up. */
  lemma {:induction false} ConcatLength(xs: seq<string>)
    ensures |Concat(xs)| == (if |xs| == 0 then 0 else |Concat(xs[..|xs| - 1])| + |xs[|xs| - 1]|)
    ensures forall i :: 0 <= i < |xs| ==> |xs[i]| <= |Concat(xs)|
    decreases |xs|
  {
    if |xs| > 0 {
      ConcatLength(xs[..|xs| - 1]);
      forall i | 0 <= i < |xs| - 1
        ensures |xs[i]| <= |Concat(xs)|
      {
        assert xs[..|xs| - 1][i] == xs[i];
      }
    }
  }

  /** `sep.join(xs)`. */
  function JoinWith(xs: seq<string>, sep: string): string
    decreases |xs|
  {
    if |xs| == 0 then "" else if |xs| == 1 then xs[0] else xs[0] + sep + JoinWith(xs[1..], sep)
  }
}
