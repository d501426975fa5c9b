/** Indexing a list of records by a key, the `byName[x.Name] = x` loops of the
    catalog code: one entry per distinct key, the last record with a key wins. */
module ByName {

  /** The map the loop has built after visiting all of `xs`. */
  function IndexBy<T>(xs: seq<T>, key: T -> string): map<string, T>
    decreases |xs|
  {
    if |xs| == 0 then map[]
    else IndexBy(xs[..|xs| - 1], key)[key(xs[|xs| - 1]) := xs[|xs| - 1]]
  }

  /** The keys are exactly the keys of the records. */
  lemma {:induction false} IndexKeys<T>(xs: seq<T>, key: T -> string)
    ensures forall k :: k in IndexBy(xs, key) <==> exists i :: 0 <= i < |xs| && key(xs[i]) == k
    decreases |xs|
  {
    if |xs| > 0 {
      var init := xs[..|xs| - 1];
      IndexKeys(init, key);
      forall k ensures k in IndexBy(xs, key) <==> exists i :: 0 <= i < |xs| && key(xs[i]) == k {
        if k in IndexBy(init, key) {
          var i :| 0 <= i < |init| && key(init[i]) == k;
          assert xs[i] == init[i];
        }
        if i :| 0 <= i < |xs| && key(xs[i]) == k {
          if i < |xs| - 1 {
            assert init[i] == xs[i];
          }
        }
      }
    }
  }

  /** Every stored record is stored under its own key. */
  lemma {:induction false} IndexValuesMatchKeys<T>(xs: seq<T>, key: T -> string)
    ensures forall k :: k in IndexBy(xs, key) ==> key(IndexBy(xs, key)[k]) == k
    decreases |xs|
  {
    if |xs| > 0 {
      IndexValuesMatchKeys(xs[..|xs| - 1], key);
    }
  }

  /** Every stored record comes from the list. */
  lemma {:induction false} IndexValuesFromList<T>(xs: seq<T>, key: T -> string)
    ensures forall k :: k in IndexBy(xs, key) ==> IndexBy(xs, key)[k] in xs
    decreases |xs|
  {
    if |xs| > 0 {
      var init := xs[..|xs| - 1];
      IndexValuesFromList(init, key);
      forall k | k in IndexBy(xs, key) ensures IndexBy(xs, key)[k] in xs {
        if k != key(xs[|xs| - 1]) {
          var v := IndexBy(init, key)[k];
          assert v in init;
          var i :| 0 <= i < |init| && init[i] == v;
          assert xs[i] == v;
        }
      }
    }
  }

  /** With duplicate keys, the last record in list order wins. */
  lemma {:induction false} IndexLastWins<T>(xs: seq<T>, key: T -> string, i: int)
    requires 0 <= i < |xs|
    requires forall j :: i < j < |xs| ==> key(xs[j]) != key(xs[i])
    ensures key(xs[i]) in IndexBy(xs, key) && IndexBy(xs, key)[key(xs[i])] == xs[i]
    decreases |xs|
  {
    if i < |xs| - 1 {
      var init := xs[..|xs| - 1];
      assert init[i] == xs[i];
      forall j | i < j < |init| ensures key(init[j]) != key(init[i]) {
        assert init[j] == xs[j];
      }
      IndexLastWins(init, key, i);
    }
  }
}
