/** `make_agent_id` (a2a/src/AgentKit/agent/agent_id.py):
    `re.sub(r"\W+", "_", name)`, every maximal run of non-word characters
    replaced by one underscore. */
module AgentIds {

  /** Which characters beyond ASCII Python's Unicode `\w` counts as word
      characters (letters, digits and the like); the Unicode tables are not
      part of this model. */
  type UnicodeWord = char -> bool

  /** A character `\w` matches: an ASCII letter, digit or underscore, or a
      non-ASCII word character. */
  predicate IsWord(c: char, uni: UnicodeWord) {
    ('a' <= c <= 'z') || ('A' <= c <= 'Z') || ('0' <= c <= '9') || c == '_' || (c as int >= 128 && uni(c))
  }

  /** Every character is a word character. */
  predicate AllWord(s: string, uni: UnicodeWord) {
    forall i :: 0 <= i < |s| ==> IsWord(s[i], uni)
  }

  /** No character is a word character. */
  predicate NoWord(s: string, uni: UnicodeWord) {
    forall i :: 0 <= i < |s| ==> !IsWord(s[i], uni)
  }

  /** The id of a name grown by `c`, given the id `r` of the name `init`
      before it: a word character is kept, a non-word character after a
      non-word character is dropped, and any other starts a run, which
      becomes `_`. */
  function Step(r: string, init: string, c: char, uni: UnicodeWord): string {
    if IsWord(c, uni) then r + [c]
    else if |init| > 0 && !IsWord(init[|init| - 1], uni) then r
    else r + "_"
  }

  /** `make_agent_id(name)`, read left to right. */
  function AgentId(name: string, uni: UnicodeWord): (r: string)
    ensures |r| <= |name|
    decreases |name|
  {
    if |name| == 0 then ""
    else Step(AgentId(name[..|name| - 1], uni), name[..|name| - 1], name[|name| - 1], uni)
  }

  /** An id holds only word characters, `_` included. */
  lemma {:induction false} OnlyWords(name: string, uni: UnicodeWord)
    ensures AllWord(AgentId(name, uni), uni)
    decreases |name|
  {
    if |name| > 0 {
      var init := name[..|name| - 1];
      OnlyWords(init, uni);
      var r := AgentId(init, uni);
      var c := name[|name| - 1];
      var step := Step(r, init, c, uni);
      forall i | 0 <= i < |step|
        ensures IsWord(step[i], uni)
      {
        if i < |r| {
          assert step[i] == r[i];
        }
      }
    }
  }

  /** The id of a name with one more character. */
  lemma Unfold(s: string, c: char, uni: UnicodeWord)
    ensures AgentId(s + [c], uni) == Step(AgentId(s, uni), s, c, uni)
  {
    assert (s + [c])[..|s|] == s;
  }

  /** A name made of word characters only is its own id. */
  lemma {:induction false} WordsKept(name: string, uni: UnicodeWord)
    requires AllWord(name, uni)
    ensures AgentId(name, uni) == name
    decreases |name|
  {
    if |name| > 0 {
      var init := name[..|name| - 1];
      assert AllWord(init, uni) by {
        forall i | 0 <= i < |init|
          ensures IsWord(init[i], uni)
        {
          assert init[i] == name[i];
        }
      }
      WordsKept(init, uni);
      assert init + [name[|name| - 1]] == name;
    }
  }

  /** Deriving the id twice changes nothing. */
  lemma Idempotent(name: string, uni: UnicodeWord)
    ensures AgentId(AgentId(name, uni), uni) == AgentId(name, uni)
  {
    OnlyWords(name, uni);
    WordsKept(AgentId(name, uni), uni);
  }

  /** A non-empty run of non-word characters becomes a single `_`. */
  lemma {:induction false} RunBecomesUnderscore(s: string, uni: UnicodeWord)
    requires |s| > 0 && NoWord(s, uni)
    ensures AgentId(s, uni) == "_"
    decreases |s|
  {
    var init := s[..|s| - 1];
    if |init| > 0 {
      assert NoWord(init, uni) by {
        forall i | 0 <= i < |init|
          ensures !IsWord(init[i], uni)
        {
          assert init[i] == s[i];
        }
      }
      RunBecomesUnderscore(init, uni);
      assert !IsWord(init[|init| - 1], uni);
    }
  }

  /** Two pieces that do not split a run derive their ids apart. */
  lemma {:induction false} SplitAtWord(a: string, b: string, uni: UnicodeWord)
    requires |a| == 0 || |b| == 0 || IsWord(a[|a| - 1], uni) || IsWord(b[0], uni)
    ensures AgentId(a + b, uni) == AgentId(a, uni) + AgentId(b, uni)
    decreases |b|
  {
    if |b| == 0 {
      assert a + b == a;
    } else {
      var b' := b[..|b| - 1];
      var c := b[|b| - 1];
      var ab := a + b';
      if |b'| > 0 {
        assert b'[0] == b[0];
      }
      SplitAtWord(a, b', uni);
      assert a + b == ab + [c];
      assert b == b' + [c];
      Unfold(ab, c, uni);
      Unfold(b', c, uni);
      var x, y := AgentId(a, uni), AgentId(b', uni);
      StepAfter(x, y, a, b', c, uni);
    }
  }

  /** Growing the second piece by `c` grows the joined id the same way. */
  lemma StepAfter(x: string, y: string, a: string, b': string, c: char, uni: UnicodeWord)
    requires |b'| > 0 || |a| == 0 || IsWord(a[|a| - 1], uni) || IsWord(c, uni)
    requires |b'| == 0 ==> y == ""
    ensures Step(x + y, a + b', c, uni) == x + Step(y, b', c, uni)
  {
    var ab := a + b';
    if IsWord(c, uni) {
      assert (x + y) + [c] == x + (y + [c]);
    } else if |b'| > 0 {
      assert ab[|ab| - 1] == b'[|b'| - 1];
      assert (x + y) + "_" == x + (y + "_");
    } else {
      assert ab == a;
    }
  }

  /** A maximal run of non-word characters between two words (or the ends of
      the name) becomes exactly one `_`, and the rest derive as before. */
  lemma MaximalRun(left: string, run: string, right: string, uni: UnicodeWord)
    requires |run| > 0 && NoWord(run, uni)
    requires |left| == 0 || IsWord(left[|left| - 1], uni)
    requires |right| == 0 || IsWord(right[0], uni)
    ensures AgentId(left + run + right, uni) == AgentId(left, uni) + "_" + AgentId(right, uni)
  {
    SplitAtWord(left, run, uni);
    SplitAtWord(left + run, right, uni);
    RunBecomesUnderscore(run, uni);
  }
}
