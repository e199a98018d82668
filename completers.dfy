/** `choice_completer` of pypsi/completers.py: a tab-completion function over
    a fixed list of choices. */
module Completers {
  import opened Sequences

  /** Lower-casing of one character, restricted to ASCII letters. */
  function LowerChar(c: char): char
  {
    if 'A' <= c <= 'Z' then (c as int + 32) as char else c
  }

  /** `str.lower()`. */
  function Lower(s: string): (r: string)
    ensures |r| == |s|
    ensures forall i :: 0 <= i < |s| ==> r[i] == LowerChar(s[i])
  {
    seq(|s|, i requires 0 <= i < |s| => LowerChar(s[i]))
  }

  /** The choices that start with `needle`, in their original order. */
  function Matching(choices: seq<string>, needle: string): seq<string>
  {
    if choices == [] then []
    else
      var last := choices[|choices| - 1];
      Matching(choices[..|choices| - 1], needle) + (if StartsWith(last, needle) then [last] else [])
  }

  /** `a` is `b` with some elements dropped and the rest kept in order. */
  predicate IsSubsequence(a: seq<string>, b: seq<string>)
    decreases |b|
  {
    if b == [] then a == []
    else
      IsSubsequence(a, b[..|b| - 1])
      || (a != [] && a[|a| - 1] == b[|b| - 1] && IsSubsequence(a[..|a| - 1], b[..|b| - 1]))
  }

  /** The closure `choice_completer(choices, case_sensitive)` returns; the
      source's default for `case_sensitive` is false. */
  datatype ChoiceCompleter = ChoiceCompleter(choices: seq<string>, caseSensitive: bool) {

    /** What each choice is tested against: the prefix itself, or the prefix
        lower-cased; the choices are never lower-cased. */
    function Needle(prefix: string): string
    {
      if caseSensitive then prefix else Lower(prefix)
    }

    /** `complete(shell, args, prefix)`; the shell and its parsed arguments are unused. */
    method Complete(prefix: string) returns (r: seq<string>)
      ensures r == Matching(choices, Needle(prefix))
    {
      var needle := Needle(prefix);
      r := [];
      for i := 0 to |choices|
        invariant r == Matching(choices[..i], needle)
      {
        assert choices[..i + 1][..i] == choices[..i];
        if StartsWith(choices[i], needle) {
          r := r + [choices[i]];
        }
      }
      assert choices[..|choices|] == choices;
    }
  }

  /** Every candidate returned starts with the needle, and every choice that
      starts with it is returned: nothing is dropped, nothing foreign is added. */
  lemma {:induction false} MatchingMembers(choices: seq<string>, needle: string)
    ensures forall c :: c in Matching(choices, needle) <==> c in choices && StartsWith(c, needle)
  {
    if choices != [] {
      var init := choices[..|choices| - 1];
      MatchingMembers(init, needle);
      assert choices == init + [choices[|choices| - 1]];
    }
  }

  /** The result is an order-preserving subsequence of the choices, hence no longer. */
  lemma {:induction false} MatchingIsSubsequence(choices: seq<string>, needle: string)
    ensures IsSubsequence(Matching(choices, needle), choices)
    ensures |Matching(choices, needle)| <= |choices|
  {
    if choices != [] {
      var init := choices[..|choices| - 1];
      var last := choices[|choices| - 1];
      MatchingIsSubsequence(init, needle);
      var m := Matching(init, needle);
      if StartsWith(last, needle) {
        assert (m + [last])[..|m|] == m;
      } else {
        assert Matching(choices, needle) == m + [] == m;
      }
    }
  }

  /** An empty prefix completes to every choice, in order. */
  lemma {:induction false} EmptyPrefixKeepsAll(choices: seq<string>)
    ensures Matching(choices, []) == choices
  {
    if choices != [] {
      EmptyPrefixKeepsAll(choices[..|choices| - 1]);
      var last := choices[|choices| - 1];
      assert StartsWith(last, []);
      assert choices[..|choices| - 1] + [last] == choices;
    }
  }

  /** Case-insensitive completion is case-sensitive completion of the
      lower-cased prefix, and the empty prefix completes to all choices in
      either mode. */
  lemma CaseInsensitiveIsLoweredPrefix(choices: seq<string>, prefix: string)
    ensures ChoiceCompleter(choices, false).Needle(prefix) == ChoiceCompleter(choices, true).Needle(Lower(prefix))
    ensures ChoiceCompleter(choices, false).Needle([]) == []
  {
  }

  /** Only the prefix is lower-cased: in case-insensitive mode a choice with an
      upper-case letter in the compared part is not offered even for a prefix
      that spells it exactly. */
  lemma UpperCaseChoiceMissed()
    ensures Matching(["Foo"], ChoiceCompleter(["Foo"], false).Needle("Fo")) == []
    ensures Matching(["foo"], ChoiceCompleter(["foo"], false).Needle("FO")) == ["foo"]
  {
    assert Lower("Fo") == "fo";
    assert Lower("FO") == "fo";
    assert "Foo"[..2] == "Fo";
    assert "foo"[..2] == "fo";
    assert ["Foo"][..0] == [];
    assert ["foo"][..0] == [];
  }
}
