/** Turning the words of a product line into a stable key.

    Which words look like pieces of a part code is a parameter; the passes over them are not. */
module Product {
  import opened Options

  const MAX_KEY_LENGTH := 200

  // ---------------------------------------------------------------------------------------------
  // Part codes

  /** Not in a run of two or more fragments: no fragment, or one with no fragment beside it. */
  predicate Lone(code: string -> bool, tokens: seq<string>, i: nat)
    requires i < |tokens|
  {
    code(tokens[i]) ==> !(i > 0 && code(tokens[i - 1])) && !(i + 1 < |tokens| && code(tokens[i + 1]))
  }

  /** The tokens from position `i` on that stand outside such runs. */
  function OutsideRuns(code: string -> bool, tokens: seq<string>, i: nat): seq<string>
    requires i <= |tokens|
    decreases |tokens| - i
  {
    if i == |tokens| then []
    else (if Lone(code, tokens, i) then [tokens[i]] else []) + OutsideRuns(code, tokens, i + 1)
  }

  lemma {:induction false} RunIsDropped(code: string -> bool, tokens: seq<string>, i: nat, end: nat)
    requires i <= end <= |tokens| && forall k :: i <= k < end ==> !Lone(code, tokens, k)
    ensures OutsideRuns(code, tokens, i) == OutsideRuns(code, tokens, end)
    decreases end - i
  {
    if i < end {
      RunIsDropped(code, tokens, i + 1, end);
    }
  }

  method DropPartCodeRuns(code: string -> bool, tokens: seq<string>) returns (result: seq<string>)
    ensures result == OutsideRuns(code, tokens, 0)
  {
    result := [];
    var index := 0;
    while index < |tokens|
      invariant 0 <= index <= |tokens|
      invariant result + OutsideRuns(code, tokens, index) == OutsideRuns(code, tokens, 0)
      invariant index > 0 && index < |tokens| && code(tokens[index]) ==> !code(tokens[index - 1])
    {
      if code(tokens[index]) {
        var end := index;
        while end < |tokens| && code(tokens[end])
          invariant index <= end <= |tokens| && forall k :: index <= k < end ==> code(tokens[k])
        {
          end := end + 1;
        }
        if end - index >= 2 {
          forall k | index <= k < end ensures !Lone(code, tokens, k) {
            assert if k + 1 < end then code(tokens[k + 1]) else code(tokens[k - 1]);
          }
          RunIsDropped(code, tokens, index, end);
          index := end;
          continue;
        }
      }
      result := result + [tokens[index]];
      index := index + 1;
    }
  }

  predicate NoNeighbours(code: string -> bool, tokens: seq<string>) {
    forall i :: 0 <= i < |tokens| - 1 ==> !(code(tokens[i]) && code(tokens[i + 1]))
  }

  /** No two fragments stand side by side in the result. */
  lemma {:induction false} NoRunSurvives(code: string -> bool, tokens: seq<string>, i: nat)
    requires i <= |tokens|
    ensures NoNeighbours(code, OutsideRuns(code, tokens, i))
    decreases |tokens| - i
  {
    if i < |tokens| {
      NoRunSurvives(code, tokens, i + 1);
      if Lone(code, tokens, i) && code(tokens[i]) && i + 1 < |tokens| {
        assert Lone(code, tokens, i + 1);
        assert OutsideRuns(code, tokens, i + 1)[0] == tokens[i + 1];
      }
    }
  }

  lemma {:induction false} LoneTokensStay(code: string -> bool, tokens: seq<string>, i: nat)
    requires NoNeighbours(code, tokens) && i <= |tokens|
    ensures OutsideRuns(code, tokens, i) == tokens[i..]
    decreases |tokens| - i
  {
    if i < |tokens| {
      assert i > 0 ==> !(code(tokens[i - 1]) && code(tokens[i - 1 + 1]));
      LoneTokensStay(code, tokens, i + 1);
    }
  }

  /** So a second pass changes nothing. */
  lemma DroppingTwiceIsDroppingOnce(code: string -> bool, tokens: seq<string>)
    ensures OutsideRuns(code, OutsideRuns(code, tokens, 0), 0) == OutsideRuns(code, tokens, 0)
  {
    NoRunSurvives(code, tokens, 0);
    LoneTokensStay(code, OutsideRuns(code, tokens, 0), 0);
  }

  // ---------------------------------------------------------------------------------------------
  // The key

  function Join(tokens: seq<string>): string {
    if tokens == [] then [] else if |tokens| == 1 then tokens[0] else tokens[0] + ['-'] + Join(tokens[1..])
  }

  /** The parts between dashes; an empty text has one empty part. */
  function Split(s: string): (r: seq<string>)
    ensures r != []
  {
    if s == [] then [[]]
    else
      var rest := Split(s[1..]);
      if s[0] == '-' then [[]] + rest else [[s[0]] + rest[0]] + rest[1..]
  }

  /** A word of a normalised text: not empty, no dash in it. */
  predicate Word(t: string) {
    t != [] && '-' !in t
  }

  ghost predicate Words(tokens: seq<string>) {
    forall i :: 0 <= i < |tokens| ==> Word(tokens[i])
  }

  method ProductKey(tokens: seq<string>) returns (key: Option<string>, ghost kept: nat)
    ensures kept <= |tokens|
    ensures key == if kept == 0 then None else Some(Join(tokens[..kept]))
    ensures key.Some? ==> |key.value| <= 200
    ensures kept < |tokens| ==> |Join(tokens[..kept + 1])| > 200
  {
    var parts: seq<string> := [];
    var length := 0;
    var i := 0;
    while i < |tokens|
      invariant 0 <= i <= |tokens| && parts == tokens[..i] && length == |Join(parts)| <= MAX_KEY_LENGTH
    {
      var extra := |tokens[i]| + if parts != [] then 1 else 0;
      assert tokens[..i + 1] == parts + [tokens[i]];
      JoinOneMore(parts, tokens[i]);
      if length + extra > MAX_KEY_LENGTH {
        break;
      }
      parts := parts + [tokens[i]];
      length := length + extra;
      i := i + 1;
    }
    kept := i;
    key := if parts == [] then None else Some(Join(parts));
  }

  lemma {:induction false} JoinOneMore(tokens: seq<string>, t: string)
    ensures Join(tokens + [t]) == if tokens == [] then t else Join(tokens) + ['-'] + t
  {
    if |tokens| >= 1 {
      assert (tokens + [t])[1..] == tokens[1..] + [t];
      JoinOneMore(tokens[1..], t);
    }
  }

  lemma {:induction false} SplitOfWord(t: string)
    requires '-' !in t
    ensures Split(t) == [t]
  {
    if t != [] {
      SplitOfWord(t[1..]);
      assert [t[0]] + t[1..] == t;
    }
  }

  lemma {:induction false} SplitAtDash(t: string, rest: string)
    requires '-' !in t
    ensures Split(t + ['-'] + rest) == [t] + Split(rest)
  {
    var s := t + ['-'] + rest;
    if t == [] {
      assert s[1..] == rest;
    } else {
      assert s[1..] == t[1..] + ['-'] + rest;
      SplitAtDash(t[1..], rest);
      assert [t[0]] + t[1..] == t;
    }
  }

  /** A key names its tokens: splitting it gives them back. */
  lemma {:induction false} KeySplitsBack(tokens: seq<string>)
    requires Words(tokens) && tokens != []
    ensures Split(Join(tokens)) == tokens && Join(tokens) != []
  {
    if |tokens| == 1 {
      SplitOfWord(tokens[0]);
    } else {
      assert Words(tokens[1..]);
      KeySplitsBack(tokens[1..]);
      SplitAtDash(tokens[0], Join(tokens[1..]));
    }
  }

  /** The whole promise of a key: a prefix of the tokens, the longest that fits, and readable back. */
  lemma KeyIsALongestPrefix(tokens: seq<string>, kept: nat)
    requires Words(tokens) && 0 < kept <= |tokens|
    ensures Split(Join(tokens[..kept])) == tokens[..kept] && Join(tokens[..kept]) != []
    ensures forall k :: 0 < k <= |tokens| && Join(tokens[..k]) == Join(tokens[..kept]) ==> k == kept
  {
    assert Words(tokens[..kept]);
    KeySplitsBack(tokens[..kept]);
    forall k | 0 < k <= |tokens| && Join(tokens[..k]) == Join(tokens[..kept]) ensures k == kept {
      assert Words(tokens[..k]);
      KeySplitsBack(tokens[..k]);
      assert |tokens[..k]| == |tokens[..kept]|;
    }
  }

  // ---------------------------------------------------------------------------------------------
  // Trimming

  /** The part left after hype words in front and connectors behind. */
  function TrimEdges(tokens: seq<string>, hype: set<string>, connectors: set<string>): seq<string> {
    if tokens == [] then []
    else if tokens[0] in hype then TrimEdges(tokens[1..], hype, connectors)
    else if tokens[|tokens| - 1] in connectors then TrimEdges(tokens[..|tokens| - 1], hype, connectors)
    else tokens
  }

  /** A model whose last word spells a connector loses it: "a" is one of them. */
  lemma TrimCutsAModelSuffix(model: seq<string>, hype: set<string>, connectors: set<string>, suffix: string)
    requires suffix in connectors && model != [] && model[0] !in hype && model[|model| - 1] !in connectors
    ensures TrimEdges(model + [suffix], hype, connectors) == TrimEdges(model, hype, connectors) == model
  {
    assert (model + [suffix])[..|model|] == model;
  }
}
