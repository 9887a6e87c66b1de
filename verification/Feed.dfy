/** How the feed folds matches into cards, anew on every read.

    Two stages: matches of one rule at one price, then cards of one product at one price. In both, a
    chain grows while each next match is close to the one before it. */
module Feed {
  import opened Chat
  import opened Options
  import opened Pipeline

  datatype Card = Card(
    id: int, source: int, rule: int, price: Option<int>, matchedAt: int, messageId: Option<int>,
    product: Option<string>, sent: bool)

  datatype Stage = ByRule | ByProduct

  datatype Key = NoKey | RuleKey(rule: int, price: int) | ProductKey(product: string, price: int)

  function KeyOf(stage: Stage, c: Card): Key {
    match stage
    case ByRule => if c.price.None? then NoKey else RuleKey(c.rule, c.price.value)
    case ByProduct =>
      if c.product.None? || c.price.None? then NoKey else ProductKey(c.product.value, c.price.value)
  }

  /** The order a stage sorts its groups in: by time, and by id too in the second stage. */
  predicate NotAfter(stage: Stage, a: Card, b: Card) {
    a.matchedAt < b.matchedAt || (a.matchedAt == b.matchedAt && (stage == ByRule || a.id <= b.id))
  }

  // ---------------------------------------------------------------------------------------------
  // Sorting and chaining

  predicate InOrder(stage: Stage, s: seq<Card>) {
    forall i, j :: 0 <= i < j < |s| ==> NotAfter(stage, s[i], s[j])
  }

  function Members(cards: seq<Card>, stage: Stage, key: Key): seq<Card> {
    if cards == [] then []
    else (if KeyOf(stage, cards[0]) == key then [cards[0]] else []) + Members(cards[1..], stage, key)
  }

  function Insert(stage: Stage, c: Card, s: seq<Card>): seq<Card> {
    if s == [] || NotAfter(stage, c, s[0]) then [c] + s else [s[0]] + Insert(stage, c, s[1..])
  }

  /** A stable sort: among equals, the earlier in the list stays first. */
  function Sort(stage: Stage, s: seq<Card>): seq<Card> {
    if s == [] then [] else Insert(stage, s[0], Sort(stage, s[1..]))
  }

  lemma {:induction false} InsertAdds(stage: Stage, c: Card, s: seq<Card>)
    ensures multiset(Insert(stage, c, s)) == multiset(s) + multiset{c}
    ensures forall d :: d in Insert(stage, c, s) <==> d in s || d == c
  {
    if s != [] && !NotAfter(stage, c, s[0]) {
      InsertAdds(stage, c, s[1..]);
      assert s == [s[0]] + s[1..];
    }
  }

  lemma {:induction false} InsertKeepsOrder(stage: Stage, c: Card, s: seq<Card>)
    requires InOrder(stage, s)
    ensures InOrder(stage, Insert(stage, c, s))
  {
    if s != [] && !NotAfter(stage, c, s[0]) {
      InsertKeepsOrder(stage, c, s[1..]);
      InsertAdds(stage, c, s[1..]);
      var r := Insert(stage, c, s[1..]);
      forall d | d in r ensures NotAfter(stage, s[0], d) {
        if d != c {
          assert d in s[1..];
        }
      }
      assert forall i :: 0 <= i < |r| ==> r[i] in r;
    }
  }

  lemma {:induction false} SortPermutes(stage: Stage, s: seq<Card>)
    ensures InOrder(stage, Sort(stage, s)) && multiset(Sort(stage, s)) == multiset(s)
  {
    if s != [] {
      SortPermutes(stage, s[1..]);
      InsertKeepsOrder(stage, s[0], Sort(stage, s[1..]));
      InsertAdds(stage, s[0], Sort(stage, s[1..]));
      assert s == [s[0]] + s[1..];
    }
  }

  lemma SortSorts(stage: Stage, s: seq<Card>)
    ensures InOrder(stage, Sort(stage, s)) && |Sort(stage, s)| == |s|
    ensures forall c :: c in Sort(stage, s) <==> c in s
  {
    SortPermutes(stage, s);
    assert |multiset(Sort(stage, s))| == |multiset(s)|;
    assert forall c :: c in Sort(stage, s) <==> c in multiset(Sort(stage, s));
  }

  lemma {:induction false} MembersAreTheKeyed(cards: seq<Card>, stage: Stage, key: Key)
    ensures forall c :: c in Members(cards, stage, key) <==> c in cards && KeyOf(stage, c) == key
  {
    if cards != [] {
      MembersAreTheKeyed(cards[1..], stage, key);
      assert forall c :: c in cards <==> c == cards[0] || c in cards[1..];
    }
  }

  predicate Close(a: Card, b: Card) {
    InWindow(a.matchedAt, b.matchedAt)
  }

  function Last(chain: seq<Card>): Card
    requires chain != []
  {
    chain[|chain| - 1]
  }

  /** The chains of a sorted list whose first chain already starts with `chain`. */
  function Chains(chain: seq<Card>, rest: seq<Card>): seq<seq<Card>>
    requires chain != []
    decreases |rest|
  {
    if rest == [] then [chain]
    else if rest[0].matchedAt - Last(chain).matchedAt <= GROUPING_WINDOW then Chains(chain + [rest[0]], rest[1..])
    else [chain] + Chains([rest[0]], rest[1..])
  }

  function ChainsOf(cards: seq<Card>, stage: Stage, key: Key): seq<seq<Card>> {
    var s := Sort(stage, Members(cards, stage, key));
    if s == [] then [] else Chains([s[0]], s[1..])
  }

  /** The loop over a sorted group. */
  method ChainUp(sorted: seq<Card>) returns (chains: seq<seq<Card>>)
    requires sorted != []
    ensures chains == Chains([sorted[0]], sorted[1..])
  {
    chains := [];
    var chain := [sorted[0]];
    var i := 1;
    while i < |sorted|
      invariant 1 <= i <= |sorted| && chain != []
      invariant chains + Chains(chain, sorted[i..]) == Chains([sorted[0]], sorted[1..])
    {
      var candidate := sorted[i];
      assert sorted[i..][1..] == sorted[i + 1..];
      if candidate.matchedAt - chain[|chain| - 1].matchedAt <= GROUPING_WINDOW {
        chain := chain + [candidate];
      } else {
        assert chains + [chain] + Chains([candidate], sorted[i + 1..]) == chains + Chains(chain, sorted[i..]);
        chains := chains + [chain];
        chain := [candidate];
      }
      i := i + 1;
    }
    assert sorted[i..] == [];
    chains := chains + [chain];
  }

  ghost predicate ByTime(s: seq<Card>) {
    forall i, j :: 0 <= i < j < |s| ==> s[i].matchedAt <= s[j].matchedAt
  }

  ghost predicate Linked(chain: seq<Card>) {
    forall i :: 0 <= i < |chain| - 1 ==> Close(chain[i], chain[i + 1])
  }

  ghost predicate Apart(earlier: seq<Card>, later: seq<Card>) {
    earlier != [] && later != [] && later[0].matchedAt - Last(earlier).matchedAt > GROUPING_WINDOW
  }

  ghost predicate GoodChain(chain: seq<Card>) {
    chain != [] && Linked(chain) && ByTime(chain)
  }

  /** Whole chains, each linked and in time order, more than a window apart from one another. */
  ghost predicate WellChained(chains: seq<seq<Card>>) {
    && (forall k :: 0 <= k < |chains| ==> GoodChain(chains[k]))
    && (forall k, l :: 0 <= k < l < |chains| ==> Apart(chains[k], chains[l]))
  }

  lemma WithinChain(chain: seq<Card>, c: Card)
    requires GoodChain(chain) && c in chain
    ensures chain[0].matchedAt <= c.matchedAt <= Last(chain).matchedAt
  {
    var i :| 0 <= i < |chain| && chain[i] == c;
  }

  lemma CloseCardsShareAChain(chains: seq<seq<Card>>, k: nat, l: nat, x: Card, y: Card)
    requires WellChained(chains) && k < |chains| && l < |chains| && x in chains[k] && y in chains[l] && Close(x, y)
    ensures k == l
  {
    assert GoodChain(chains[k]) && GoodChain(chains[l]);
    WithinChain(chains[k], x);
    WithinChain(chains[l], y);
  }

  ghost predicate InSome(chains: seq<seq<Card>>, c: Card) {
    exists k :: 0 <= k < |chains| && c in chains[k]
  }

  lemma FirstChainApart(chain: seq<Card>, later: seq<seq<Card>>)
    requires GoodChain(chain) && WellChained(later)
    requires forall k :: 0 <= k < |later| ==> later[k] != [] && later[k][0].matchedAt - Last(chain).matchedAt > GROUPING_WINDOW
    ensures WellChained([chain] + later)
  {
    var chains := [chain] + later;
    forall k | 0 <= k < |chains| ensures GoodChain(chains[k]) {
      assert k > 0 ==> chains[k] == later[k - 1];
    }
    forall k, l | 0 <= k < l < |chains| ensures Apart(chains[k], chains[l]) {
      assert chains[l] == later[l - 1];
      if k > 0 {
        assert chains[k] == later[k - 1] && Apart(later[k - 1], later[l - 1]);
      }
    }
  }

  lemma {:induction false} ChainsAreWellChained(chain: seq<Card>, rest: seq<Card>)
    requires GoodChain(chain) && ByTime(chain + rest)
    ensures WellChained(Chains(chain, rest))
    ensures forall k :: 0 <= k < |Chains(chain, rest)| ==> Chains(chain, rest)[k] != [] && Chains(chain, rest)[k][0].matchedAt >= chain[0].matchedAt
    decreases |rest|
  {
    if rest != [] {
      var next := rest[0];
      assert (chain + rest)[|chain| - 1] == Last(chain) && (chain + rest)[|chain|] == next;
      if next.matchedAt - Last(chain).matchedAt <= GROUPING_WINDOW {
        assert chain + [next] + rest[1..] == chain + rest;
        ChainsAreWellChained(chain + [next], rest[1..]);
      } else {
        assert ByTime([next] + rest[1..]) by {
          assert [next] + rest[1..] == rest;
          assert forall i :: 0 <= i < |rest| ==> rest[i] == (chain + rest)[|chain| + i];
        }
        ChainsAreWellChained([next], rest[1..]);
        FirstChainApart(chain, Chains([next], rest[1..]));
      }
    }
  }

  lemma {:induction false} ChainsHoldEveryone(chain: seq<Card>, rest: seq<Card>, c: Card)
    requires chain != []
    ensures InSome(Chains(chain, rest), c) <==> c in chain || c in rest
    decreases |rest|
  {
    if rest == [] {
      assert Chains(chain, rest)[0] == chain;
    } else if rest[0].matchedAt - Last(chain).matchedAt <= GROUPING_WINDOW {
      ChainsHoldEveryone(chain + [rest[0]], rest[1..], c);
      assert rest == [rest[0]] + rest[1..];
    } else {
      var later := Chains([rest[0]], rest[1..]);
      ChainsHoldEveryone([rest[0]], rest[1..], c);
      assert rest == [rest[0]] + rest[1..];
      FirstOrLater(chain, later, c);
    }
  }

  lemma FirstOrLater(chain: seq<Card>, later: seq<seq<Card>>, c: Card)
    ensures InSome([chain] + later, c) <==> c in chain || InSome(later, c)
  {
    var chains := [chain] + later;
    if c in chain {
      assert c in chains[0];
    }
    if InSome(later, c) {
      var k :| 0 <= k < |later| && c in later[k];
      assert c in chains[k + 1];
    }
    if InSome(chains, c) {
      var k :| 0 <= k < |chains| && c in chains[k];
      assert k > 0 ==> c in later[k - 1];
    }
  }

  lemma GroupIsWellChained(cards: seq<Card>, stage: Stage, key: Key)
    ensures WellChained(ChainsOf(cards, stage, key))
  {
    SortSorts(stage, Members(cards, stage, key));
    var s := Sort(stage, Members(cards, stage, key));
    if s != [] {
      assert s == [s[0]] + s[1..];
      ChainsAreWellChained([s[0]], s[1..]);
    }
  }

  lemma GroupHoldsItsCards(cards: seq<Card>, stage: Stage, key: Key, c: Card)
    ensures InSome(ChainsOf(cards, stage, key), c) <==> c in cards && KeyOf(stage, c) == key
  {
    MembersAreTheKeyed(cards, stage, key);
    SortSorts(stage, Members(cards, stage, key));
    var s := Sort(stage, Members(cards, stage, key));
    if s != [] {
      assert s == [s[0]] + s[1..];
      ChainsHoldEveryone([s[0]], s[1..], c);
    }
  }

  // ---------------------------------------------------------------------------------------------
  // Chains are connected components

  /** Two cards of one rule, or of one product, at one price. */
  ghost predicate SameOffer(stage: Stage, a: Card, b: Card) {
    && a.price.Some? && a.price == b.price
    && (stage == ByRule ==> a.rule == b.rule)
    && (stage == ByProduct ==> a.product.Some? && a.product == b.product)
  }

  /** At most fifteen minutes apart. */
  ghost predicate Near(a: Card, b: Card) {
    -15 * 60 * 1_000_000 <= a.matchedAt - b.matchedAt <= 15 * 60 * 1_000_000
  }

  /** A walk over cards of one offer, each near the next. */
  ghost predicate Walk(cards: seq<Card>, stage: Stage, path: seq<Card>) {
    && path != []
    && (forall i :: 0 <= i < |path| ==> path[i] in cards && SameOffer(stage, path[i], path[0]))
    && forall i :: 0 <= i < |path| - 1 ==> Near(path[i], path[i + 1])
  }

  lemma KeysAreOffers(stage: Stage, a: Card, b: Card)
    ensures KeyOf(stage, a) == KeyOf(stage, b) != NoKey <==> SameOffer(stage, a, b)
    ensures Close(a, b) <==> Near(a, b)
  {
  }

  ghost predicate Connected(cards: seq<Card>, stage: Stage, a: Card, b: Card) {
    exists path :: Walk(cards, stage, path) && path[0] == a && Last(path) == b
  }

  ghost predicate SameChain(chains: seq<seq<Card>>, a: Card, b: Card) {
    exists k :: 0 <= k < |chains| && a in chains[k] && b in chains[k]
  }

  lemma {:induction false} WalkStaysInItsChain(cards: seq<Card>, stage: Stage, path: seq<Card>, k: nat)
    requires Walk(cards, stage, path)
    requires var chains := ChainsOf(cards, stage, KeyOf(stage, path[0])); k < |chains| && path[0] in chains[k]
    ensures Last(path) in ChainsOf(cards, stage, KeyOf(stage, path[0]))[k]
    decreases |path|
  {
    if |path| > 1 {
      var key := KeyOf(stage, path[0]);
      var chains := ChainsOf(cards, stage, key);
      GroupIsWellChained(cards, stage, key);
      GroupHoldsItsCards(cards, stage, key, path[1]);
      var l :| 0 <= l < |chains| && path[1] in chains[l];
      CloseCardsShareAChain(chains, k, l, path[0], path[1]);
      assert Walk(cards, stage, path[1..]);
      WalkStaysInItsChain(cards, stage, path[1..], k);
    }
  }

  lemma ChainMatesAreConnected(cards: seq<Card>, stage: Stage, key: Key, k: nat, a: Card, b: Card)
    requires key != NoKey && k < |ChainsOf(cards, stage, key)|
    requires a in ChainsOf(cards, stage, key)[k] && b in ChainsOf(cards, stage, key)[k]
    ensures Connected(cards, stage, a, b)
  {
    var chain := ChainsOf(cards, stage, key)[k];
    GroupIsWellChained(cards, stage, key);
    assert GoodChain(chain);
    forall c | c in chain ensures c in cards && KeyOf(stage, c) == key {
      GroupHoldsItsCards(cards, stage, key, c);
    }
    var i :| 0 <= i < |chain| && chain[i] == a;
    var j :| 0 <= j < |chain| && chain[j] == b;
    SegmentConnects(cards, stage, chain, i, j);
  }

  /** Two cards of a key share a chain exactly when a walk of close cards joins them. */
  lemma ChainsAreComponents(cards: seq<Card>, stage: Stage, key: Key, a: Card, b: Card)
    requires key != NoKey && a in cards && KeyOf(stage, a) == key
    ensures SameChain(ChainsOf(cards, stage, key), a, b) <==> Connected(cards, stage, a, b)
  {
    var chains := ChainsOf(cards, stage, key);
    if SameChain(chains, a, b) {
      var k :| 0 <= k < |chains| && a in chains[k] && b in chains[k];
      ChainMatesAreConnected(cards, stage, key, k, a, b);
    }
    if Connected(cards, stage, a, b) {
      var path :| Walk(cards, stage, path) && path[0] == a && Last(path) == b;
      GroupHoldsItsCards(cards, stage, key, a);
      var k :| 0 <= k < |chains| && a in chains[k];
      WalkStaysInItsChain(cards, stage, path, k);
    }
  }

  lemma {:induction false} SegmentConnects(cards: seq<Card>, stage: Stage, chain: seq<Card>, i: nat, j: nat)
    requires Linked(chain) && i < |chain| && j < |chain|
    requires forall c :: c in chain ==> c in cards && KeyOf(stage, c) == KeyOf(stage, chain[0]) != NoKey
    ensures Connected(cards, stage, chain[i], chain[j])
  {
    ChainIsOneOffer(stage, chain);
    if i <= j {
      var path := chain[i..j + 1];
      assert forall n :: 0 <= n < |path| ==> path[n] == chain[i + n];
      assert Walk(cards, stage, path) && path[0] == chain[i] && Last(path) == chain[j];
    } else {
      var path := seq(i - j + 1, n requires 0 <= n <= i - j => chain[i - n]);
      forall n | 0 <= n < |path| - 1 ensures Near(path[n], path[n + 1]) {
        assert Near(chain[i - n - 1], chain[i - n]);
      }
      assert path[0] == chain[i] && path[|path| - 1] == chain[j];
      assert Walk(cards, stage, path);
    }
  }

  lemma ChainIsOneOffer(stage: Stage, chain: seq<Card>)
    requires chain != [] && Linked(chain)
    requires forall c :: c in chain ==> KeyOf(stage, c) == KeyOf(stage, chain[0]) != NoKey
    ensures forall c, d :: c in chain && d in chain ==> SameOffer(stage, c, d)
    ensures forall n :: 0 <= n < |chain| - 1 ==> Near(chain[n], chain[n + 1])
  {
    forall c, d | c in chain && d in chain ensures SameOffer(stage, c, d) {
      KeysAreOffers(stage, c, d);
    }
    forall n | 0 <= n < |chain| - 1 ensures Near(chain[n], chain[n + 1]) {
      assert Close(chain[n], chain[n + 1]);
    }
  }

  // ---------------------------------------------------------------------------------------------
  // Collecting the chains of a list of cards

  ghost predicate DistinctIds(cards: seq<Card>) {
    forall i, j :: 0 <= i < j < |cards| ==> cards[i].id != cards[j].id
  }

  ghost predicate IsChainOf(cards: seq<Card>, stage: Stage, chain: seq<Card>) {
    exists key :: key != NoKey && chain in ChainsOf(cards, stage, key)
  }

  /** The dictionary of groups, filled card by card. */
  method GroupBy(cards: seq<Card>, stage: Stage) returns (groups: map<Key, seq<Card>>)
    ensures NoKey !in groups && forall key :: key in groups ==> groups[key] == Members(cards, stage, key)
    ensures forall key :: key != NoKey && key !in groups ==> Members(cards, stage, key) == []
  {
    groups := map[];
    var i := 0;
    while i < |cards|
      invariant 0 <= i <= |cards| && NoKey !in groups
      invariant forall key :: key in groups ==> groups[key] == Members(cards[..i], stage, key)
      invariant forall key :: key != NoKey && key !in groups ==> Members(cards[..i], stage, key) == []
    {
      var key := KeyOf(stage, cards[i]);
      assert cards[..i + 1] == cards[..i] + [cards[i]];
      forall k {
        MembersOfOneMore(cards[..i], cards[i], stage, k);
      }
      if key != NoKey {
        groups := groups[key := (if key in groups then groups[key] else []) + [cards[i]]];
      }
      i := i + 1;
    }
    assert cards[..i] == cards;
  }

  lemma {:induction false} MembersOfOneMore(cards: seq<Card>, c: Card, stage: Stage, key: Key)
    ensures Members(cards + [c], stage, key) == Members(cards, stage, key) + if KeyOf(stage, c) == key then [c] else []
  {
    if cards == [] {
      assert cards + [c] == [c];
      assert [c][1..] == [];
    } else {
      var first := if KeyOf(stage, cards[0]) == key then [cards[0]] else [];
      assert (cards + [c])[1..] == cards[1..] + [c];
      MembersOfOneMore(cards[1..], c, stage, key);
      assert Members(cards + [c], stage, key) == first + Members(cards[1..] + [c], stage, key);
    }
  }

  /** Every chain of two or more, and only chains. */
  method CollectChains(cards: seq<Card>, stage: Stage) returns (chains: seq<seq<Card>>)
    ensures forall chain :: chain in chains ==> IsChainOf(cards, stage, chain)
    ensures forall chain :: IsChainOf(cards, stage, chain) && |chain| >= 2 ==> chain in chains
  {
    var groups := GroupBy(cards, stage);
    chains := [];
    var keys := groups.Keys;
    while keys != {}
      invariant keys <= groups.Keys
      invariant forall chain :: chain in chains ==> IsChainOf(cards, stage, chain)
      invariant forall key, chain :: key in groups.Keys - keys && chain in ChainsOf(cards, stage, key) && |chain| >= 2 ==>
        chain in chains
      decreases |keys|
    {
      var key :| key in keys;
      var members := groups[key];
      SortSorts(stage, members);
      if |members| >= 2 {
        var found := ChainUp(Sort(stage, members));
        assert found == ChainsOf(cards, stage, key);
        chains := chains + found;
      } else {
        ShortGroupHasNoLongChain(cards, stage, key);
      }
      keys := keys - {key};
    }
    forall chain | IsChainOf(cards, stage, chain) && |chain| >= 2 ensures chain in chains {
      var key :| key != NoKey && chain in ChainsOf(cards, stage, key);
      assert Members(cards, stage, key) == [] ==> ChainsOf(cards, stage, key) == [];
      assert key in groups;
    }
  }

  lemma ShortGroupHasNoLongChain(cards: seq<Card>, stage: Stage, key: Key)
    requires |Members(cards, stage, key)| < 2
    ensures forall chain :: chain in ChainsOf(cards, stage, key) ==> |chain| < 2
  {
    SortSorts(stage, Members(cards, stage, key));
    var s := Sort(stage, Members(cards, stage, key));
    if s != [] {
      assert s[1..] == [];
      assert Chains([s[0]], s[1..]) == [[s[0]]];
    }
  }

  function Ids(chain: seq<Card>): set<int> {
    set c | c in chain :: c.id
  }

  /** Chains of different cards of a list share no id. */
  lemma ChainsShareNoCard(cards: seq<Card>, stage: Stage, p: seq<Card>, q: seq<Card>, c: Card)
    requires IsChainOf(cards, stage, p) && IsChainOf(cards, stage, q) && c in p && c in q
    ensures p == q
  {
    var key :| key != NoKey && p in ChainsOf(cards, stage, key);
    var other :| other != NoKey && q in ChainsOf(cards, stage, other);
    var chains := ChainsOf(cards, stage, key);
    var k :| 0 <= k < |chains| && chains[k] == p;
    var l :| 0 <= l < |ChainsOf(cards, stage, other)| && ChainsOf(cards, stage, other)[l] == q;
    GroupHoldsItsCards(cards, stage, key, c);
    GroupHoldsItsCards(cards, stage, other, c);
    assert InSome(chains, c) && InSome(ChainsOf(cards, stage, other), c);
    GroupIsWellChained(cards, stage, key);
    CloseCardsShareAChain(chains, k, l, c, c);
  }

  /** What chains are to the cards they came from. */
  lemma ChainFacts(cards: seq<Card>, stage: Stage, chain: seq<Card>)
    requires IsChainOf(cards, stage, chain)
    ensures GoodChain(chain)
    ensures forall a :: a in chain ==> a in cards && KeyOf(stage, a) != NoKey
    ensures forall a, b :: a in chain ==> (b in chain <==> Connected(cards, stage, a, b))
  {
    var key :| key != NoKey && chain in ChainsOf(cards, stage, key);
    var chains := ChainsOf(cards, stage, key);
    GroupIsWellChained(cards, stage, key);
    forall a | a in chain ensures a in cards && KeyOf(stage, a) == key {
      assert InSome(chains, a);
      GroupHoldsItsCards(cards, stage, key, a);
    }
    forall a, b | a in chain ensures b in chain <==> Connected(cards, stage, a, b) {
      ChainsAreComponents(cards, stage, key, a, b);
      if SameChain(chains, a, b) {
        var k :| 0 <= k < |chains| && a in chains[k] && b in chains[k];
        ChainsShareNoCard(cards, stage, chain, chains[k], a);
      }
    }
  }

  lemma HasAChain(cards: seq<Card>, stage: Stage, c: Card) returns (chain: seq<Card>)
    requires c in cards && KeyOf(stage, c) != NoKey
    ensures IsChainOf(cards, stage, chain) && c in chain
  {
    var key := KeyOf(stage, c);
    GroupHoldsItsCards(cards, stage, key, c);
    var k :| 0 <= k < |ChainsOf(cards, stage, key)| && c in ChainsOf(cards, stage, key)[k];
    chain := ChainsOf(cards, stage, key)[k];
  }

  // ---------------------------------------------------------------------------------------------
  // First stage: one card per chain

  /** The earliest card that sent a real alert; with none, the earliest card. */
  function Representative(chain: seq<Card>): (r: Card)
    requires chain != []
    ensures r in chain
    ensures forall c :: c in chain && c.sent ==> r.sent
  {
    FirstSent(chain, chain[0])
  }

  function FirstSent(chain: seq<Card>, otherwise: Card): (r: Card)
    ensures r in chain || r == otherwise
    ensures (exists c :: c in chain && c.sent) ==> r in chain && r.sent
    ensures (forall c :: c in chain ==> !c.sent) ==> r == otherwise
  {
    if chain == [] then otherwise else if chain[0].sent then chain[0] else FirstSent(chain[1..], otherwise)
  }

  lemma {:induction false} FirstSentIsFirst(chain: seq<Card>, otherwise: Card)
    requires ByTime(chain)
    ensures forall c :: c in chain && c.sent ==> FirstSent(chain, otherwise).matchedAt <= c.matchedAt
  {
    if chain != [] {
      FirstSentIsFirst(chain[1..], otherwise);
      forall c | c in chain && c.sent ensures FirstSent(chain, otherwise).matchedAt <= c.matchedAt {
        var i :| 0 <= i < |chain| && chain[i] == c;
        assert i > 0 ==> c in chain[1..];
      }
    }
  }

  lemma RepresentativeIsEarliest(chain: seq<Card>, c: Card)
    requires GoodChain(chain) && c in chain && c.sent == Representative(chain).sent
    ensures Representative(chain).matchedAt <= c.matchedAt
  {
    FirstSentIsFirst(chain, chain[0]);
    var i :| 0 <= i < |chain| && chain[i] == c;
    assert i > 0 ==> chain[0].matchedAt <= chain[i].matchedAt;
  }

  /** A chain's card: connected to everyone in it, `sent` if any of them is, and the earliest such. */
  ghost predicate StandsFor(cards: seq<Card>, r: Card, a: Card) {
    && Connected(cards, ByRule, a, r)
    && forall b :: Connected(cards, ByRule, a, b) ==> (b.sent ==> r.sent) && (b.sent == r.sent ==> r.matchedAt <= b.matchedAt)
  }

  method ApplyDisplayGrouping(cards: seq<Card>) returns (visible: seq<Card>)
    requires DistinctIds(cards)
    ensures DistinctIds(visible) && forall c :: c in visible ==> c in cards
    ensures forall c :: c in cards && c.price.None? ==> c in visible
    ensures forall a :: a in cards && a.price.Some? ==> exists r :: r in visible && StandsFor(cards, r, a)
    ensures forall r, r' :: r in visible && r' in visible && Connected(cards, ByRule, r, r') ==> r == r'
    ensures forall c :: c in cards && c !in visible ==>
      exists r :: r in visible && r.rule == c.rule && r.price == c.price && StandsFor(cards, r, c)
    ensures forall c :: c in cards && Alone(cards, ByRule, c) ==> c in visible
    ensures KeepsOrder(cards, visible)
  {
    var chains := CollectChains(cards, ByRule);
    forall chain | chain in chains ensures chain != [] {
      ChainIsGood(cards, ByRule, chain);
    }
    var hidden := AttachGroups(chains);
    visible := Visible(cards, hidden);
    VisibleAreTheUnhidden(cards, hidden);
    VisibleKeepsOrder(cards, hidden);
    OneCardPerChain(cards, chains, visible);
    HiddenHaveTheirOffer(cards, visible);
  }

  /** No other card of its rule, or of its product, and price is near. */
  ghost predicate Alone(cards: seq<Card>, stage: Stage, c: Card) {
    forall d :: d in cards && d != c && SameOffer(stage, c, d) ==> !Near(c, d)
  }

  lemma AloneIsConnectedToItself(cards: seq<Card>, stage: Stage, c: Card, d: Card)
    requires Alone(cards, stage, c) && Connected(cards, stage, c, d)
    ensures c == d
  {
    var path :| Walk(cards, stage, path) && path[0] == c && Last(path) == d;
    LoneWalkStays(cards, stage, path, |path| - 1);
  }

  lemma {:induction false} LoneWalkStays(cards: seq<Card>, stage: Stage, path: seq<Card>, n: nat)
    requires Walk(cards, stage, path) && Alone(cards, stage, path[0]) && n < |path|
    ensures path[n] == path[0]
  {
    if n > 0 {
      LoneWalkStays(cards, stage, path, n - 1);
      assert Near(path[n - 1], path[n]) && SameOffer(stage, path[n], path[0]);
    }
  }

  lemma ConnectedIsOneOffer(cards: seq<Card>, stage: Stage, a: Card, b: Card)
    requires Connected(cards, stage, a, b)
    ensures SameOffer(stage, a, b) && a in cards && b in cards
  {
    var path :| Walk(cards, stage, path) && path[0] == a && Last(path) == b;
    assert path[|path| - 1] == b;
  }

  /** What is hidden has a visible card of its rule and price that stands for it; what is alone stays. */
  lemma HiddenHaveTheirOffer(cards: seq<Card>, visible: seq<Card>)
    requires forall c :: c in cards && c.price.None? ==> c in visible
    requires forall a :: a in cards && a.price.Some? ==> exists r :: r in visible && StandsFor(cards, r, a)
    ensures forall c :: c in cards && c !in visible ==>
      exists r :: r in visible && r.rule == c.rule && r.price == c.price && StandsFor(cards, r, c)
    ensures forall c :: c in cards && Alone(cards, ByRule, c) ==> c in visible
  {
    forall c | c in cards && c.price.Some?
      ensures exists r :: r in visible && r.rule == c.rule && r.price == c.price && StandsFor(cards, r, c)
      ensures Alone(cards, ByRule, c) ==> c in visible
    {
      var r :| r in visible && StandsFor(cards, r, c);
      ConnectedIsOneOffer(cards, ByRule, c, r);
      if Alone(cards, ByRule, c) {
        AloneIsConnectedToItself(cards, ByRule, c, r);
      }
    }
  }

  /** Hides every card of a chain but its representative. */
  method AttachGroups(chains: seq<seq<Card>>) returns (hidden: set<int>)
    requires forall chain :: chain in chains ==> chain != []
    ensures forall id :: id in hidden <==> HiddenByOne(chains, id)
  {
    hidden := {};
    var i := 0;
    while i < |chains|
      invariant 0 <= i <= |chains|
      invariant forall id :: id in hidden <==> HiddenByOne(chains[..i], id)
    {
      var chain := chains[i];
      assert chains[..i + 1] == chains[..i] + [chain];
      assert chain in chains;
      HiddenByOneMore(chains[..i], chain);
      hidden := hidden + (Ids(chain) - {Representative(chain).id});
      i := i + 1;
    }
    assert chains[..i] == chains;
  }

  lemma ChainIsGood(cards: seq<Card>, stage: Stage, chain: seq<Card>)
    requires IsChainOf(cards, stage, chain)
    ensures GoodChain(chain)
  {
    var key :| key != NoKey && chain in ChainsOf(cards, stage, key);
    GroupIsWellChained(cards, stage, key);
  }

  ghost predicate HiddenByOne(chains: seq<seq<Card>>, id: int) {
    exists chain :: chain in chains && chain != [] && id in Ids(chain) && id != Representative(chain).id
  }

  lemma HiddenByOneMore(chains: seq<seq<Card>>, chain: seq<Card>)
    requires chain != []
    ensures forall id :: HiddenByOne(chains + [chain], id) <==>
      HiddenByOne(chains, id) || (id in Ids(chain) && id != Representative(chain).id)
  {
    assert forall c :: c in chains + [chain] <==> c in chains || c == chain;
  }

  function Visible(cards: seq<Card>, hidden: set<int>): seq<Card> {
    if cards == [] then [] else (if cards[0].id in hidden then [] else [cards[0]]) + Visible(cards[1..], hidden)
  }

  lemma {:induction false} VisibleAreTheUnhidden(cards: seq<Card>, hidden: set<int>)
    ensures forall c :: c in Visible(cards, hidden) <==> c in cards && c.id !in hidden
    ensures DistinctIds(cards) ==> DistinctIds(Visible(cards, hidden))
  {
    if cards != [] {
      VisibleAreTheUnhidden(cards[1..], hidden);
      assert forall c :: c in cards <==> c == cards[0] || c in cards[1..];
      if DistinctIds(cards) {
        assert forall c :: c in cards[1..] ==> c.id != cards[0].id;
        var rest := Visible(cards[1..], hidden);
        assert forall i :: 0 <= i < |rest| ==> rest[i] in rest;
      }
    }
  }

  ghost predicate Precedes(cards: seq<Card>, a: Card, b: Card) {
    exists k, l :: 0 <= k < l < |cards| && cards[k] == a && cards[l] == b
  }

  /** What is left stands as it stood. */
  ghost predicate KeepsOrder(cards: seq<Card>, some: seq<Card>) {
    forall i, j :: 0 <= i < j < |some| ==> Precedes(cards, some[i], some[j])
  }

  lemma {:induction false} VisibleKeepsOrder(cards: seq<Card>, hidden: set<int>)
    ensures KeepsOrder(cards, Visible(cards, hidden))
  {
    if cards != [] {
      var rest := Visible(cards[1..], hidden);
      VisibleKeepsOrder(cards[1..], hidden);
      VisibleAreTheUnhidden(cards[1..], hidden);
      forall a, b | Precedes(cards[1..], a, b) ensures Precedes(cards, a, b) {
        var k, l :| 0 <= k < l < |cards[1..]| && cards[1..][k] == a && cards[1..][l] == b;
        assert cards[k + 1] == a && cards[l + 1] == b;
      }
      forall j | 0 <= j < |rest| ensures Precedes(cards, cards[0], rest[j]) {
        assert rest[j] in cards[1..];
        var l :| 0 <= l < |cards[1..]| && cards[1..][l] == rest[j];
        assert cards[l + 1] == rest[j];
      }
    }
  }

  lemma SameIdSameCard(cards: seq<Card>, a: Card, b: Card)
    requires DistinctIds(cards) && a in cards && b in cards && a.id == b.id
    ensures a == b
  {
  }

  /** Within a chain only its representative stays. */
  lemma OnlyTheRepresentativeShows(cards: seq<Card>, chains: seq<seq<Card>>, chain: seq<Card>, c: Card)
    requires DistinctIds(cards) && IsChainOf(cards, ByRule, chain) && chain != [] && c in chain
    requires forall p :: p in chains ==> IsChainOf(cards, ByRule, p)
    requires forall p :: IsChainOf(cards, ByRule, p) && |p| >= 2 ==> p in chains
    ensures HiddenByOne(chains, c.id) <==> c != Representative(chain)
  {
    ChainFacts(cards, ByRule, chain);
    if c != Representative(chain) {
      assert |chain| >= 2;
      assert chain in chains && c.id in Ids(chain);
      if c.id == Representative(chain).id {
        SameIdSameCard(cards, c, Representative(chain));
      }
    }
    if HiddenByOne(chains, c.id) {
      var p :| p in chains && p != [] && c.id in Ids(p) && c.id != Representative(p).id;
      var d :| d in p && d.id == c.id;
      ChainFacts(cards, ByRule, p);
      SameIdSameCard(cards, c, d);
      ChainsShareNoCard(cards, ByRule, chain, p, c);
    }
  }

  lemma OneCardPerChain(cards: seq<Card>, chains: seq<seq<Card>>, visible: seq<Card>)
    requires DistinctIds(cards)
    requires forall p :: p in chains ==> IsChainOf(cards, ByRule, p)
    requires forall p :: IsChainOf(cards, ByRule, p) && |p| >= 2 ==> p in chains
    requires forall c :: c in visible <==> c in cards && !HiddenByOne(chains, c.id)
    ensures forall c :: c in cards && c.price.None? ==> c in visible
    ensures forall a :: a in cards && a.price.Some? ==> exists r :: r in visible && StandsFor(cards, r, a)
    ensures forall r, r' :: r in visible && r' in visible && Connected(cards, ByRule, r, r') ==> r == r'
  {
    forall c | c in cards && c.price.None? ensures c in visible {
      if HiddenByOne(chains, c.id) {
        var p :| p in chains && p != [] && c.id in Ids(p) && c.id != Representative(p).id;
        ChainFacts(cards, ByRule, p);
        var d :| d in p && d.id == c.id;
        SameIdSameCard(cards, c, d);
      }
    }
    forall a | a in cards && a.price.Some? ensures exists r :: r in visible && StandsFor(cards, r, a) {
      var chain := HasAChain(cards, ByRule, a);
      ChainFacts(cards, ByRule, chain);
      var r := Representative(chain);
      OnlyTheRepresentativeShows(cards, chains, chain, r);
      forall b | Connected(cards, ByRule, a, b)
        ensures (b.sent ==> r.sent) && (b.sent == r.sent ==> r.matchedAt <= b.matchedAt)
      {
        if b.sent == r.sent {
          RepresentativeIsEarliest(chain, b);
        }
      }
      assert StandsFor(cards, r, a);
    }
    forall r, r' | r in visible && r' in visible && Connected(cards, ByRule, r, r') ensures r == r' {
      var path :| Walk(cards, ByRule, path) && path[0] == r && Last(path) == r';
      var chain := HasAChain(cards, ByRule, r);
      ChainFacts(cards, ByRule, chain);
      OnlyTheRepresentativeShows(cards, chains, chain, r);
      OnlyTheRepresentativeShows(cards, chains, chain, r');
    }
  }

  // ---------------------------------------------------------------------------------------------
  // Second stage: one card per product, price and window

  /** One message caught by two rules is one posting; a card without a message is its own. */
  function PostingOf(c: Card): Posting {
    if c.messageId.None? then OfMatch(c.id) else OfMessage(c.source, c.messageId.value)
  }

  function Postings(chain: seq<Card>): set<Posting> {
    set c | c in chain :: PostingOf(c)
  }

  /** A card of the answer: `grouped` are the ids of the matches it stands for. */
  datatype Folded = Folded(card: Card, grouped: set<int>, seenCount: nat)

  function Single(c: Card): Folded {
    Folded(c, {c.id}, 1)
  }

  /** At least two postings: otherwise there is nothing duplicated. */
  predicate Folds(chain: seq<Card>) {
    |Postings(chain)| >= 2
  }

  lemma {:induction false} InsertKeepsDistinct(stage: Stage, c: Card, s: seq<Card>)
    requires DistinctIds(s) && c.id !in Ids(s)
    ensures DistinctIds(Insert(stage, c, s)) && Ids(Insert(stage, c, s)) == Ids(s) + {c.id}
  {
    if s == [] || NotAfter(stage, c, s[0]) {
      var t := [c] + s;
      assert forall i :: 1 <= i < |t| ==> t[i] in s && t[i].id in Ids(s);
      assert Ids(t) == Ids(s) + {c.id};
    } else {
      assert forall d :: d in s <==> d == s[0] || d in s[1..];
      assert Ids(s) == Ids(s[1..]) + {s[0].id};
      InsertKeepsDistinct(stage, c, s[1..]);
      var r := Insert(stage, c, s[1..]);
      assert s[0].id !in Ids(s[1..]);
      assert forall i :: 0 <= i < |r| ==> r[i].id in Ids(r);
      assert forall d :: d in [s[0]] + r <==> d == s[0] || d in r;
    }
  }

  lemma {:induction false} SortKeepsDistinct(stage: Stage, s: seq<Card>)
    requires DistinctIds(s)
    ensures DistinctIds(Sort(stage, s)) && Ids(Sort(stage, s)) == Ids(s)
  {
    if s != [] {
      SortKeepsDistinct(stage, s[1..]);
      assert forall d :: d in s <==> d == s[0] || d in s[1..];
      assert s[0].id !in Ids(s[1..]);
      InsertKeepsDistinct(stage, s[0], Sort(stage, s[1..]));
    }
  }

  lemma {:induction false} MembersStayDistinct(cards: seq<Card>, stage: Stage, key: Key)
    requires DistinctIds(cards)
    ensures DistinctIds(Members(cards, stage, key))
  {
    if cards != [] {
      MembersStayDistinct(cards[1..], stage, key);
      MembersAreTheKeyed(cards[1..], stage, key);
      var rest := Members(cards[1..], stage, key);
      assert forall i :: 0 <= i < |rest| ==> rest[i] in rest && rest[i] in cards[1..];
    }
  }

  lemma {:induction false} ChainsStayDistinct(chain: seq<Card>, rest: seq<Card>)
    requires chain != [] && DistinctIds(chain + rest)
    ensures forall k :: 0 <= k < |Chains(chain, rest)| ==> DistinctIds(Chains(chain, rest)[k])
    decreases |rest|
  {
    var s := chain + rest;
    assert forall i :: 0 <= i < |chain| ==> chain[i] == s[i];
    if rest != [] {
      if rest[0].matchedAt - Last(chain).matchedAt <= GROUPING_WINDOW {
        assert chain + [rest[0]] + rest[1..] == s;
        ChainsStayDistinct(chain + [rest[0]], rest[1..]);
      } else {
        assert [rest[0]] + rest[1..] == rest;
        assert forall i :: 0 <= i < |rest| ==> rest[i] == s[|chain| + i];
        ChainsStayDistinct([rest[0]], rest[1..]);
      }
    }
  }

  lemma ChainIsDistinct(cards: seq<Card>, stage: Stage, chain: seq<Card>)
    requires DistinctIds(cards) && IsChainOf(cards, stage, chain)
    ensures DistinctIds(chain)
  {
    var key :| key != NoKey && chain in ChainsOf(cards, stage, key);
    MembersStayDistinct(cards, stage, key);
    SortKeepsDistinct(stage, Members(cards, stage, key));
    var s := Sort(stage, Members(cards, stage, key));
    if s != [] {
      assert s == [s[0]] + s[1..];
      ChainsStayDistinct([s[0]], s[1..]);
    }
  }

  /** The chain that a card heads and folds, if it does. */
  ghost predicate Heads(chains: seq<seq<Card>>, chain: seq<Card>, id: int) {
    chain in chains && chain != [] && Folds(chain) && chain[0].id == id
  }

  ghost predicate FoldedAway(chains: seq<seq<Card>>, id: int) {
    exists chain :: chain in chains && chain != [] && Folds(chain) && id in Ids(chain[1..])
  }

  /** Widens the first card of every chain that folds, and hides the others. */
  method AttachDuplicateGroups(chains: seq<seq<Card>>) returns (widened: map<int, seq<Card>>, hidden: set<int>)
    requires forall chain :: chain in chains ==> chain != []
    ensures forall id :: id in widened ==> Heads(chains, widened[id], id)
    ensures forall id, chain :: Heads(chains, chain, id) ==> id in widened
    ensures forall id :: id in hidden <==> FoldedAway(chains, id)
  {
    widened, hidden := map[], {};
    var i := 0;
    while i < |chains|
      invariant 0 <= i <= |chains|
      invariant forall id :: id in widened ==> Heads(chains[..i], widened[id], id)
      invariant forall id, chain :: Heads(chains[..i], chain, id) ==> id in widened
      invariant forall id :: id in hidden <==> FoldedAway(chains[..i], id)
    {
      var chain := chains[i];
      assert chain in chains;
      assert chains[..i + 1] == chains[..i] + [chain];
      OneMoreChain(chains[..i], chain);
      if Folds(chain) {
        widened := widened[chain[0].id := chain];
        hidden := hidden + Ids(chain[1..]);
      }
      i := i + 1;
    }
    assert chains[..i] == chains;
  }

  lemma OneMoreChain(chains: seq<seq<Card>>, chain: seq<Card>)
    requires chain != []
    ensures forall p, id :: Heads(chains + [chain], p, id) <==>
      Heads(chains, p, id) || (p == chain && Folds(chain) && chain[0].id == id)
    ensures forall id :: FoldedAway(chains + [chain], id) <==>
      FoldedAway(chains, id) || (Folds(chain) && id in Ids(chain[1..]))
  {
    assert forall p :: p in chains + [chain] <==> p in chains || p == chain;
  }

  function Answer(cards: seq<Card>, widened: map<int, seq<Card>>): seq<Folded> {
    if cards == [] then []
    else
      var c := cards[0];
      [if c.id in widened then Folded(c, Ids(widened[c.id]), |Postings(widened[c.id])|) else Single(c)]
      + Answer(cards[1..], widened)
  }

  ghost predicate EntryFor(chains: seq<seq<Card>>, chain: seq<Card>, s: Folded) {
    Heads(chains, chain, s.card.id) && s.grouped == Ids(chain) && s.seenCount == |Postings(chain)|
  }

  /** An entry of the answer: a chain that folds, under its first card, or a card on its own. */
  ghost predicate Entry(chains: seq<seq<Card>>, s: Folded) {
    || (exists chain :: EntryFor(chains, chain, s))
    || (s == Single(s.card) && forall chain :: !Heads(chains, chain, s.card.id))
  }

  lemma {:induction false} AnswerEntries(cards: seq<Card>, widened: map<int, seq<Card>>, chains: seq<seq<Card>>)
    requires forall id :: id in widened ==> Heads(chains, widened[id], id)
    requires forall id, chain :: Heads(chains, chain, id) ==> id in widened
    ensures var out := Answer(cards, widened);
            && |out| == |cards|
            && forall i :: 0 <= i < |out| ==> out[i].card == cards[i] && Entry(chains, out[i])
  {
    if cards != [] {
      AnswerEntries(cards[1..], widened, chains);
      var first := Answer(cards, widened)[0];
      if cards[0].id in widened {
        assert EntryFor(chains, widened[cards[0].id], first);
      }
    }
  }

  ghost predicate ChainsOfProducts(cards: seq<Card>, chains: seq<seq<Card>>) {
    && (forall p :: p in chains ==> IsChainOf(cards, ByProduct, p))
    && (forall p :: IsChainOf(cards, ByProduct, p) && |p| >= 2 ==> p in chains)
  }

  lemma TwoMakeASetOfTwo(s: set<Posting>)
    ensures |s| >= 2 <==> exists p, q :: p in s && q in s && p != q
  {
    if |s| >= 2 {
      var p :| p in s;
      var rest := s - {p};
      assert |rest| >= 1;
      var q :| q in rest;
      assert p in s && q in s && p != q;
    } else if p, q :| p in s && q in s && p != q {
      assert {p, q} <= s;
      SubsetIsSmaller({p, q}, s);
    }
  }

  lemma SubsetIsSmaller(a: set<Posting>, b: set<Posting>)
    requires a <= b
    ensures |a| <= |b|
  {
    assert b == a + (b - a);
  }

  lemma FoldingChainsAreLong(chain: seq<Card>)
    ensures Folds(chain) ==> |chain| >= 2
  {
    if |chain| == 0 {
      assert Postings(chain) == {};
    } else if |chain| == 1 {
      assert Postings(chain) == {PostingOf(chain[0])};
    }
  }

  /** The entry's ids are those of cards of one chain, or the card's own. */
  lemma EntryOfCard(cards: seq<Card>, chains: seq<seq<Card>>, s: Folded, a: Card)
    requires DistinctIds(cards) && ChainsOfProducts(cards, chains) && s.card in cards && a in cards
    requires Entry(chains, s) && !FoldedAway(chains, s.card.id)
    ensures a.id in s.grouped <==>
      a == s.card || exists chain :: chain in chains && chain != [] && Folds(chain) && chain[0] == s.card && a in chain
  {
    if chain: seq<Card> :| EntryFor(chains, chain, s) {
      ChainFacts(cards, ByProduct, chain);
      SameIdSameCard(cards, chain[0], s.card);
      if a.id in Ids(chain) {
        var d: Card :| d in chain && d.id == a.id;
        SameIdSameCard(cards, a, d);
      }
      forall p: seq<Card> | p in chains && p != [] && Folds(p) && p[0] == s.card ensures p == chain {
        ChainsShareNoCard(cards, ByProduct, p, chain, s.card);
      }
    } else {
      forall p: seq<Card> | p in chains && p != [] && Folds(p) ensures p[0] != s.card {
        assert p[0].id == s.card.id ==> Heads(chains, p, s.card.id);
      }
      if a.id == s.card.id {
        SameIdSameCard(cards, a, s.card);
      }
    }
  }

  /** A card that was not folded away heads every folding chain it is in. */
  lemma NotAwayIsHead(chains: seq<seq<Card>>, chain: seq<Card>, a: Card)
    requires chain in chains && chain != [] && Folds(chain) && a in chain && !FoldedAway(chains, a.id)
    ensures a == chain[0]
  {
    assert chain == [chain[0]] + chain[1..];
  }

  lemma NotAwayIsItsOwnEntry(cards: seq<Card>, chains: seq<seq<Card>>, t: Folded, a: Card)
    requires DistinctIds(cards) && ChainsOfProducts(cards, chains) && t.card in cards && a in cards
    requires Entry(chains, t) && !FoldedAway(chains, t.card.id) && a.id in t.grouped && !FoldedAway(chains, a.id)
    ensures a == t.card
  {
    EntryOfCard(cards, chains, t, a);
    forall q: seq<Card> | q in chains && q != [] && Folds(q) && q[0] == t.card && a in q ensures a == t.card {
      NotAwayIsHead(chains, q, a);
    }
  }

  /** No card is in two entries. */
  lemma EntriesAreDisjoint(cards: seq<Card>, chains: seq<seq<Card>>, s: Folded, t: Folded, a: Card)
    requires DistinctIds(cards) && ChainsOfProducts(cards, chains) && s.card in cards && t.card in cards && a in cards
    requires Entry(chains, s) && Entry(chains, t) && !FoldedAway(chains, s.card.id) && !FoldedAway(chains, t.card.id)
    requires a.id in s.grouped && a.id in t.grouped
    ensures s.card == t.card
  {
    if a == s.card {
      NotAwayIsItsOwnEntry(cards, chains, t, a);
    } else if a == t.card {
      NotAwayIsItsOwnEntry(cards, chains, s, a);
    } else {
      EntryOfCard(cards, chains, s, a);
      EntryOfCard(cards, chains, t, a);
      var p: seq<Card> :| p in chains && p != [] && Folds(p) && p[0] == s.card && a in p;
      var q: seq<Card> :| q in chains && q != [] && Folds(q) && q[0] == t.card && a in q;
      ChainsShareNoCard(cards, ByProduct, p, q, a);
    }
  }

  /** The first card of a folding chain stays visible. */
  lemma HeadsStay(cards: seq<Card>, chains: seq<seq<Card>>, chain: seq<Card>)
    requires DistinctIds(cards) && ChainsOfProducts(cards, chains)
    requires chain in chains && chain != []
    ensures !FoldedAway(chains, chain[0].id)
  {
    if FoldedAway(chains, chain[0].id) {
      var p: seq<Card> :| p in chains && p != [] && Folds(p) && chain[0].id in Ids(p[1..]);
      ChainFacts(cards, ByProduct, p);
      ChainFacts(cards, ByProduct, chain);
      var d: Card :| d in p[1..] && d.id == chain[0].id;
      SameIdSameCard(cards, d, chain[0]);
      ChainsShareNoCard(cards, ByProduct, p, chain, d);
      ChainIsDistinct(cards, ByProduct, p);
    }
  }

  /** Which card of the answer stands for a match. */
  lemma CardHasItsEntry(cards: seq<Card>, chains: seq<seq<Card>>, a: Card) returns (r: Card)
    requires DistinctIds(cards) && ChainsOfProducts(cards, chains) && a in cards
    ensures r in cards && !FoldedAway(chains, r.id)
    ensures r == a || exists chain :: chain in chains && chain != [] && Folds(chain) && chain[0] == r && a in chain
  {
    if FoldedAway(chains, a.id) {
      var p: seq<Card> :| p in chains && p != [] && Folds(p) && a.id in Ids(p[1..]);
      ChainFacts(cards, ByProduct, p);
      var d: Card :| d in p[1..] && d.id == a.id;
      SameIdSameCard(cards, d, a);
      assert a in p && p[0] in p;
      HeadsStay(cards, chains, p);
      r := p[0];
    } else {
      r := a;
    }
  }

  /** The answer's groups partition the matches that came in. */
  ghost predicate Partitions(cards: seq<Card>, out: seq<Folded>) {
    && (forall i :: 0 <= i < |out| ==> out[i].card in cards && out[i].card.id in out[i].grouped)
    && (forall a :: a in cards ==> exists i :: 0 <= i < |out| && a.id in out[i].grouped)
    && (forall i, j, a :: 0 <= i < j < |out| && a in cards && a.id in out[i].grouped ==> a.id !in out[j].grouped)
  }

  ghost predicate Together(out: seq<Folded>, a: Card, b: Card) {
    exists i :: 0 <= i < |out| && a.id in out[i].grouped && b.id in out[i].grouped
  }

  /** Two cards are connected, and at least two postings are connected to them. */
  ghost predicate Duplicates(cards: seq<Card>, a: Card, b: Card) {
    && Connected(cards, ByProduct, a, b)
    && exists c, d :: Connected(cards, ByProduct, a, c) && Connected(cards, ByProduct, a, d) && TwoPostings(c, d)
  }

  /** Two matches, and not of one chat message. */
  ghost predicate TwoPostings(c: Card, d: Card) {
    c.id != d.id && (c.messageId.None? || c.messageId != d.messageId || c.source != d.source)
  }

  lemma PostingsAreTheMessages(cards: seq<Card>, c: Card, d: Card)
    requires DistinctIds(cards) && c in cards && d in cards
    ensures PostingOf(c) != PostingOf(d) <==> TwoPostings(c, d)
  {
    if c.id == d.id {
      SameIdSameCard(cards, c, d);
    }
  }

  ghost predicate Answers(cards: seq<Card>, chains: seq<seq<Card>>, shown: seq<Card>, out: seq<Folded>) {
    && DistinctIds(cards) && ChainsOfProducts(cards, chains) && DistinctIds(shown)
    && (forall c :: c in shown <==> c in cards && !FoldedAway(chains, c.id))
    && |out| == |shown| && forall i :: 0 <= i < |out| ==> out[i].card == shown[i] && Entry(chains, out[i])
  }

  lemma AnswerHolds(cards: seq<Card>, chains: seq<seq<Card>>, shown: seq<Card>, out: seq<Folded>, a: Card) returns (i: nat)
    requires Answers(cards, chains, shown, out) && a in cards
    ensures i < |out| && a.id in out[i].grouped
  {
    var r := CardHasItsEntry(cards, chains, a);
    assert r in shown;
    i :| 0 <= i < |shown| && shown[i] == r;
    EntryOfCard(cards, chains, out[i], a);
  }

  lemma AnswerHoldsOnce(
      cards: seq<Card>, chains: seq<seq<Card>>, shown: seq<Card>, out: seq<Folded>, i: nat, j: nat, a: Card)
    requires Answers(cards, chains, shown, out) && a in cards && i < j < |out|
    requires a.id in out[i].grouped
    ensures a.id !in out[j].grouped
  {
    assert out[i].card in shown && out[j].card in shown;
    if a.id in out[j].grouped {
      EntriesAreDisjoint(cards, chains, out[i], out[j], a);
    }
  }

  lemma EntryHoldsItsCard(cards: seq<Card>, chains: seq<seq<Card>>, shown: seq<Card>, out: seq<Folded>, i: nat)
    requires Answers(cards, chains, shown, out) && i < |out|
    ensures out[i].card in cards && out[i].card.id in out[i].grouped
  {
    assert out[i].card in shown;
    EntryOfCard(cards, chains, out[i], out[i].card);
  }

  lemma AnswerHoldsNoneTwice(cards: seq<Card>, chains: seq<seq<Card>>, shown: seq<Card>, out: seq<Folded>)
    requires Answers(cards, chains, shown, out)
    ensures forall i, j, a :: 0 <= i < j < |out| && a in cards && a.id in out[i].grouped ==> a.id !in out[j].grouped
  {
    forall i, j, a | 0 <= i < j < |out| && a in cards && a.id in out[i].grouped ensures a.id !in out[j].grouped {
      AnswerHoldsOnce(cards, chains, shown, out, i, j, a);
    }
  }

  lemma AnswerPartitions(cards: seq<Card>, chains: seq<seq<Card>>, shown: seq<Card>, out: seq<Folded>)
    requires Answers(cards, chains, shown, out)
    ensures Partitions(cards, out)
  {
    forall i | 0 <= i < |out| ensures out[i].card in cards && out[i].card.id in out[i].grouped {
      EntryHoldsItsCard(cards, chains, shown, out, i);
    }
    forall a | a in cards ensures exists i :: 0 <= i < |out| && a.id in out[i].grouped {
      var i := AnswerHolds(cards, chains, shown, out, a);
    }
    AnswerHoldsNoneTwice(cards, chains, shown, out);
  }

  /** Two cards share an entry exactly when they are one, or duplicates of each other. */
  lemma TogetherIffDuplicates(
      cards: seq<Card>, chains: seq<seq<Card>>, shown: seq<Card>, out: seq<Folded>, a: Card, b: Card)
    requires Answers(cards, chains, shown, out) && a in cards && b in cards
    ensures Together(out, a, b) <==> a == b || Duplicates(cards, a, b)
  {
    if a == b {
      var i := AnswerHolds(cards, chains, shown, out, a);
    } else {
      if Together(out, a, b) {
        var i :| 0 <= i < |out| && a.id in out[i].grouped && b.id in out[i].grouped;
        assert out[i].card in shown;
        TogetherMeansDuplicates(cards, chains, out[i], a, b);
      }
      if Duplicates(cards, a, b) {
        DuplicatesShareAnEntry(cards, chains, shown, out, a, b);
      }
    }
  }

  lemma DuplicatesShareAnEntry(
      cards: seq<Card>, chains: seq<seq<Card>>, shown: seq<Card>, out: seq<Folded>, a: Card, b: Card)
    requires Answers(cards, chains, shown, out) && a in cards && b in cards && Duplicates(cards, a, b)
    ensures Together(out, a, b)
  {
    var chain := DuplicatesAreTogether(cards, chains, a, b);
    HeadsStay(cards, chains, chain);
    ChainIsInCards(cards, chain);
    assert chain[0] in chain && chain[0] in shown;
    var i :| 0 <= i < |shown| && shown[i] == chain[0];
    EntryOfCard(cards, chains, out[i], a);
    EntryOfCard(cards, chains, out[i], b);
  }

  lemma ChainIsInCards(cards: seq<Card>, chain: seq<Card>)
    requires IsChainOf(cards, ByProduct, chain)
    ensures forall c :: c in chain ==> c in cards
  {
    ChainFacts(cards, ByProduct, chain);
  }

  lemma TogetherMeansDuplicates(cards: seq<Card>, chains: seq<seq<Card>>, s: Folded, a: Card, b: Card)
    requires DistinctIds(cards) && ChainsOfProducts(cards, chains) && s.card in cards && a in cards && b in cards && a != b
    requires Entry(chains, s) && !FoldedAway(chains, s.card.id) && a.id in s.grouped && b.id in s.grouped
    ensures Duplicates(cards, a, b)
  {
    EntryOfCard(cards, chains, s, a);
    EntryOfCard(cards, chains, s, b);
    var chain: seq<Card> :| chain in chains && chain != [] && Folds(chain) && chain[0] == s.card && (a in chain || b in chain);
    assert s.card in chain;
    if a != s.card {
      var p: seq<Card> :| p in chains && p != [] && Folds(p) && p[0] == s.card && a in p;
      ChainsShareNoCard(cards, ByProduct, p, chain, s.card);
    }
    if b != s.card {
      var p: seq<Card> :| p in chains && p != [] && Folds(p) && p[0] == s.card && b in p;
      ChainsShareNoCard(cards, ByProduct, p, chain, s.card);
    }
    FoldedMatesAreDuplicates(cards, chains, chain, a, b);
  }

  lemma FoldedMatesAreDuplicates(cards: seq<Card>, chains: seq<seq<Card>>, chain: seq<Card>, a: Card, b: Card)
    requires DistinctIds(cards) && ChainsOfProducts(cards, chains) && chain in chains && Folds(chain)
    requires a in chain && b in chain
    ensures Duplicates(cards, a, b)
  {
    ChainFacts(cards, ByProduct, chain);
    TwoMakeASetOfTwo(Postings(chain));
    var p, q :| p in Postings(chain) && q in Postings(chain) && p != q;
    var c: Card :| c in chain && PostingOf(c) == p;
    var d: Card :| d in chain && PostingOf(d) == q;
    PostingsAreTheMessages(cards, c, d);
    assert Connected(cards, ByProduct, a, c) && Connected(cards, ByProduct, a, d);
  }

  lemma DuplicatesAreTogether(cards: seq<Card>, chains: seq<seq<Card>>, a: Card, b: Card) returns (chain: seq<Card>)
    requires DistinctIds(cards) && ChainsOfProducts(cards, chains) && a in cards && Duplicates(cards, a, b)
    ensures chain in chains && chain != [] && Folds(chain) && a in chain && b in chain
  {
    var path :| Walk(cards, ByProduct, path) && path[0] == a && Last(path) == b;
    chain := HasAChain(cards, ByProduct, a);
    ChainFacts(cards, ByProduct, chain);
    var c, d :| Connected(cards, ByProduct, a, c) && Connected(cards, ByProduct, a, d) && TwoPostings(c, d);
    PostingsAreTheMessages(cards, c, d);
    assert PostingOf(c) in Postings(chain) && PostingOf(d) in Postings(chain);
    TwoMakeASetOfTwo(Postings(chain));
    FoldingChainsAreLong(chain);
  }

  /** On the fields: matches share a card only if they are of one product at one price, and a match with no
      other of its product and price near it keeps its own. */
  lemma FoldedIsOneOffer(cards: seq<Card>, on: bool, out: seq<Folded>, a: Card, b: Card)
    requires RightAnswer(cards, on, out) && a in cards && b in cards && a != b && Together(out, a, b)
    ensures on && a.product.Some? && a.product == b.product && a.price.Some? && a.price == b.price
    ensures !Alone(cards, ByProduct, a)
  {
    ConnectedIsOneOffer(cards, ByProduct, a, b);
    if Alone(cards, ByProduct, a) {
      AloneIsConnectedToItself(cards, ByProduct, a, b);
    }
  }

  /** The matches sharing a card are exactly duplicates of each other, and every count is honest. */
  ghost predicate RightAnswer(cards: seq<Card>, on: bool, out: seq<Folded>) {
    && Partitions(cards, out)
    && (forall a, b :: a in cards && b in cards ==> (Together(out, a, b) <==> a == b || (on && Duplicates(cards, a, b))))
    && (forall i :: 0 <= i < |out| ==> out[i].seenCount == |PostingsIn(cards, out[i].grouped)|)
    && (forall i :: 0 <= i < |out| ==> Earliest(cards, out[i]))
    && KeepsOrder(cards, CardsOf(out))
  }

  /** The card shown is the earliest of those it stands for, and of several at once the one with the least id. */
  ghost predicate Earliest(cards: seq<Card>, s: Folded) {
    forall a :: a in cards && a.id in s.grouped ==>
      s.card.matchedAt < a.matchedAt || (s.card.matchedAt == a.matchedAt && s.card.id <= a.id)
  }

  function CardsOf(out: seq<Folded>): seq<Card> {
    seq(|out|, i requires 0 <= i < |out| => out[i].card)
  }

  lemma {:induction false} ChainsStayInOrder(stage: Stage, chain: seq<Card>, rest: seq<Card>)
    requires chain != [] && InOrder(stage, chain + rest)
    ensures forall k :: 0 <= k < |Chains(chain, rest)| ==> InOrder(stage, Chains(chain, rest)[k])
    decreases |rest|
  {
    var s := chain + rest;
    assert forall i :: 0 <= i < |chain| ==> chain[i] == s[i];
    if rest != [] {
      if rest[0].matchedAt - Last(chain).matchedAt <= GROUPING_WINDOW {
        assert chain + [rest[0]] + rest[1..] == s;
        ChainsStayInOrder(stage, chain + [rest[0]], rest[1..]);
      } else {
        assert [rest[0]] + rest[1..] == rest;
        assert forall i :: 0 <= i < |rest| ==> rest[i] == s[|chain| + i];
        ChainsStayInOrder(stage, [rest[0]], rest[1..]);
      }
    }
  }

  lemma ChainIsInOrder(cards: seq<Card>, stage: Stage, chain: seq<Card>)
    requires IsChainOf(cards, stage, chain)
    ensures InOrder(stage, chain)
  {
    var key :| key != NoKey && chain in ChainsOf(cards, stage, key);
    var s := Sort(stage, Members(cards, stage, key));
    SortSorts(stage, Members(cards, stage, key));
    if s != [] {
      assert s == [s[0]] + s[1..];
      ChainsStayInOrder(stage, [s[0]], s[1..]);
    }
  }

  lemma EntryIsEarliest(cards: seq<Card>, chains: seq<seq<Card>>, s: Folded)
    requires DistinctIds(cards) && ChainsOfProducts(cards, chains) && s.card in cards && Entry(chains, s)
    ensures Earliest(cards, s)
  {
    if chain: seq<Card> :| EntryFor(chains, chain, s) {
      ChainIsInCards(cards, chain);
      ChainIsInOrder(cards, ByProduct, chain);
      SameIdSameCard(cards, chain[0], s.card);
      forall a | a in cards && a.id in s.grouped
        ensures s.card.matchedAt < a.matchedAt || (s.card.matchedAt == a.matchedAt && s.card.id <= a.id)
      {
        var i :| 0 <= i < |chain| && chain[i].id == a.id;
        SameIdSameCard(cards, chain[i], a);
        assert i > 0 ==> NotAfter(ByProduct, chain[0], chain[i]);
      }
    } else {
      forall a | a in cards && a.id in s.grouped ensures a == s.card {
        SameIdSameCard(cards, a, s.card);
      }
    }
  }

  /** The whole second stage. Off, or with nothing to fold, every card stands for itself. */
  method ApplyDuplicateGrouping(cards: seq<Card>, on: bool) returns (out: seq<Folded>)
    requires DistinctIds(cards)
    ensures RightAnswer(cards, on, out)
  {
    var chains := CollectChains(cards, ByProduct);
    forall chain | chain in chains ensures chain != [] {
      ChainIsGood(cards, ByProduct, chain);
    }
    if !on {
      out := Answer(cards, map[]);
      AnswerSingles(cards);
      SinglesAreRight(cards, out);
      return;
    }
    var widened, hidden := AttachDuplicateGroups(chains);
    var shown := Visible(cards, hidden);
    VisibleAreTheUnhidden(cards, hidden);
    out := Answer(shown, widened);
    AnswerEntries(shown, widened, chains);
    VisibleKeepsOrder(cards, hidden);
    AnswerIsRight(cards, chains, shown, out);
  }

  lemma AnswerIsRight(cards: seq<Card>, chains: seq<seq<Card>>, shown: seq<Card>, out: seq<Folded>)
    requires Answers(cards, chains, shown, out) && KeepsOrder(cards, shown)
    ensures RightAnswer(cards, true, out)
  {
    AnswerPartitions(cards, chains, shown, out);
    assert CardsOf(out) == shown;
    forall a, b | a in cards && b in cards ensures Together(out, a, b) <==> a == b || Duplicates(cards, a, b) {
      TogetherIffDuplicates(cards, chains, shown, out, a, b);
    }
    forall i | 0 <= i < |out| ensures out[i].seenCount == |PostingsIn(cards, out[i].grouped)| {
      assert out[i].card in shown;
      EntryCounts(cards, chains, out[i]);
    }
    forall i | 0 <= i < |out| ensures Earliest(cards, out[i]) {
      assert out[i].card in shown;
      EntryIsEarliest(cards, chains, out[i]);
    }
  }

  lemma SinglesAreRight(cards: seq<Card>, out: seq<Folded>)
    requires DistinctIds(cards) && AllSingle(cards, out)
    ensures RightAnswer(cards, false, out)
  {
    SinglesPartition(cards, out);
    forall a, b | a in cards && b in cards ensures Together(out, a, b) <==> a == b {
      SinglesAreApart(cards, out, a, b);
    }
    forall i | 0 <= i < |out| ensures out[i].seenCount == |PostingsIn(cards, out[i].grouped)| {
      SinglesCount(cards, out, i);
    }
    forall i | 0 <= i < |out| ensures Earliest(cards, out[i]) {
      SingleIsEarliest(cards, out, i);
    }
    assert CardsOf(out) == cards;
    assert KeepsOrder(cards, cards);
  }

  lemma SingleIsEarliest(cards: seq<Card>, out: seq<Folded>, i: nat)
    requires DistinctIds(cards) && AllSingle(cards, out) && i < |out|
    ensures Earliest(cards, out[i])
  {
    forall a | a in cards && a.id in out[i].grouped ensures a == cards[i] {
      SingleHoldsItsCard(cards, out, i, a);
    }
  }

  /** The postings among the matches a card stands for. */
  function PostingsIn(cards: seq<Card>, ids: set<int>): set<Posting> {
    set c | c in cards && c.id in ids :: PostingOf(c)
  }

  lemma EntryCounts(cards: seq<Card>, chains: seq<seq<Card>>, s: Folded)
    requires DistinctIds(cards) && ChainsOfProducts(cards, chains) && s.card in cards && Entry(chains, s)
    ensures s.seenCount == |PostingsIn(cards, s.grouped)|
  {
    if chain: seq<Card> :| EntryFor(chains, chain, s) {
      ChainIsInCards(cards, chain);
      PostingsOfIds(cards, chain);
    } else {
      SinglePosting(cards, s.card);
    }
  }

  lemma SinglePosting(cards: seq<Card>, c: Card)
    requires DistinctIds(cards) && c in cards
    ensures |PostingsIn(cards, {c.id})| == 1
  {
    assert Ids([c]) == {c.id} && Postings([c]) == {PostingOf(c)};
    PostingsOfIds(cards, [c]);
  }

  lemma PostingsOfIds(cards: seq<Card>, some: seq<Card>)
    requires DistinctIds(cards) && forall c :: c in some ==> c in cards
    ensures PostingsIn(cards, Ids(some)) == Postings(some)
  {
    forall c | c in cards && c.id in Ids(some) ensures c in some {
      var d: Card :| d in some && d.id == c.id;
      SameIdSameCard(cards, c, d);
    }
  }

  ghost predicate AllSingle(cards: seq<Card>, out: seq<Folded>) {
    |out| == |cards| && forall i :: 0 <= i < |out| ==> out[i] == Single(cards[i])
  }

  lemma SingleHoldsItsCard(cards: seq<Card>, out: seq<Folded>, i: nat, a: Card)
    requires DistinctIds(cards) && AllSingle(cards, out) && i < |cards| && a in cards
    ensures a.id in out[i].grouped <==> a == cards[i]
  {
    if a.id == cards[i].id {
      SameIdSameCard(cards, a, cards[i]);
    }
  }

  lemma SinglesPartition(cards: seq<Card>, out: seq<Folded>)
    requires DistinctIds(cards) && AllSingle(cards, out)
    ensures Partitions(cards, out)
  {
    forall a | a in cards ensures exists i :: 0 <= i < |out| && a.id in out[i].grouped {
      var i :| 0 <= i < |cards| && cards[i] == a;
      SingleHoldsItsCard(cards, out, i, a);
    }
    forall i, j, a | 0 <= i < j < |out| && a in cards && a.id in out[i].grouped ensures a.id !in out[j].grouped {
      SingleHoldsItsCard(cards, out, i, a);
      SingleHoldsItsCard(cards, out, j, a);
      assert cards[i].id != cards[j].id;
    }
  }

  lemma SinglesAreApart(cards: seq<Card>, out: seq<Folded>, a: Card, b: Card)
    requires DistinctIds(cards) && AllSingle(cards, out) && a in cards && b in cards
    ensures Together(out, a, b) <==> a == b
  {
    if a == b {
      var i :| 0 <= i < |cards| && cards[i] == a;
      SingleHoldsItsCard(cards, out, i, a);
    } else if Together(out, a, b) {
      var i :| 0 <= i < |out| && a.id in out[i].grouped && b.id in out[i].grouped;
      SingleHoldsItsCard(cards, out, i, a);
      SingleHoldsItsCard(cards, out, i, b);
    }
  }

  lemma SinglesCount(cards: seq<Card>, out: seq<Folded>, i: nat)
    requires DistinctIds(cards) && AllSingle(cards, out) && i < |out|
    ensures out[i].seenCount == |PostingsIn(cards, out[i].grouped)|
  {
    forall c | c in cards && c.id in out[i].grouped ensures c == cards[i] {
      SameIdSameCard(cards, c, cards[i]);
    }
    assert PostingsIn(cards, out[i].grouped) == {PostingOf(cards[i])};
  }

  lemma {:induction false} AnswerSingles(cards: seq<Card>)
    ensures |Answer(cards, map[])| == |cards|
    ensures forall i :: 0 <= i < |cards| ==> Answer(cards, map[])[i] == Single(cards[i])
  {
    if cards != [] {
      AnswerSingles(cards[1..]);
    }
  }

  // ---------------------------------------------------------------------------------------------
  // The live key of a card

  /** The bucket of a timestamp; Python's floor division, so also before 1970. */
  function GroupKey(c: Card): Option<(string, int, int)> {
    if c.product.None? || c.price.None? then None
    else Some((c.product.value, c.price.value, c.matchedAt / GROUPING_WINDOW * GROUPING_WINDOW))
  }

  /** On the fields: two cards have one live key exactly when they are of one product at one price, in one
      quarter of an hour of the clock. */
  lemma OneKeyIsOneQuarter(a: Card, b: Card)
    ensures GroupKey(a).Some? && GroupKey(a) == GroupKey(b) <==>
      && a.product.Some? && a.product == b.product && a.price.Some? && a.price == b.price
      && exists k: int :: Quarter(k) <= a.matchedAt < Quarter(k + 1) && Quarter(k) <= b.matchedAt < Quarter(k + 1)
  {
    assert Quarter(a.matchedAt / GROUPING_WINDOW) <= a.matchedAt < Quarter(a.matchedAt / GROUPING_WINDOW + 1);
    if k: int :| Quarter(k) <= a.matchedAt < Quarter(k + 1) && Quarter(k) <= b.matchedAt < Quarter(k + 1) {
      assert a.matchedAt / GROUPING_WINDOW == k == b.matchedAt / GROUPING_WINDOW;
    }
  }

  ghost function Quarter(k: int): int {
    k * (15 * 60 * 1_000_000)
  }

  /** Cards with one live key are always in one chain of the second stage. */
  lemma SameKeyIsOneChain(cards: seq<Card>, a: Card, b: Card)
    requires a in cards && b in cards && GroupKey(a).Some? && GroupKey(a) == GroupKey(b)
    ensures Connected(cards, ByProduct, a, b)
    ensures SameChain(ChainsOf(cards, ByProduct, KeyOf(ByProduct, a)), a, b)
  {
    var path := [a, b];
    assert Close(a, b) by {
      SameBucketIsClose(a.matchedAt, b.matchedAt);
    }
    assert Walk(cards, ByProduct, path) && path[0] == a && Last(path) == b;
    ChainsAreComponents(cards, ByProduct, KeyOf(ByProduct, a), a, b);
  }

  lemma SameBucketIsClose(t: int, u: int)
    requires t / GROUPING_WINDOW * GROUPING_WINDOW == u / GROUPING_WINDOW * GROUPING_WINDOW
    ensures InWindow(t, u)
  {
  }

  /** The key is only a hint: one chain can have cards on both sides of a bucket's edge. */
  lemma OneChainCanHaveTwoKeys()
    ensures exists cards, a, b ::
      a in cards && b in cards && Connected(cards, ByProduct, a, b) && GroupKey(a) != GroupKey(b)
  {
    var a := Card(1, 1, 1, Some(100), GROUPING_WINDOW - 1, None, Some("tv"), false);
    var b := Card(2, 2, 1, Some(100), GROUPING_WINDOW, None, Some("tv"), false);
    var path := [a, b];
    assert Walk(path, ByProduct, path) && path[0] == a && Last(path) == b;
    assert GroupKey(a).value.2 == 0 && GroupKey(b).value.2 == GROUPING_WINDOW;
    assert a in path && b in path;
  }
}
