/** Editing a match by hand, and going back to what was detected.

    Each edit leaves a correction row for every match it changed. A price edit that reaches the target is
    alerted once per recipient, by a row reserved before the call. */
module Corrections {
  import opened Options
  import Prices

  const NAME_MIN := 3
  const NAME_MAX := 120
  const VARIANT_MAX := 120

  datatype PriceSource = Manual | Parsed

  datatype Match = Match(
    product: Option<string>, name: Option<string>, variant: Option<string>, price: Option<int>,
    source: Option<PriceSource>, original: Option<int>)

  datatype Change<T> = Change(before: T, after: T)

  /** One correction row: what it says of each field. */
  datatype Correction = Correction(
    name: Option<Change<Option<string>>>, variant: Option<Change<Option<string>>>, price: Option<Change<Option<int>>>,
    source: Option<Change<Option<PriceSource>>>)

  const NO_CHANGE := Correction(None, None, None, None)

  datatype Store = Store(matches: map<nat, Match>, log: map<nat, seq<Correction>>)

  datatype Edit = Edit(name: Option<string>, variant: Option<string>, price: Option<string>, applyNameToProduct: bool)

  datatype Refusal = NotFound | NameNeeded | BadName | BadVariant | BadPrice(error: Prices.PriceError)

  // ---------------------------------------------------------------------------------------------
  // One edit

  function ValidName(raw: string): Result<string, Refusal> {
    var name := Prices.Strip(raw);
    if NAME_MIN <= |name| <= NAME_MAX then Ok(name) else Err(BadName)
  }

  /** Blank text clears the variant. */
  function ValidVariant(raw: string): Result<Option<string>, Refusal> {
    var variant := Prices.Strip(raw);
    if variant == [] then Ok(None) else if |variant| > VARIANT_MAX then Err(BadVariant) else Ok(Some(variant))
  }

  /** What the sent fields ask for, or the first one refused. */
  datatype Wanted = Wanted(name: Option<string>, variant: Option<Option<string>>, price: Option<int>)

  function Validate(e: Edit): Result<Wanted, Refusal> {
    if e.applyNameToProduct && e.name.None? then Err(NameNeeded)
    else if e.name.Some? && ValidName(e.name.value).Err? then Err(BadName)
    else if e.variant.Some? && ValidVariant(e.variant.value).Err? then Err(BadVariant)
    else if e.price.Some? && Prices.ParsePrice(e.price.value).Err? then Err(BadPrice(Prices.ParsePrice(e.price.value).error))
    else Ok(Wanted(
      if e.name.Some? then Some(ValidName(e.name.value).value) else None,
      if e.variant.Some? then Some(ValidVariant(e.variant.value).value) else None,
      if e.price.Some? then Some(Prices.ParsePrice(e.price.value).value) else None))
  }

  function Changed<T(==)>(before: T, after: T): Option<Change<T>> {
    if before == after then None else Some(Change(before, after))
  }

  function CorrectionTo(m: Match, w: Wanted): Correction {
    Correction(
      if w.name.Some? then Changed(m.name, w.name) else None,
      if w.variant.Some? then Changed(m.variant, w.variant.value) else None,
      if w.price.Some? then Changed(m.price, w.price) else None,
      None)
  }

  function Edited(m: Match, w: Wanted): Match {
    var n := if w.name.Some? then m.(name := w.name) else m;
    var v := if w.variant.Some? then n.(variant := w.variant.value) else n;
    if w.price.Some? && w.price != m.price then
      v.(price := w.price, source := Some(Manual), original := if m.source.None? then m.price else m.original)
    else v
  }

  function Logged(log: map<nat, seq<Correction>>, id: nat, c: Correction): map<nat, seq<Correction>> {
    if c == NO_CHANGE then log else log[id := (if id in log then log[id] else []) + [c]]
  }

  predicate IsSibling(matches: map<nat, Match>, id: nat, other: nat)
    requires id in matches
  {
    other in matches && other != id && matches[id].product.Some? && matches[other].product == matches[id].product
  }

  function RowsOf(s: Store, id: nat): seq<Correction> {
    if id in s.log then s.log[id] else []
  }

  function Siblings(matches: map<nat, Match>, id: nat): set<nat>
    requires id in matches
  {
    set other | other in matches && IsSibling(matches, id, other)
  }

  /** The name alone, on every other match of the product that does not have it yet. */
  function Renamed(s: Store, id: nat, name: string): Store
    requires id in s.matches
  {
    Store(
      map other | other in s.matches ::
        if IsSibling(s.matches, id, other) then s.matches[other].(name := Some(name)) else s.matches[other],
      map other | other in s.log.Keys + s.matches.Keys ::
        if NeedsName(s, id, other, name) then RowsOf(s, other) + [NameRow(s.matches[other], name)] else RowsOf(s, other))
  }

  function NameRow(m: Match, name: string): Correction {
    Correction(Some(Change(m.name, Some(name))), None, None, None)
  }

  predicate NeedsName(s: Store, id: nat, other: nat, name: string)
    requires id in s.matches
  {
    IsSibling(s.matches, id, other) && s.matches[other].name != Some(name)
  }

  function Updated(s: Store, id: nat, e: Edit): Result<Store, Refusal> {
    if id !in s.matches then Err(NotFound)
    else
      match Validate(e)
      case Err(refusal) => Err(refusal)
      case Ok(w) =>
        var m := s.matches[id];
        var s1 := Store(s.matches[id := Edited(m, w)], Logged(s.log, id, CorrectionTo(m, w)));
        Ok(if e.applyNameToProduct && w.name.Some? then Renamed(s1, id, w.name.value) else s1)
  }

  function RevertCorrection(m: Match): Correction {
    Correction(
      Changed(m.name, None), Changed(m.variant, None),
      if m.source == Some(Manual) then Changed(m.price, m.original) else None,
      if m.source == Some(Manual) then Some(Change(Some(Manual), Some(Parsed))) else None)
  }

  function RevertedMatch(m: Match): Match {
    var r := m.(name := None, variant := None);
    if m.source == Some(Manual) then r.(price := m.original, source := Some(Parsed)) else r
  }

  function Reverted(s: Store, id: nat): Result<Store, Refusal> {
    if id !in s.matches then Err(NotFound)
    else
      var m := s.matches[id];
      Ok(Store(s.matches[id := RevertedMatch(m)], Logged(s.log, id, RevertCorrection(m))))
  }

  // ---------------------------------------------------------------------------------------------
  // Runs of edits

  datatype Action = Detect(id: nat, product: Option<string>, price: Option<int>) | Update(id: nat, edit: Edit) | Revert(id: nat)

  function Detected(product: Option<string>, price: Option<int>): Match {
    Match(product, None, None, price, None, None)
  }

  /** A refused call changes nothing: its session is rolled back. */
  function Step(s: Store, a: Action): Store {
    match a
    case Detect(id, product, price) =>
      if id in s.matches then s else Store(s.matches[id := Detected(product, price)], s.log)
    case Update(id, edit) => (match Updated(s, id, edit) case Ok(s') => s' case Err(_) => s)
    case Revert(id) => (match Reverted(s, id) case Ok(s') => s' case Err(_) => s)
  }

  function Run(s: Store, actions: seq<Action>): Store
    decreases |actions|
  {
    if actions == [] then s else Run(Step(s, actions[0]), actions[1..])
  }

  const NEW := Store(map[], map[])

  /** The price the run first detected for a match. */
  function FirstPrice(actions: seq<Action>, id: nat): Option<int>
    decreases |actions|
  {
    if actions == [] then None
    else if actions[0].Detect? && actions[0].id == id then actions[0].price
    else FirstPrice(actions[1..], id)
  }

  /** What the correction rows speak of. */
  datatype Values = Values(name: Option<string>, variant: Option<string>, price: Option<int>)

  function ValuesOf(m: Match): Values {
    Values(m.name, m.variant, m.price)
  }

  /** Each `before` a row names is the value it finds. */
  predicate Fits(v: Values, c: Correction) {
    && (c.name.Some? ==> c.name.value.before == v.name && c.name.value.after != v.name)
    && (c.variant.Some? ==> c.variant.value.before == v.variant && c.variant.value.after != v.variant)
    && (c.price.Some? ==> c.price.value.before == v.price && c.price.value.after != v.price)
    && c != NO_CHANGE
  }

  function Apply(v: Values, c: Correction): Values {
    Values(
      if c.name.Some? then c.name.value.after else v.name,
      if c.variant.Some? then c.variant.value.after else v.variant,
      if c.price.Some? then c.price.value.after else v.price)
  }

  function Replay(v: Values, rows: seq<Correction>): Values {
    if rows == [] then v else Apply(Replay(v, rows[..|rows| - 1]), rows[|rows| - 1])
  }

  predicate AllFit(v: Values, rows: seq<Correction>) {
    rows != [] ==> AllFit(v, rows[..|rows| - 1]) && Fits(Replay(v, rows[..|rows| - 1]), rows[|rows| - 1])
  }

  /** One match: its rows replay to it, and its original price is the first one once it was edited. */
  ghost predicate Accounted(m: Match, rows: seq<Correction>, first: Option<int>) {
    && Replay(Values(None, None, first), rows) == ValuesOf(m) && AllFit(Values(None, None, first), rows)
    && (if m.source.None? then m.original.None? && m.price == first else m.original == first)
    && (m.source == Some(Parsed) ==> m.price == first)
  }

  ghost predicate Consistent(s: Store, firsts: map<nat, Option<int>>) {
    && s.log.Keys <= s.matches.Keys && s.matches.Keys == firsts.Keys
    && forall id :: id in s.matches ==> Accounted(s.matches[id], RowsOf(s, id), firsts[id])
  }

  lemma OneMoreRow(m: Match, rows: seq<Correction>, first: Option<int>, m': Match, c: Correction)
    requires Accounted(m, rows, first) && Fits(ValuesOf(m), c) && Apply(ValuesOf(m), c) == ValuesOf(m')
    requires if m'.source.None? then m'.original.None? && m'.price == first else m'.original == first
    requires m'.source == Some(Parsed) ==> m'.price == first
    ensures Accounted(m', rows + [c], first)
  {
    assert (rows + [c])[..|rows|] == rows;
  }

  lemma EditedIsAccounted(m: Match, rows: seq<Correction>, first: Option<int>, w: Wanted)
    requires Accounted(m, rows, first)
    ensures var c := CorrectionTo(m, w);
            Accounted(Edited(m, w), if c == NO_CHANGE then rows else rows + [c], first)
  {
    var c := CorrectionTo(m, w);
    if c == NO_CHANGE {
      assert Edited(m, w) == m;
    } else {
      OneMoreRow(m, rows, first, Edited(m, w), c);
    }
  }

  lemma RenamedIsAccounted(m: Match, rows: seq<Correction>, first: Option<int>, name: string)
    requires Accounted(m, rows, first) && m.name != Some(name)
    ensures Accounted(m.(name := Some(name)), rows + [NameRow(m, name)], first)
  {
    OneMoreRow(m, rows, first, m.(name := Some(name)), NameRow(m, name));
  }

  lemma RevertedIsAccounted(m: Match, rows: seq<Correction>, first: Option<int>)
    requires Accounted(m, rows, first)
    ensures var c := RevertCorrection(m);
            Accounted(RevertedMatch(m), if c == NO_CHANGE then rows else rows + [c], first)
  {
    var c := RevertCorrection(m);
    if c == NO_CHANGE {
      assert RevertedMatch(m) == m;
    } else {
      OneMoreRow(m, rows, first, RevertedMatch(m), c);
    }
  }

  lemma RenamedStaysConsistent(s: Store, firsts: map<nat, Option<int>>, id: nat, name: string)
    requires Consistent(s, firsts) && id in s.matches
    ensures Consistent(Renamed(s, id, name), firsts)
  {
    var s' := Renamed(s, id, name);
    forall other | other in s'.matches ensures Accounted(s'.matches[other], RowsOf(s', other), firsts[other]) {
      assert Accounted(s.matches[other], RowsOf(s, other), firsts[other]);
      if NeedsName(s, id, other, name) {
        RenamedIsAccounted(s.matches[other], RowsOf(s, other), firsts[other], name);
      }
    }
  }

  /** One match changed, with the row that says so. */
  lemma OneChangeStaysConsistent(s: Store, firsts: map<nat, Option<int>>, id: nat, m: Match, c: Correction)
    requires Consistent(s, firsts) && id in s.matches
    requires Accounted(m, if c == NO_CHANGE then RowsOf(s, id) else RowsOf(s, id) + [c], firsts[id])
    ensures Consistent(Store(s.matches[id := m], Logged(s.log, id, c)), firsts)
  {
    var s' := Store(s.matches[id := m], Logged(s.log, id, c));
    forall other | other in s'.matches ensures Accounted(s'.matches[other], RowsOf(s', other), firsts[other]) {
      assert Accounted(s.matches[other], RowsOf(s, other), firsts[other]);
    }
  }

  lemma UpdateStaysConsistent(s: Store, firsts: map<nat, Option<int>>, id: nat, e: Edit)
    requires Consistent(s, firsts) && Updated(s, id, e).Ok?
    ensures Consistent(Updated(s, id, e).value, firsts)
  {
    var w := Validate(e).value;
    var m := s.matches[id];
    EditedIsAccounted(m, RowsOf(s, id), firsts[id], w);
    OneChangeStaysConsistent(s, firsts, id, Edited(m, w), CorrectionTo(m, w));
    if e.applyNameToProduct && w.name.Some? {
      var s1 := Store(s.matches[id := Edited(m, w)], Logged(s.log, id, CorrectionTo(m, w)));
      RenamedStaysConsistent(s1, firsts, id, w.name.value);
    }
  }

  lemma RevertStaysConsistent(s: Store, firsts: map<nat, Option<int>>, id: nat)
    requires Consistent(s, firsts) && id in s.matches
    ensures Consistent(Reverted(s, id).value, firsts)
  {
    var m := s.matches[id];
    RevertedIsAccounted(m, RowsOf(s, id), firsts[id]);
    OneChangeStaysConsistent(s, firsts, id, RevertedMatch(m), RevertCorrection(m));
  }

  function FirstsAfter(s: Store, firsts: map<nat, Option<int>>, a: Action): map<nat, Option<int>> {
    if a.Detect? && a.id !in s.matches then firsts[a.id := a.price] else firsts
  }

  lemma StepStaysConsistent(s: Store, firsts: map<nat, Option<int>>, a: Action)
    requires Consistent(s, firsts)
    ensures Consistent(Step(s, a), FirstsAfter(s, firsts, a))
  {
    if a.Update? && Updated(s, a.id, a.edit).Ok? {
      UpdateStaysConsistent(s, firsts, a.id, a.edit);
    } else if a.Revert? && a.id in s.matches {
      RevertStaysConsistent(s, firsts, a.id);
    }
  }

  lemma {:induction false} RunStaysConsistent(s: Store, firsts: map<nat, Option<int>>, actions: seq<Action>, id: nat)
    requires Consistent(s, firsts) && id in Run(s, actions).matches
    ensures var first := if id in firsts then firsts[id] else FirstPrice(actions, id);
            Accounted(Run(s, actions).matches[id], RowsOf(Run(s, actions), id), first)
    decreases |actions|
  {
    if actions != [] {
      StepStaysConsistent(s, firsts, actions[0]);
      RunStaysConsistent(Step(s, actions[0]), FirstsAfter(s, firsts, actions[0]), actions[1..], id);
    }
  }

  /** After any edits and reverts, replaying a match's rows from what was first detected gives its current
      name, variant and price, each `before` being the value in force; and once its price was edited, its
      original price is the first detected one for good. */
  lemma EditsReplay(actions: seq<Action>, id: nat)
    requires id in Run(NEW, actions).matches
    ensures var s := Run(NEW, actions);
            var first := FirstPrice(actions, id);
            && Replay(Values(None, None, first), RowsOf(s, id)) == ValuesOf(s.matches[id])
            && AllFit(Values(None, None, first), RowsOf(s, id))
            && (s.matches[id].source.Some? ==> s.matches[id].original == first)
            && (s.matches[id].source != Some(Manual) ==> s.matches[id].price == first)
  {
    RunStaysConsistent(NEW, map[], actions, id);
    var source := Run(NEW, actions).matches[id].source;
    assert source.Some? ==> source.value.Manual? || source.value.Parsed?;
  }

  /** A revert brings back exactly what was first detected, whatever came before it. */
  lemma RevertRestoresTheDetected(actions: seq<Action>, id: nat)
    requires id in Run(NEW, actions).matches
    ensures var s := Run(NEW, actions);
            var r := Reverted(s, id);
            r.Ok? && ValuesOf(r.value.matches[id]) == Values(None, None, FirstPrice(actions, id))
            && (forall other :: other in s.matches && other != id ==>
                  r.value.matches[other] == s.matches[other] && RowsOf(r.value, other) == RowsOf(s, other))
  {
    EditsReplay(actions, id);
    var s := Run(NEW, actions);
    assert RevertedMatch(s.matches[id]).price == FirstPrice(actions, id);
  }

  /** Naming a product renames its other matches and nothing else, with one row for each that changed. */
  lemma RenameReachesTheProduct(s: Store, id: nat, name: string, other: nat)
    requires id in s.matches && other in s.matches
    ensures var s' := Renamed(s, id, name);
            && s'.matches[other] == (if IsSibling(s.matches, id, other) then s.matches[other].(name := Some(name)) else s.matches[other])
            && RowsOf(s', other) == (if s'.matches[other] != s.matches[other]
                 then RowsOf(s, other) + [NameRow(s.matches[other], name)] else RowsOf(s, other))
  {
    var s' := Renamed(s, id, name);
    if NeedsName(s, id, other, name) {
      assert s'.matches[other].name == Some(name) && s'.matches[other] != s.matches[other];
    } else {
      assert s'.matches[other] == s.matches[other];
    }
  }

  /** Half way through the siblings. */
  ghost predicate Between(before: Store, target: Store, done: set<nat>, now: Store) {
    && now.matches.Keys == before.matches.Keys == target.matches.Keys
    && (forall id :: id in before.matches ==> now.matches[id] == (if id in done then target else before).matches[id])
    && (forall id :: RowsOf(now, id) == RowsOf(if id in done then target else before, id))
  }

  lemma OneMoreRenamed(before: Store, target: Store, done: set<nat>, now: Store, id: nat, now': Store)
    requires Between(before, target, done, now) && id in before.matches
    requires now'.matches == now.matches[id := target.matches[id]] && RowsOf(now', id) == RowsOf(target, id)
    requires forall other :: other != id ==> RowsOf(now', other) == RowsOf(now, other)
    ensures Between(before, target, done + {id}, now')
  {
  }

  lemma AllRenamed(before: Store, target: Store, done: set<nat>, now: Store)
    requires Between(before, target, done, now)
    requires forall id :: id !in done ==> RowsOf(target, id) == RowsOf(before, id)
    requires forall id :: id in before.matches && id !in done ==> target.matches[id] == before.matches[id]
    ensures now.matches == target.matches && SameRows(now, target)
  {
  }

  lemma OthersStay(s: Store, id: nat, name: string)
    requires id in s.matches
    ensures var target := Renamed(s, id, name);
            forall other :: !IsSibling(s.matches, id, other) ==>
              RowsOf(target, other) == RowsOf(s, other) && (other in s.matches ==> target.matches[other] == s.matches[other])
  {
    forall other | !IsSibling(s.matches, id, other) ensures RowsOf(Renamed(s, id, name), other) == RowsOf(s, other) {
      OthersKeepTheirRows(s, id, name, other);
    }
  }

  lemma OthersKeepTheirRows(s: Store, id: nat, name: string, other: nat)
    requires id in s.matches && !IsSibling(s.matches, id, other)
    ensures RowsOf(Renamed(s, id, name), other) == RowsOf(s, other)
  {
  }

  lemma AllSiblingsRenamed(before: Store, id: nat, name: string, now: Store)
    requires id in before.matches && Between(before, Renamed(before, id, name), Siblings(before.matches, id), now)
    ensures now.matches == Renamed(before, id, name).matches && SameRows(now, Renamed(before, id, name))
  {
    OthersStay(before, id, name);
    AllRenamed(before, Renamed(before, id, name), Siblings(before.matches, id), now);
  }

  ghost predicate SameRows(s: Store, t: Store) {
    forall id :: RowsOf(s, id) == RowsOf(t, id)
  }

  // ---------------------------------------------------------------------------------------------
  // The two endpoints

  /** An accepted edit never clears a name, but it clears a variant exactly when blank text was sent for it;
      and no edit touches the variant of another match. */
  lemma BlankTextClearsTheVariant(s: Store, id: nat, e: Edit)
    requires Updated(s, id, e).Ok?
    ensures var before, after := s.matches, Updated(s, id, e).value.matches;
            && id in before && id in after
            && (before[id].name.Some? ==> after[id].name.Some?)
            && (before[id].variant.Some? ==>
                  (after[id].variant == None <==> e.variant.Some? && Prices.Strip(e.variant.value) == []))
            && forall other :: other in before && other != id ==> other in after && after[other].variant == before[other].variant
  {
    var w := Validate(e).value;
    var m := s.matches[id];
    var s1 := Store(s.matches[id := Edited(m, w)], Logged(s.log, id, CorrectionTo(m, w)));
    assert Edited(m, w).variant == if w.variant.Some? then w.variant.value else m.variant;
    if e.applyNameToProduct && w.name.Some? {
      assert forall other :: other in s1.matches ==> Renamed(s1, id, w.name.value).matches[other].variant == s1.matches[other].variant;
    }
  }

  /** Every field sent passes its own check. */
  ghost predicate Accepts(matches: map<nat, Match>, id: nat, e: Edit) {
    && id in matches && (e.applyNameToProduct ==> e.name.Some?)
    && (e.name.Some? ==> 3 <= |Prices.Strip(e.name.value)| <= 120)
    && (e.variant.Some? ==> |Prices.Strip(e.variant.value)| <= 120)
    && (e.price.Some? ==> Prices.ParsePrice(e.price.value).Ok?)
  }

  /** What was sent, and nothing else; the first edit of a price keeps the detected one. */
  ghost predicate AsSent(m: Match, m': Match, e: Edit)
    requires e.price.Some? ==> Prices.ParsePrice(e.price.value).Ok?
  {
    && m'.product == m.product
    && m'.name == (if e.name.Some? then Some(Prices.Strip(e.name.value)) else m.name)
    && m'.variant == (if e.variant.None? then m.variant
                      else if Prices.Strip(e.variant.value) == [] then None else Some(Prices.Strip(e.variant.value)))
    && m'.price == (if e.price.Some? then Some(Prices.ParsePrice(e.price.value).value) else m.price)
    && m'.source == (if m'.price != m.price then Some(Manual) else m.source)
    && m'.original == (if m'.price != m.price && m.source.None? then m.price else m.original)
  }

  /** Another match gets the name if the caller asked for it and it is of the same product, and nothing else. */
  ghost predicate OnlyNamed(m: Match, n: Match, n': Match, e: Edit) {
    && n'.product == n.product && n'.variant == n.variant && n'.price == n.price
    && n'.source == n.source && n'.original == n.original
    && n'.name == (if e.applyNameToProduct && e.name.Some? && m.product.Some? && n.product == m.product
                   then Some(Prices.Strip(e.name.value)) else n.name)
  }

  lemma UpdatedAsSent(s: Store, id: nat, e: Edit)
    ensures Updated(s, id, e).Ok? <==> Accepts(s.matches, id, e)
    ensures Updated(s, id, e).Ok? ==>
      var after := Updated(s, id, e).value.matches;
      && after.Keys == s.matches.Keys && AsSent(s.matches[id], after[id], e)
      && forall other :: other in s.matches && other != id ==>
           OnlyNamed(s.matches[id], s.matches[other], after[other], e)
  {
  }

  /** So one blank sent alone is accepted and clears the variant of any match. */
  lemma OneBlankClearsTheVariant(s: Store, id: nat)
    requires id in s.matches
    ensures var e := Edit(None, Some(" "), None, false);
            Updated(s, id, e).Ok? && Updated(s, id, e).value.matches[id].variant == None
  {
    var blank := " ";
    assert Prices.IsSpace(blank[0]) && blank[1..] == [];
    assert Prices.Strip(blank) == Prices.Strip(blank[1..]) == [];
  }

  /** Only the fields sent, and of those only what differs. */
  method EditFields(before: Match, w: Wanted) returns (m: Match, row: Correction)
    ensures m == Edited(before, w) && row == CorrectionTo(before, w)
  {
    m, row := before, NO_CHANGE;
    if w.name.Some? && w.name != m.name {
      row := row.(name := Some(Change(m.name, w.name)));
      m := m.(name := w.name);
    }
    if w.variant.Some? && w.variant.value != m.variant {
      row := row.(variant := Some(Change(m.variant, w.variant.value)));
      m := m.(variant := w.variant.value);
    }
    if w.price.Some? && w.price != m.price {
      if m.source.None? {
        m := m.(original := m.price);
      }
      row := row.(price := Some(Change(m.price, w.price)));
      m := m.(price := w.price, source := Some(Manual));
    }
  }

  class MatchStore {
    var store: Store

    constructor ()
      ensures store == NEW
    {
      store := NEW;
    }

    method RenameOne(id: nat, name: string)
      requires id in store.matches
      modifies this
      ensures store.matches == old(store).matches[id := old(store).matches[id].(name := Some(name))]
      ensures RowsOf(store, id) == (if old(store).matches[id].name == Some(name) then RowsOf(old(store), id)
                                    else RowsOf(old(store), id) + [NameRow(old(store).matches[id], name)])
      ensures forall other :: other != id ==> RowsOf(store, other) == RowsOf(old(store), other)
    {
      var m := store.matches[id];
      if m.name != Some(name) {
        store := Store(store.matches[id := m.(name := Some(name))], Logged(store.log, id, NameRow(m, name)));
      }
    }

    /** Renames the siblings one by one, in whatever order the query returns them. */
    method ApplyName(id: nat, name: string)
      requires id in store.matches
      modifies this
      ensures store.matches == Renamed(old(store), id, name).matches
      ensures SameRows(store, Renamed(old(store), id, name))
    {
      ghost var target := Renamed(store, id, name);
      ghost var before, done := store, {};
      var left := Siblings(store.matches, id);
      while left != {}
        invariant done + left == Siblings(before.matches, id) && Between(before, target, done, store)
        decreases |left|
      {
        var other :| other in left;
        ghost var now := store;
        RenameReachesTheProduct(before, id, name, other);
        RenameOne(other, name);
        OneMoreRenamed(before, target, done, now, other, store);
        left, done := left - {other}, done + {other};
      }
      AllSiblingsRenamed(before, id, name, store);
    }

    method UpdateMatch(id: nat, e: Edit) returns (refusal: Option<Refusal>)
      modifies this
      ensures var r := Updated(old(store), id, e);
              if r.Ok? then
                refusal == None && store.matches == r.value.matches && SameRows(store, r.value)
              else refusal == Some(r.error) && store == old(store)
      ensures refusal == None <==> Accepts(old(store).matches, id, e)
      ensures refusal == None ==>
        && store.matches.Keys == old(store).matches.Keys && AsSent(old(store).matches[id], store.matches[id], e)
        && forall other :: other in store.matches && other != id ==>
             OnlyNamed(old(store).matches[id], old(store).matches[other], store.matches[other], e)
    {
      UpdatedAsSent(store, id, e);
      if id !in store.matches {
        return Some(NotFound);
      }
      var checked := Validate(e);
      if checked.Err? {
        return Some(checked.error);
      }
      var w := checked.value;
      var m, row := EditFields(store.matches[id], w);
      store := Store(store.matches[id := m], Logged(store.log, id, row));
      if e.applyNameToProduct && m.product.Some? {
        ApplyName(id, w.name.value);
      } else if e.applyNameToProduct {
        assert Renamed(store, id, w.name.value).matches == store.matches;
      }
      return None;
    }

    method RevertMatch(id: nat) returns (refusal: Option<Refusal>)
      modifies this
      ensures var r := Reverted(old(store), id);
              if r.Ok? then refusal == None && store == r.value else refusal == Some(r.error) && store == old(store)
    {
      if id !in store.matches {
        return Some(NotFound);
      }
      var m := store.matches[id];
      var row := NO_CHANGE;
      if m.source == Some(Manual) {
        if m.price != m.original {
          row := row.(price := Some(Change(m.price, m.original)));
          m := m.(price := m.original);
        }
        row := row.(source := Some(Change(m.source, Some(Parsed))));
        m := m.(source := Some(Parsed));
      }
      if m.name.Some? {
        row := row.(name := Some(Change(m.name, None)));
        m := m.(name := None);
      }
      if m.variant.Some? {
        row := row.(variant := Some(Change(m.variant, None)));
        m := m.(variant := None);
      }
      store := Store(store.matches[id := m], Logged(store.log, id, row));
      return None;
    }
  }

  // ---------------------------------------------------------------------------------------------
  // Manual target alerts

  type Pair = (nat, int)

  /** Reserved rows, what each request may still send, and the calls started; requests interleave and may
      stop anywhere. */
  datatype Alerts = Alerts(rows: set<Pair>, gone: set<nat>, mine: map<int, set<Pair>>, started: multiset<Pair>)

  datatype AlertAction =
    | Reserve(request: int, id: nat, recipients: set<int>)
    | Send(request: int, pair: Pair)
    | GiveUp(request: int)
    | DeleteMatch(id: nat)

  /** Only the pairs whose insert found no row are this request's to send. */
  function DoReserve(s: Alerts, request: int, id: nat, recipients: set<int>): Alerts {
    if request in s.mine || id in s.gone then s
    else
      var inserted := set r | r in recipients && (id, r) !in s.rows :: (id, r);
      s.(rows := s.rows + inserted, mine := s.mine[request := inserted])
  }

  function DoSend(s: Alerts, request: int, pair: Pair): Alerts {
    if request !in s.mine || pair !in s.mine[request] then s
    else s.(mine := s.mine[request := s.mine[request] - {pair}], started := s.started + multiset{pair})
  }

  function AlertStep(s: Alerts, a: AlertAction): Alerts {
    match a
    case Reserve(request, id, recipients) => DoReserve(s, request, id, recipients)
    case Send(request, pair) => DoSend(s, request, pair)
    case GiveUp(request) => if request in s.mine then s.(mine := s.mine[request := {}]) else s
    case DeleteMatch(id) => s.(rows := (set pair | pair in s.rows && pair.0 != id), gone := s.gone + {id})
  }

  function AlertRun(s: Alerts, actions: seq<AlertAction>): Alerts
    decreases |actions|
  {
    if actions == [] then s else AlertRun(AlertStep(s, actions[0]), actions[1..])
  }

  const NO_ALERTS := Alerts({}, {}, map[], multiset{})

  ghost predicate AlertsOk(s: Alerts) {
    && (forall r, pair :: r in s.mine && pair in s.mine[r] ==> (pair in s.rows || pair.0 in s.gone) && pair !in s.started)
    && (forall q, r, pair :: q in s.mine && r in s.mine && pair in s.mine[q] && pair in s.mine[r] ==> q == r)
    && (forall pair: Pair :: pair in s.started ==> s.started[pair] == 1 && (pair in s.rows || pair.0 in s.gone))
  }

  lemma ReserveKeepsAlerts(s: Alerts, request: int, id: nat, recipients: set<int>)
    requires AlertsOk(s)
    ensures AlertsOk(DoReserve(s, request, id, recipients))
  {
  }

  lemma SendKeepsAlerts(s: Alerts, request: int, pair: Pair)
    requires AlertsOk(s)
    ensures AlertsOk(DoSend(s, request, pair))
  {
  }

  lemma AlertStepKeepsAlerts(s: Alerts, a: AlertAction)
    requires AlertsOk(s)
    ensures AlertsOk(AlertStep(s, a))
  {
    if a.Reserve? {
      ReserveKeepsAlerts(s, a.request, a.id, a.recipients);
    } else if a.Send? {
      SendKeepsAlerts(s, a.request, a.pair);
    }
  }

  lemma {:induction false} AlertRunKeepsAlerts(s: Alerts, actions: seq<AlertAction>)
    requires AlertsOk(s)
    ensures AlertsOk(AlertRun(s, actions))
    decreases |actions|
  {
    if actions != [] {
      AlertStepKeepsAlerts(s, actions[0]);
      AlertRunKeepsAlerts(AlertStep(s, actions[0]), actions[1..]);
    }
  }

  /** However price edits interleave, stop, or race with deletions, a recipient is called at most once for
      a match's manual target. */
  lemma ManualTargetIsAlertedOnce(actions: seq<AlertAction>, pair: Pair)
    ensures AlertRun(NO_ALERTS, actions).started[pair] <= 1
  {
    AlertRunKeepsAlerts(NO_ALERTS, actions);
  }
}
