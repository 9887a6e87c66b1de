/** Turning matches another process writes into live events.

    Each poll sees one snapshot of the database. The pending map is assumed to stay under its cap; past it
    the loop that should shrink it reassigns a key it already holds and never ends. */
module Watcher {
  import opened Options

  const MAX_PENDING := 500
  const MAX_TRACKED := 500
  const BATCH_LIMIT := 200

  datatype Delivery = Delivery(id: int, historical: bool, status: string, deliveredAt: Option<int>)

  /** What a card shows of its deliveries. Ids are unique, so the sorted tuple is the set. */
  type Signature = set<(int, string, Option<int>)>

  function SignatureOf(rows: set<Delivery>): Signature {
    set d | d in rows :: (d.id, d.status, d.deliveredAt)
  }

  predicate HistoricalOnly(rows: set<Delivery>) {
    rows != {} && forall d :: d in rows ==> d.historical
  }

  /** A snapshot: the matches there are, which of them still make an event, and their deliveries. */
  datatype Snapshot = Snapshot(matches: set<int>, showable: set<int>, deliveries: map<int, set<Delivery>>)

  function RowsFor(s: Snapshot, id: int): set<Delivery> {
    if id in s.deliveries then s.deliveries[id] else {}
  }

  datatype Held = Held(id: int, since: int)

  datatype Tracked = Tracked(id: int, signature: Signature)

  datatype Event = Event(id: int, signature: Signature)

  // ---------------------------------------------------------------------------------------------
  // Steps

  /** `entered` and `left` count how often each match was taken in and let go; `events` is what went out. */
  datatype Watch = Watch(
    lastSeen: int, pending: seq<Held>, published: seq<Tracked>, entered: multiset<int>, left: multiset<int>,
    events: seq<Event>)

  datatype Action =
    | TakeIn(ids: seq<int>, now: int)
    | LetGo(id: int, rows: set<Delivery>, shown: bool)
    | Refresh(id: int, rows: set<Delivery>, shown: bool)

  ghost predicate Ascending(ids: seq<int>) {
    forall i, j :: 0 <= i < j < |ids| ==> ids[i] < ids[j]
  }

  function HeldSince(ids: seq<int>, now: int): seq<Held> {
    if ids == [] then [] else [Held(ids[0], now)] + HeldSince(ids[1..], now)
  }

  function IdsOf(held: seq<Held>): set<int> {
    set h | h in held :: h.id
  }

  function WithoutHeld(held: seq<Held>, id: int): seq<Held> {
    if held == [] then [] else (if held[0].id == id then [] else [held[0]]) + WithoutHeld(held[1..], id)
  }

  function WithoutTracked(tracked: seq<Tracked>, id: int): seq<Tracked> {
    if tracked == [] then []
    else (if tracked[0].id == id then [] else [tracked[0]]) + WithoutTracked(tracked[1..], id)
  }

  /** To the end of the list; the oldest fall out over the cap. */
  function Remember(tracked: seq<Tracked>, id: int, signature: Signature): seq<Tracked> {
    var all := WithoutTracked(tracked, id) + [Tracked(id, signature)];
    if |all| > MAX_TRACKED then all[|all| - MAX_TRACKED..] else all
  }

  ghost function DoTakeIn(w: Watch, ids: seq<int>, now: int): Watch {
    if !Ascending(ids) || (ids != [] && ids[0] <= w.lastSeen) then w
    else w.(lastSeen := if ids == [] then w.lastSeen else ids[|ids| - 1], pending := w.pending + HeldSince(ids, now),
            entered := w.entered + multiset(ids))
  }

  function DoLetGo(w: Watch, id: int, rows: set<Delivery>, shown: bool): Watch {
    if id !in IdsOf(w.pending) then w
    else
      var w1 := w.(pending := WithoutHeld(w.pending, id), left := w.left + multiset{id});
      if HistoricalOnly(rows) || !shown then w1
      else w1.(published := Remember(w.published, id, SignatureOf(rows)), events := w.events + [Event(id, SignatureOf(rows))])
  }

  function DoRefresh(w: Watch, id: int, rows: set<Delivery>, shown: bool): Watch {
    if !(exists t :: t in w.published && t.id == id && t.signature != SignatureOf(rows)) || HistoricalOnly(rows) || !shown then w
    else w.(published := Remember(w.published, id, SignatureOf(rows)), events := w.events + [Event(id, SignatureOf(rows))])
  }

  ghost function Step(w: Watch, a: Action): Watch {
    match a
    case TakeIn(ids, now) => DoTakeIn(w, ids, now)
    case LetGo(id, rows, shown) => DoLetGo(w, id, rows, shown)
    case Refresh(id, rows, shown) => DoRefresh(w, id, rows, shown)
  }

  ghost function Run(w: Watch, actions: seq<Action>): Watch
    decreases |actions|
  {
    if actions == [] then w else Run(Step(w, actions[0]), actions[1..])
  }

  function Boot(maxId: int): Watch {
    Watch(maxId, [], [], multiset{}, multiset{}, [])
  }

  // ---------------------------------------------------------------------------------------------
  // Once in, once out, and never the same event twice in a row

  /** What the match's latest event showed, if it had one. */
  function Latest(events: seq<Event>, id: int): Option<Signature> {
    if events == [] then None
    else if events[|events| - 1].id == id then Some(events[|events| - 1].signature)
    else Latest(events[..|events| - 1], id)
  }

  /** Each event shows something else than the match's event before it. */
  predicate AllNews(events: seq<Event>) {
    events != [] ==>
      var init, e := events[..|events| - 1], events[|events| - 1];
      AllNews(init) && Latest(init, e.id) != Some(e.signature)
  }

  lemma OneMoreEvent(events: seq<Event>, e: Event)
    ensures AllNews(events + [e]) <==> AllNews(events) && Latest(events, e.id) != Some(e.signature)
    ensures forall id :: Latest(events + [e], id) == if id == e.id then Some(e.signature) else Latest(events, id)
  {
    assert (events + [e])[..|events|] == events;
  }

  ghost predicate DistinctHeld(pending: seq<Held>) {
    forall i, j :: 0 <= i < j < |pending| ==> pending[i].id != pending[j].id
  }

  ghost predicate PendingOk(pending: seq<Held>, lastSeen: int, events: seq<Event>) {
    DistinctHeld(pending) && forall h :: h in pending ==> h.id <= lastSeen && Latest(events, h.id) == None
  }

  /** Taken in at most once, let go exactly when no longer held. */
  ghost predicate CountsOk(held: set<int>, lastSeen: int, entered: multiset<int>, left: multiset<int>) {
    forall id: int ::
      && entered[id] <= 1 && left[id] == (if id in held then 0 else entered[id])
      && (id in entered ==> id <= lastSeen) && (id in held ==> id in entered)
  }

  ghost predicate PublishedOk(published: seq<Tracked>, held: set<int>, lastSeen: int, events: seq<Event>) {
    forall t :: t in published ==> t.id !in held && t.id <= lastSeen && Latest(events, t.id) == Some(t.signature)
  }

  /** One entry a match, and no more than the cap. */
  ghost predicate TrackedOk(tracked: seq<Tracked>) {
    |tracked| <= 500 && forall i, j :: 0 <= i < j < |tracked| ==> tracked[i].id != tracked[j].id
  }

  ghost predicate EventsOk(events: seq<Event>, lastSeen: int) {
    AllNews(events) && forall id :: Latest(events, id).Some? ==> id <= lastSeen
  }

  ghost predicate Invariant(w: Watch) {
    && PendingOk(w.pending, w.lastSeen, w.events)
    && CountsOk(IdsOf(w.pending), w.lastSeen, w.entered, w.left)
    && PublishedOk(w.published, IdsOf(w.pending), w.lastSeen, w.events)
    && EventsOk(w.events, w.lastSeen)
    && TrackedOk(w.published)
  }

  lemma {:induction false} HeldSinceShape(ids: seq<int>, now: int)
    ensures |HeldSince(ids, now)| == |ids| && forall i :: 0 <= i < |ids| ==> HeldSince(ids, now)[i] == Held(ids[i], now)
    ensures IdsOf(HeldSince(ids, now)) == set id | id in ids
  {
    if ids != [] {
      HeldSinceShape(ids[1..], now);
      assert forall h :: h in HeldSince(ids, now) <==> h == Held(ids[0], now) || h in HeldSince(ids[1..], now);
      assert (set id | id in ids) == (set id | id in ids[1..]) + {ids[0]};
      assert IdsOf(HeldSince(ids, now)) == IdsOf(HeldSince(ids[1..], now)) + {ids[0]};
    }
  }

  lemma {:induction false} WithoutHeldHas(held: seq<Held>, id: int)
    ensures forall h :: h in WithoutHeld(held, id) <==> h in held && h.id != id
    ensures IdsOf(WithoutHeld(held, id)) == IdsOf(held) - {id}
  {
    if held != [] {
      WithoutHeldHas(held[1..], id);
      assert forall h :: h in held <==> h == held[0] || h in held[1..];
    }
  }

  lemma {:induction false} WithoutHeldStaysDistinct(held: seq<Held>, id: int)
    requires DistinctHeld(held)
    ensures DistinctHeld(WithoutHeld(held, id))
  {
    if held != [] {
      WithoutHeldStaysDistinct(held[1..], id);
      WithoutHeldHas(held[1..], id);
      var r := WithoutHeld(held[1..], id);
      assert forall i :: 0 <= i < |r| ==> r[i] in r;
      assert forall i :: 0 <= i < |held[1..]| ==> held[1..][i].id != held[0].id;
    }
  }

  lemma {:induction false} WithoutTrackedHas(tracked: seq<Tracked>, id: int, t: Tracked)
    ensures t in WithoutTracked(tracked, id) <==> t in tracked && t.id != id
  {
    if tracked != [] {
      WithoutTrackedHas(tracked[1..], id, t);
      assert t in tracked <==> t == tracked[0] || t in tracked[1..];
    }
  }

  lemma RememberHas(tracked: seq<Tracked>, id: int, signature: Signature, t: Tracked)
    requires t in Remember(tracked, id, signature)
    ensures t == Tracked(id, signature) || (t in tracked && t.id != id)
  {
    WithoutTrackedHas(tracked, id, t);
  }

  lemma {:induction false} WithoutTrackedStaysDistinct(tracked: seq<Tracked>, id: int)
    requires forall i, j :: 0 <= i < j < |tracked| ==> tracked[i].id != tracked[j].id
    ensures var r := WithoutTracked(tracked, id);
            && (forall i, j :: 0 <= i < j < |r| ==> r[i].id != r[j].id)
            && |r| <= |tracked| && ((exists t :: t in tracked && t.id == id) ==> |r| < |tracked|)
  {
    if tracked != [] {
      WithoutTrackedStaysDistinct(tracked[1..], id);
      var r := WithoutTracked(tracked[1..], id);
      forall i | 0 <= i < |r| ensures r[i] in tracked[1..] {
        WithoutTrackedHas(tracked[1..], id, r[i]);
      }
      assert forall i :: 0 <= i < |tracked[1..]| ==> tracked[1..][i].id != tracked[0].id;
      if t :| t in tracked && t.id == id {
        assert t == tracked[0] || t in tracked[1..];
      }
    }
  }

  lemma RememberKeepsTracked(tracked: seq<Tracked>, id: int, signature: Signature)
    requires TrackedOk(tracked)
    ensures TrackedOk(Remember(tracked, id, signature))
    ensures (exists t :: t in tracked && t.id == id) ==>
      forall t :: t in Remember(tracked, id, signature) <==> t == Tracked(id, signature) || (t in tracked && t.id != id)
  {
    WithoutTrackedStaysDistinct(tracked, id);
    var rest := WithoutTracked(tracked, id);
    forall t ensures t in rest <==> t in tracked && t.id != id {
      WithoutTrackedHas(tracked, id, t);
    }
    var all := rest + [Tracked(id, signature)];
    forall i, j | 0 <= i < j < |all| ensures all[i].id != all[j].id {
      assert i < |rest| && rest[i] in rest;
    }
  }

  lemma RememberedOk(published: seq<Tracked>, held: set<int>, lastSeen: int, events: seq<Event>, id: int, signature: Signature)
    requires PublishedOk(published, held, lastSeen, events) && id !in held && id <= lastSeen
    ensures PublishedOk(Remember(published, id, signature), held, lastSeen, events + [Event(id, signature)])
  {
    OneMoreEvent(events, Event(id, signature));
    forall t | t in Remember(published, id, signature)
      ensures t.id !in held && t.id <= lastSeen && Latest(events + [Event(id, signature)], t.id) == Some(t.signature)
    {
      RememberHas(published, id, signature, t);
    }
  }

  lemma JoinedHeld(pending: seq<Held>, more: seq<Held>)
    requires DistinctHeld(pending) && DistinctHeld(more) && IdsOf(pending) !! IdsOf(more)
    ensures DistinctHeld(pending + more) && IdsOf(pending + more) == IdsOf(pending) + IdsOf(more)
  {
    var all := pending + more;
    forall i, j | 0 <= i < j < |all| ensures all[i].id != all[j].id {
      assert i < |pending| ==> pending[i].id in IdsOf(pending);
      assert j >= |pending| ==> more[j - |pending|].id in IdsOf(more);
    }
  }

  lemma {:induction false} AscendingOnce(ids: seq<int>)
    requires Ascending(ids)
    ensures forall id :: multiset(ids)[id] == if id in ids then 1 else 0
  {
    if ids != [] {
      var init := ids[..|ids| - 1];
      AscendingOnce(init);
      assert ids == init + [ids[|ids| - 1]];
    }
  }

  lemma TakeInKeepsCounts(held: set<int>, lastSeen: int, entered: multiset<int>, left: multiset<int>, ids: seq<int>)
    requires CountsOk(held, lastSeen, entered, left) && Ascending(ids) && ids != [] && lastSeen < ids[0]
    ensures CountsOk(held + (set id | id in ids), ids[|ids| - 1], entered + multiset(ids), left)
  {
    AscendingOnce(ids);
    assert forall id :: id in ids ==> lastSeen < id <= ids[|ids| - 1];
  }

  lemma TakeInKeepsInvariant(w: Watch, ids: seq<int>, now: int)
    requires Invariant(w) && Ascending(ids) && ids != [] && w.lastSeen < ids[0]
    ensures Invariant(DoTakeIn(w, ids, now))
  {
    var more := HeldSince(ids, now);
    HeldSinceShape(ids, now);
    assert forall id :: id in ids ==> w.lastSeen < id <= ids[|ids| - 1];
    JoinedHeld(w.pending, more);
    TakeInKeepsCounts(IdsOf(w.pending), w.lastSeen, w.entered, w.left, ids);
    forall h | h in w.pending + more ensures h.id <= ids[|ids| - 1] && Latest(w.events, h.id) == None {
      if h in more {
        assert h.id in IdsOf(more);
      }
    }
  }

  lemma LetGoKeepsInvariant(w: Watch, id: int, rows: set<Delivery>, shown: bool)
    requires Invariant(w) && id in IdsOf(w.pending)
    ensures Invariant(DoLetGo(w, id, rows, shown))
  {
    var pending := WithoutHeld(w.pending, id);
    WithoutHeldHas(w.pending, id);
    WithoutHeldStaysDistinct(w.pending, id);
    var h :| h in w.pending && h.id == id;
    assert CountsOk(IdsOf(pending), w.lastSeen, w.entered, w.left + multiset{id});
    if !HistoricalOnly(rows) && shown {
      RememberedOk(w.published, IdsOf(pending), w.lastSeen, w.events, id, SignatureOf(rows));
      RememberKeepsTracked(w.published, id, SignatureOf(rows));
      OneMoreEvent(w.events, Event(id, SignatureOf(rows)));
    }
  }

  lemma RefreshKeepsInvariant(w: Watch, id: int, rows: set<Delivery>, shown: bool)
    requires Invariant(w)
    ensures Invariant(DoRefresh(w, id, rows, shown))
  {
    var signature := SignatureOf(rows);
    if t :| t in w.published && t.id == id && t.signature != signature {
      RememberedOk(w.published, IdsOf(w.pending), w.lastSeen, w.events, id, signature);
      RememberKeepsTracked(w.published, id, signature);
      OneMoreEvent(w.events, Event(id, signature));
      forall h | h in w.pending ensures Latest(w.events + [Event(id, signature)], h.id) == None {
        assert h.id in IdsOf(w.pending);
      }
    }
  }

  lemma {:induction false} RunKeepsInvariant(w: Watch, actions: seq<Action>)
    requires Invariant(w)
    ensures Invariant(Run(w, actions))
    decreases |actions|
  {
    if actions != [] {
      var a := actions[0];
      if a.TakeIn? {
        if Ascending(a.ids) && a.ids != [] && w.lastSeen < a.ids[0] {
          TakeInKeepsInvariant(w, a.ids, a.now);
        } else {
          assert HeldSince([], a.now) == [];
        }
      } else if a.LetGo? {
        if a.id in IdsOf(w.pending) {
          LetGoKeepsInvariant(w, a.id, a.rows, a.shown);
        }
      } else {
        RefreshKeepsInvariant(w, a.id, a.rows, a.shown);
      }
      RunKeepsInvariant(Step(w, a), actions[1..]);
    }
  }

  lemma BootIsOk(maxId: int)
    ensures Invariant(Boot(maxId))
  {
  }

  /** Over any run of polls each match is taken in at most once and let go at most once, and it is let go
      exactly when it was taken in and is held no more. */
  lemma EachMatchPassesOnce(maxId: int, actions: seq<Action>, id: int)
    ensures var w := Run(Boot(maxId), actions);
            && w.entered[id] <= 1 && w.left[id] == (if id in IdsOf(w.pending) then 0 else w.entered[id])
            && (id in w.entered ==> id <= w.lastSeen)
  {
    BootIsOk(maxId);
    RunKeepsInvariant(Boot(maxId), actions);
  }

  lemma {:induction false} LatestIs(events: seq<Event>, i: nat, id: int)
    requires i < |events| && events[i].id == id && forall k :: i < k < |events| ==> events[k].id != id
    ensures Latest(events, id) == Some(events[i].signature)
    decreases |events|
  {
    if i < |events| - 1 {
      LatestIs(events[..|events| - 1], i, id);
    }
  }

  lemma {:induction false} NewsUpTo(events: seq<Event>, j: nat)
    requires AllNews(events) && j < |events|
    ensures AllNews(events[..j + 1])
    decreases |events|
  {
    if j < |events| - 1 {
      NewsUpTo(events[..|events| - 1], j);
      assert events[..|events| - 1][..j + 1] == events[..j + 1];
    } else {
      assert events[..j + 1] == events;
    }
  }

  /** Two events of one match with none of it in between never show the same deliveries. */
  lemma NoEventRepeats(maxId: int, actions: seq<Action>, i: nat, j: nat)
    requires var events := Run(Boot(maxId), actions).events;
             i < j < |events| && events[i].id == events[j].id && forall k :: i < k < j ==> events[k].id != events[i].id
    ensures var events := Run(Boot(maxId), actions).events; events[i].signature != events[j].signature
  {
    BootIsOk(maxId);
    RunKeepsInvariant(Boot(maxId), actions);
    var events := Run(Boot(maxId), actions).events;
    NewsUpTo(events, j);
    assert events[..j + 1][..j] == events[..j];
    LatestIs(events[..j], i, events[i].id);
  }

  // ---------------------------------------------------------------------------------------------
  // One poll

  /** The new ids a poll reads: the lowest ones above the last seen, at most a batch. */
  ghost predicate IsBatch(ids: seq<int>, matches: set<int>, lastSeen: int) {
    && Ascending(ids) && |ids| <= BATCH_LIMIT
    && (forall id :: id in ids ==> id in matches && id > lastSeen)
    && (forall id, m :: id in ids && m in matches && lastSeen < m <= id ==> m in ids)
    && (|ids| < BATCH_LIMIT ==> forall m :: m in matches && m > lastSeen ==> m in ids)
  }

  lemma {:induction false} RunAppend(w: Watch, actions: seq<Action>, a: Action)
    ensures Run(w, actions + [a]) == Step(Run(w, actions), a)
    decreases |actions|
  {
    if actions == [] {
      assert ([] + [a])[1..] == [];
      assert Run(Step(w, a), []) == Step(w, a);
    } else {
      assert (actions + [a])[1..] == actions[1..] + [a];
      RunAppend(Step(w, actions[0]), actions[1..], a);
    }
  }

  class MatchWatcher {
    const grace: int
    ghost var w: Watch
    ghost var actions: seq<Action>
    var lastSeen: int
    var pending: seq<Held>
    var published: seq<Tracked>

    ghost predicate Valid()
      reads this
    {
      && w.lastSeen == lastSeen && w.pending == pending && w.published == published
      && exists maxId :: w == Run(Boot(maxId), actions)
    }

    /** The first poll only reads where the feed starts. */
    constructor (grace: int, maxId: int)
      ensures Valid() && this.grace == grace && lastSeen == maxId && pending == [] && published == [] && w.events == []
    {
      this.grace := grace;
      lastSeen, pending, published := maxId, [], [];
      w, actions := Boot(maxId), [];
      new;
      assert Run(Boot(maxId), []) == Boot(maxId);
    }

    ghost method Took(a: Action, next: Watch)
      requires next == Step(w, a) && exists maxId :: w == Run(Boot(maxId), actions)
      modifies this`w, this`actions
      ensures w == next && exists maxId :: w == Run(Boot(maxId), actions)
    {
      var maxId :| w == Run(Boot(maxId), actions);
      RunAppend(Boot(maxId), actions, a);
      w, actions := next, actions + [a];
    }

    /** One held match leaves, shown if it is news that can be shown. */
    method LetOneGo(id: int, rows: set<Delivery>, shown: bool)
      requires Valid() && id in IdsOf(pending)
      modifies this
      ensures Valid() && lastSeen == old(lastSeen)
      ensures forall h :: h in pending <==> h in old(pending) && h.id != id
      ensures w.entered == old(w).entered
      ensures w.events ==
        if !HistoricalOnly(rows) && shown then old(w).events + [Event(id, SignatureOf(rows))] else old(w).events
    {
      WithoutHeldHas(pending, id);
      ghost var next := DoLetGo(w, id, rows, shown);
      pending := WithoutHeld(pending, id);
      if !HistoricalOnly(rows) && shown {
        published := Remember(published, id, SignatureOf(rows));
      }
      Took(LetGo(id, rows, shown), next);
    }

    /** The matches that were held: each leaves unless it still has no delivery and its grace runs on. */
    method Settle(s: Snapshot, now: int)
      requires Valid()
      modifies this
      ensures Valid() && lastSeen == old(lastSeen) && w.entered == old(w).entered
      ensures forall h :: h in pending <==> h in old(pending) && Waits(s, now, grace, h)
      ensures Adds(s, old(w).events, w.events)
      ensures forall h :: h in old(pending) && !Waits(s, now, grace, h) && Showable(s, h.id) ==>
        Shows(s, old(w).events, w.events, h.id)
    {
      var todo := pending;
      var i := 0;
      ghost var before := pending;
      BatchInvariant();
      while i < |todo|
        invariant 0 <= i <= |todo| && Valid() && lastSeen == old(lastSeen) && w.entered == old(w).entered
        invariant Adds(s, old(w).events, w.events)
        invariant todo == before && DistinctHeld(before)
        invariant forall h :: h in pending <==> h in before && (h in todo[i..] || Waits(s, now, grace, h))
        invariant forall h :: h in todo[..i] && !Waits(s, now, grace, h) && Showable(s, h.id) ==>
          Shows(s, old(w).events, w.events, h.id)
        decreases |todo| - i
      {
        var h := todo[i];
        var rows := RowsFor(s, h.id);
        assert todo[i..][0] == h && todo[i..][1..] == todo[i + 1..];
        assert h in todo[i..];
        DistinctFromHere(todo, i);
        if HistoricalOnly(rows) || rows != {} || now - h.since >= grace {
          assert h.id in IdsOf(pending);
          AddedEvent(s, old(w).events, w.events, Event(h.id, SignatureOf(rows)));
          LetOneGo(h.id, rows, h.id in s.showable);
        }
        assert todo[..i + 1] == todo[..i] + [h];
        i := i + 1;
      }
      assert todo[..i] == todo;
    }

    ghost method BatchInvariant()
      requires Valid()
      ensures DistinctHeld(pending) && TrackedOk(published)
    {
      var maxId :| w == Run(Boot(maxId), actions);
      BootIsOk(maxId);
      RunKeepsInvariant(Boot(maxId), actions);
    }

    method ShowAgain(t: Tracked, rows: set<Delivery>)
      requires Valid() && TrackedOk(published) && t in published && t.signature != SignatureOf(rows) && !HistoricalOnly(rows)
      modifies this
      ensures Valid() && lastSeen == old(lastSeen) && pending == old(pending) && TrackedOk(published)
      ensures w.entered == old(w).entered && w.events == old(w).events + [Event(t.id, SignatureOf(rows))]
      ensures forall u :: u in published <==> u == Tracked(t.id, SignatureOf(rows)) || (u in old(published) && u.id != t.id)
    {
      RememberKeepsTracked(published, t.id, SignatureOf(rows));
      ghost var next := DoRefresh(w, t.id, rows, true);
      published := Remember(published, t.id, SignatureOf(rows));
      Took(Refresh(t.id, rows, true), next);
    }

    /** The matches already shown: whatever changed since is shown again. */
    method RefreshPublished(s: Snapshot)
      requires Valid()
      modifies this
      ensures Valid() && lastSeen == old(lastSeen) && pending == old(pending) && w.entered == old(w).entered
      ensures forall t :: t in published ==> UpToDate(s, t)
      ensures Adds(s, old(w).events, w.events)
    {
      BatchInvariant();
      var todo := published;
      var i := 0;
      while i < |todo|
        invariant 0 <= i <= |todo| && Valid() && lastSeen == old(lastSeen) && pending == old(pending)
        invariant w.entered == old(w).entered
        invariant TrackedOk(todo) && TrackedOk(published) && Adds(s, old(w).events, w.events)
        invariant forall t :: t in todo[i..] ==> t in published
        invariant forall t :: t in published ==> t in todo[i..] || UpToDate(s, t)
        decreases |todo| - i
      {
        var t := todo[i];
        var rows := RowsFor(s, t.id);
        TrackedFromHere(todo, i);
        if t.id in s.showable && t.signature != SignatureOf(rows) && !HistoricalOnly(rows) {
          AddedEvent(s, old(w).events, w.events, Event(t.id, SignatureOf(rows)));
          ShowAgain(t, rows);
        }
        i := i + 1;
      }
    }

    /** The new matches are held from now on. */
    method HoldNew(newIds: seq<int>, now: int)
      requires Valid() && Ascending(newIds) && (newIds != [] ==> lastSeen < newIds[0])
      modifies this
      ensures Valid() && lastSeen == if newIds == [] then old(lastSeen) else newIds[|newIds| - 1]
      ensures w.events == old(w).events && w.entered == old(w).entered + multiset(newIds)
      ensures forall h :: h in pending <==> h in old(pending) || (h.id in newIds && h.since == now)
    {
      HeldSinceShape(newIds, now);
      var more := HeldSince(newIds, now);
      forall h ensures h in more <==> h.id in newIds && h.since == now {
        if h.id in newIds && h.since == now {
          var i :| 0 <= i < |newIds| && newIds[i] == h.id;
          assert more[i] == h;
        }
      }
      if newIds != [] {
        ghost var next := DoTakeIn(w, newIds, now);
        lastSeen := newIds[|newIds| - 1];
        pending := pending + more;
        Took(TakeIn(newIds, now), next);
      }
    }

    /** One poll over a snapshot. A match without deliveries leaves at the first poll past its grace; what
        stays tracked shows what the snapshot says. */
    method PollSync(s: Snapshot, newIds: seq<int>, now: int)
      requires Valid() && IsBatch(newIds, s.matches, lastSeen) && grace > 0
      modifies this
      ensures Valid() && lastSeen == if newIds == [] then old(lastSeen) else newIds[|newIds| - 1]
      ensures w.entered == old(w).entered + multiset(newIds)
      ensures forall h :: h in pending ==> Waits(s, now, grace, h) && (h in old(pending) || (h.since == now && h.id in newIds))
      ensures forall h :: h in old(pending) && Waits(s, now, grace, h) ==> h in pending
      ensures forall id :: id in newIds && RowsFor(s, id) == {} ==> Held(id, now) in pending
      ensures forall t :: t in published ==> UpToDate(s, t)
      ensures Adds(s, old(w).events, w.events)
      ensures forall id :: id in newIds && RowsFor(s, id) != {} && Showable(s, id) ==> Shows(s, old(w).events, w.events, id)
      ensures forall h :: h in old(pending) && !Waits(s, now, grace, h) && Showable(s, h.id) ==>
        Shows(s, old(w).events, w.events, h.id)
    {
      assert newIds != [] ==> newIds[0] in newIds;
      HoldNew(newIds, now);
      assert forall id :: id in newIds ==> Held(id, now) in pending;
      Settle(s, now);
      RefreshPublished(s);
    }

    ghost method CountsInvariant()
      requires Valid()
      ensures CountsOk(IdsOf(pending), lastSeen, w.entered, w.left) && DistinctHeld(pending)
    {
      var maxId :| w == Run(Boot(maxId), actions);
      BootIsOk(maxId);
      RunKeepsInvariant(Boot(maxId), actions);
    }

    method PollNext(polls: seq<Poll>, i: nat)
      requires Valid() && grace > 0 && i < |polls| && AllPassing(polls, i, w, pending)
      requires IsBatch(polls[i].ids, polls[i].snapshot.matches, lastSeen)
      modifies this
      ensures Valid() && lastSeen == if polls[i].ids == [] then old(lastSeen) else polls[i].ids[|polls[i].ids| - 1]
      ensures AllPassing(polls, i + 1, w, pending) && WithinGrace(polls, i + 1, pending, grace)
    {
      CountsInvariant();
      PollSync(polls[i].snapshot, polls[i].ids, polls[i].now);
      StayPassing(polls, i, old(w), old(pending), w, pending, old(lastSeen));
    }

    /** Poll after poll, each reading on from the one before. Every match a poll reads enters, once; and once a
        poll comes a grace period later it has left, once. */
    method PollAll(polls: seq<Poll>)
      requires Valid() && grace > 0 && ReadOn(polls, lastSeen)
      modifies this
      ensures Valid() && lastSeen == SeenAfter(polls, old(lastSeen), |polls|)
      ensures forall k, id :: 0 <= k < |polls| && id in polls[k].ids ==> w.entered[id] == 1
      ensures forall k, id :: 0 <= k < |polls| && id in polls[k].ids && polls[|polls| - 1].now - polls[k].now >= grace ==>
        w.left[id] == 1
    {
      var i := 0;
      while i < |polls|
        invariant 0 <= i <= |polls| && Valid() && lastSeen == SeenAfter(polls, old(lastSeen), i)
        invariant AllPassing(polls, i, w, pending)
        invariant WithinGrace(polls, i, pending, grace)
        decreases |polls| - i
      {
        PollNext(polls, i);
        i := i + 1;
      }
      CountsInvariant();
      LateOnesLeft(polls, |polls|, w, pending, lastSeen, grace);
    }
  }

  /** What one poll reads. */
  datatype Poll = Poll(snapshot: Snapshot, ids: seq<int>, now: int)

  function SeenAfter(polls: seq<Poll>, lastSeen: int, k: nat): int
    requires k <= |polls|
  {
    if k == 0 then lastSeen
    else if polls[k - 1].ids == [] then SeenAfter(polls, lastSeen, k - 1)
    else polls[k - 1].ids[|polls[k - 1].ids| - 1]
  }

  /** Each poll reads the batch after the last id seen. */
  ghost predicate ReadOn(polls: seq<Poll>, lastSeen: int) {
    forall k :: 0 <= k < |polls| ==> IsBatch(polls[k].ids, polls[k].snapshot.matches, SeenAfter(polls, lastSeen, k))
  }

  /** Taken in once, at `since`; if it is still held, then since that moment. */
  ghost predicate Passing(w: Watch, pending: seq<Held>, id: int, since: int) {
    w.entered[id] == 1 && forall h :: h in pending && h.id == id ==> h.since == since
  }

  /** All the matches of the first `n` polls. */
  ghost predicate AllPassing(polls: seq<Poll>, n: nat, w: Watch, pending: seq<Held>)
    requires n <= |polls|
  {
    forall k, id :: 0 <= k < n && id in polls[k].ids ==> Passing(w, pending, id, polls[k].now)
  }

  /** What is still held was held for less than a grace period when the last poll came. */
  ghost predicate WithinGrace(polls: seq<Poll>, n: nat, pending: seq<Held>, grace: int)
    requires n <= |polls|
  {
    n > 0 ==> forall h :: h in pending ==> polls[n - 1].now - h.since < grace
  }

  lemma StayPassing(
      polls: seq<Poll>, i: nat, before: Watch, held: seq<Held>, w: Watch, pending: seq<Held>, lastSeen: int)
    requires i < |polls| && AllPassing(polls, i, before, held)
    requires CountsOk(IdsOf(held), lastSeen, before.entered, before.left)
    requires Ascending(polls[i].ids) && forall id :: id in polls[i].ids ==> id > lastSeen
    requires w.entered == before.entered + multiset(polls[i].ids)
    requires forall h :: h in pending ==> h in held || (h.since == polls[i].now && h.id in polls[i].ids)
    ensures AllPassing(polls, i + 1, w, pending)
  {
    forall k, id | 0 <= k < i + 1 && id in polls[k].ids ensures Passing(w, pending, id, polls[k].now) {
      if k < i {
        StillPassing(before, held, w, pending, polls[i].ids, lastSeen, polls[i].now, id, polls[k].now);
      } else {
        JustEntered(before, held, w, pending, polls[i].ids, lastSeen, polls[i].now, id);
      }
    }
  }

  /** What was held a grace period or more is gone, and so it left. */
  lemma LateOnesLeft(polls: seq<Poll>, n: nat, w: Watch, pending: seq<Held>, lastSeen: int, grace: int)
    requires n <= |polls| && AllPassing(polls, n, w, pending) && CountsOk(IdsOf(pending), lastSeen, w.entered, w.left)
    requires WithinGrace(polls, n, pending, grace)
    ensures forall k, id :: 0 <= k < n && id in polls[k].ids ==> w.entered[id] == 1
    ensures forall k, id :: 0 <= k < n && id in polls[k].ids && polls[n - 1].now - polls[k].now >= grace ==> w.left[id] == 1
  {
    forall k, id | 0 <= k < n && id in polls[k].ids
      ensures w.entered[id] == 1 && (polls[n - 1].now - polls[k].now >= grace ==> w.left[id] == 1)
    {
      assert Passing(w, pending, id, polls[k].now);
      assert id in IdsOf(pending) ==> exists h :: h in pending && h.id == id;
    }
  }

  lemma JustEntered(
      before: Watch, held: seq<Held>, w: Watch, pending: seq<Held>, ids: seq<int>, lastSeen: int, now: int, id: int)
    requires CountsOk(IdsOf(held), lastSeen, before.entered, before.left) && Ascending(ids) && id in ids && id > lastSeen
    requires w.entered == before.entered + multiset(ids)
    requires forall h :: h in pending ==> h in held || (h.since == now && h.id in ids)
    ensures Passing(w, pending, id, now)
  {
    AscendingOnce(ids);
    assert before.entered[id] == 0;
    forall h | h in held ensures h.id <= lastSeen {
      assert h.id in IdsOf(held);
      assert h.id in before.entered;
    }
  }

  lemma StillPassing(
      before: Watch, held: seq<Held>, w: Watch, pending: seq<Held>, ids: seq<int>, lastSeen: int, now: int, id: int, since: int)
    requires CountsOk(IdsOf(held), lastSeen, before.entered, before.left) && forall i :: i in ids ==> i > lastSeen
    requires Passing(before, held, id, since) && w.entered == before.entered + multiset(ids)
    requires forall h :: h in pending ==> h in held || (h.since == now && h.id in ids)
    ensures Passing(w, pending, id, since)
  {
    assert id in before.entered;
    assert id !in ids;
  }

  // ---------------------------------------------------------------------------------------------
  // Past the cap on held matches

  /** One pass of the loop that should stop holding the oldest: its key is assigned again. */
  function MarkedOldest(pending: seq<Held>, past: int): seq<Held>
    requires pending != []
  {
    pending[0 := Held(pending[0].id, past)]
  }

  function AfterPasses(pending: seq<Held>, past: int, passes: nat): seq<Held>
    decreases passes
  {
    if passes == 0 || |pending| <= MAX_PENDING then pending
    else AfterPasses(MarkedOldest(pending, past), past, passes - 1)
  }

  /** No pass takes anything out, so the loop goes on after any number of passes exactly when the cap is passed. */
  lemma {:induction false} CapLoopNeverEnds(pending: seq<Held>, past: int, passes: nat)
    ensures IdsOf(AfterPasses(pending, past, passes)) == IdsOf(pending)
    ensures |AfterPasses(pending, past, passes)| > 500 <==> |pending| > 500
    decreases passes
  {
    if passes > 0 && |pending| > MAX_PENDING {
      var marked := MarkedOldest(pending, past);
      forall id ensures id in IdsOf(marked) <==> id in IdsOf(pending) {
        if h :| h in pending && h.id == id {
          var i :| 0 <= i < |pending| && pending[i] == h;
          assert marked[i].id == id;
        }
        if h :| h in marked && h.id == id {
          var i :| 0 <= i < |marked| && marked[i] == h;
          assert pending[i].id == id;
        }
      }
      CapLoopNeverEnds(marked, past, passes - 1);
    }
  }

  /** Shown as the snapshot says, if it can be shown at all. */
  ghost predicate UpToDate(s: Snapshot, t: Tracked) {
    Showable(s, t.id) ==> t.signature == SignatureOf(RowsFor(s, t.id))
  }

  lemma TrackedFromHere(todo: seq<Tracked>, i: nat)
    requires TrackedOk(todo) && i < |todo|
    ensures forall t :: t in todo[i + 1..] ==> t.id != todo[i].id && t in todo[i..]
    ensures forall t :: t in todo[i..] <==> t == todo[i] || t in todo[i + 1..]
  {
    assert todo[i..] == [todo[i]] + todo[i + 1..];
  }

  /** The match is there to be shown, and is news: it has no deliveries, or one that is not historical. */
  ghost predicate Showable(s: Snapshot, id: int) {
    id in s.showable && (id in s.deliveries && s.deliveries[id] != {} ==> exists d :: d in s.deliveries[id] && !d.historical)
  }

  /** Two sets of deliveries look the same exactly when they agree on ids, statuses and times. */
  lemma SignaturesShowTheFields(a: set<Delivery>, b: set<Delivery>)
    ensures SignatureOf(a) == SignatureOf(b) <==>
      && (forall d :: d in a ==> exists e :: e in b && e.id == d.id && e.status == d.status && e.deliveredAt == d.deliveredAt)
      && (forall e :: e in b ==> exists d :: d in a && d.id == e.id && d.status == e.status && d.deliveredAt == e.deliveredAt)
  {
    if SignatureOf(a) == SignatureOf(b) {
      forall d | d in a ensures exists e :: e in b && e.id == d.id && e.status == d.status && e.deliveredAt == d.deliveredAt {
        assert (d.id, d.status, d.deliveredAt) in SignatureOf(b);
      }
      forall e | e in b ensures exists d :: d in a && d.id == e.id && d.status == e.status && d.deliveredAt == e.deliveredAt {
        assert (e.id, e.status, e.deliveredAt) in SignatureOf(a);
      }
    }
  }

  /** The events added are of showable matches, each with its deliveries as the snapshot has them. */
  ghost predicate Adds(s: Snapshot, events: seq<Event>, events': seq<Event>) {
    events <= events' && forall i :: |events| <= i < |events'| ==>
      Showable(s, events'[i].id) && events'[i].signature == SignatureOf(RowsFor(s, events'[i].id))
  }

  ghost predicate Shows(s: Snapshot, events: seq<Event>, events': seq<Event>, id: int) {
    exists i :: |events| <= i < |events'| && events'[i].id == id
  }

  lemma AddedEvent(s: Snapshot, events: seq<Event>, events': seq<Event>, e: Event)
    requires Adds(s, events, events')
    ensures Showable(s, e.id) && e.signature == SignatureOf(RowsFor(s, e.id)) ==>
      Adds(s, events, events' + [e]) && Shows(s, events, events' + [e], e.id)
    ensures forall id :: Shows(s, events, events', id) ==> Shows(s, events, events' + [e], id)
  {
    assert (events' + [e])[|events'|] == e;
    forall id | Shows(s, events, events', id) ensures Shows(s, events, events' + [e], id) {
      var i :| |events| <= i < |events'| && events'[i].id == id;
      assert (events' + [e])[i].id == id;
    }
  }

  predicate Waits(s: Snapshot, now: int, grace: int, h: Held) {
    RowsFor(s, h.id) == {} && now - h.since < grace
  }

  lemma DistinctFromHere(todo: seq<Held>, i: nat)
    requires DistinctHeld(todo) && i < |todo|
    ensures forall h :: h in todo && h.id == todo[i].id ==> h == todo[i]
    ensures todo[i] !in todo[i + 1..]
  {
  }
}
