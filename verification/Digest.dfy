/** The daily digest: one run per local date, each row reserved before the call that carries it.

    A run waits at its calls, and the process may stop between any two of its writes; matches arrive
    and are deleted meanwhile. `Step` does nothing when an action is not possible. */
module Digest {
  import opened Options
  import opened Pipeline

  /** One digest delivery: a match for a recipient. */
  type Row = (nat, int)

  datatype Item = Item(id: nat, price: Option<int>, matchedAt: int)

  datatype Plan = Plan(recipient: int, top: seq<Item>, overflow: seq<Item>)

  datatype Phase = Reserving | Reserved | Calling | Delivered | TurnedAway

  datatype Progress =
    | NoRun
    | Planning(date: int, topN: nat, todo: seq<int>, plans: seq<Plan>)
    | Sending(date: int, plans: seq<Plan>, phase: Phase)

  datatype Counters = Counters(itemsSent: int, itemsSkipped: int)

  /** The rows a run reserved and did not give back. Those in `missing` were deleted after they were
      planned, so the reservation found no row to move. */
  datatype Ledger = Ledger(top: set<Row>, skipped: set<Row>, missing: set<Row>)

  /** `started` and `confirmed` count the Bot API calls that carried a row; `ledgers` remembers what
      each run did. */
  datatype State = State(
    matches: map<nat, Match>, nextMatchId: nat, rows: map<Row, Status>, runs: map<int, Counters>, progress: Progress,
    started: multiset<Row>, confirmed: multiset<Row>, ledgers: map<int, Ledger>)

  /** `Stop` ends a run, or the process in the middle of one. */
  datatype Action =
    | Enqueue(m: Match, recipients: set<int>, status: Status)
    | Delete(ids: set<nat>)
    | Open(date: int, eligible: seq<int>, topN: nat)
    | PlanNext(blocked: bool, queue: seq<Item>)
    | BeginSending
    | Reserve
    | CallStarts
    | CallRefused
    | CallRaised
    | CallAccepted
    | MarkSent
    | GiveBack
    | Stop

  // ---------------------------------------------------------------------------------------------
  // One recipient's queue

  /** Cheapest first, a missing price last, then the oldest match, then the id. */
  predicate Before(a: Item, b: Item) {
    if a.price.None? != b.price.None? then a.price.Some?
    else if a.price != b.price then a.price.value < b.price.value
    else if a.matchedAt != b.matchedAt then a.matchedAt < b.matchedAt
    else a.id < b.id
  }

  /** What the order is for, on the fields: no dearer, no later at one price, and by id at one time. */
  ghost predicate NoWorse(price: Option<int>, matchedAt: int, id: nat, price': Option<int>, matchedAt': int, id': nat) {
    && (price'.Some? ==> price.Some? && price.value <= price'.value)
    && (price == price' ==> matchedAt <= matchedAt')
    && (price == price' && matchedAt == matchedAt' ==> id < id')
  }

  predicate Sorted(q: seq<Item>) {
    forall i, j :: 0 <= i < j < |q| ==> Before(q[i], q[j])
  }

  function ItemOf(id: nat, m: Match): Item {
    Item(id, m.price, m.matchedAt)
  }

  predicate Queued(item: Item, matches: map<nat, Match>, rows: map<Row, Status>, recipient: int) {
    && item.id in matches && item == ItemOf(item.id, matches[item.id])
    && (item.id, recipient) in rows && rows[(item.id, recipient)] == Pending
  }

  /** The recipient's pending items, all of them, in order. */
  ghost predicate IsQueue(q: seq<Item>, matches: map<nat, Match>, rows: map<Row, Status>, recipient: int) {
    Sorted(q) && forall item :: item in q <==> Queued(item, matches, rows, recipient)
  }

  function Insert(q: seq<Item>, item: Item): seq<Item> {
    if q == [] || Before(item, q[0]) then [item] + q else [q[0]] + Insert(q[1..], item)
  }

  lemma {:induction false} InsertKeepsSorted(q: seq<Item>, item: Item)
    requires Sorted(q) && forall other :: other in q ==> other.id != item.id
    ensures Sorted(Insert(q, item))
    ensures forall other :: other in Insert(q, item) <==> other in q || other == item
  {
    if q != [] && !Before(item, q[0]) {
      InsertKeepsSorted(q[1..], item);
      assert q == [q[0]] + q[1..];
      var r := Insert(q[1..], item);
      forall i | 0 <= i < |r| ensures Before(q[0], r[i]) {
        assert r[i] in r;
        if r[i] != item {
          assert r[i] in q[1..];
        }
      }
    }
  }

  /** The queue of a recipient, from the matches the database joins, in whatever order. */
  method LoadPendingQueue(matches: map<nat, Match>, rows: map<Row, Status>, recipient: int) returns (q: seq<Item>)
    ensures IsQueue(q, matches, rows, recipient)
    ensures forall i, j :: 0 <= i < j < |q| ==>
      NoWorse(q[i].price, q[i].matchedAt, q[i].id, q[j].price, q[j].matchedAt, q[j].id)
    ensures forall item :: item in q ==>
      && item.id in matches && item.price == matches[item.id].price && item.matchedAt == matches[item.id].matchedAt
      && (item.id, recipient) in rows && rows[(item.id, recipient)] == Pending
    ensures forall id :: id in matches && (id, recipient) in rows && rows[(id, recipient)] == Pending ==>
      exists item :: item in q && item.id == id
  {
    q := [];
    var left := matches.Keys;
    while left != {}
      invariant left <= matches.Keys && Sorted(q)
      invariant forall item :: item in q <==> Queued(item, matches, rows, recipient) && item.id !in left
      decreases |left|
    {
      var id :| id in left;
      left := left - {id};
      if (id, recipient) in rows && rows[(id, recipient)] == Pending {
        InsertKeepsSorted(q, ItemOf(id, matches[id]));
        q := Insert(q, ItemOf(id, matches[id]));
      }
    }
    QueueIsCheapestFirst(q, matches, rows, recipient);
  }

  lemma QueueIsCheapestFirst(q: seq<Item>, matches: map<nat, Match>, rows: map<Row, Status>, recipient: int)
    requires IsQueue(q, matches, rows, recipient)
    ensures forall i, j :: 0 <= i < j < |q| ==>
      NoWorse(q[i].price, q[i].matchedAt, q[i].id, q[j].price, q[j].matchedAt, q[j].id)
    ensures forall id :: id in matches && (id, recipient) in rows && rows[(id, recipient)] == Pending ==>
      exists item :: item in q && item.id == id
  {
    forall i, j | 0 <= i < j < |q| ensures NoWorse(q[i].price, q[i].matchedAt, q[i].id, q[j].price, q[j].matchedAt, q[j].id) {
      assert Before(q[i], q[j]);
    }
    forall id | id in matches && (id, recipient) in rows && rows[(id, recipient)] == Pending
      ensures exists item :: item in q && item.id == id
    {
      assert Queued(ItemOf(id, matches[id]), matches, rows, recipient);
    }
  }

  /** There is one such queue, so a plan does not depend on the order the database returned. */
  lemma {:induction false} SortedIsUnique(p: seq<Item>, q: seq<Item>)
    requires Sorted(p) && Sorted(q) && forall item :: item in p <==> item in q
    ensures p == q
  {
    assert |q| > 0 ==> q[0] in p;
    if p != [] {
      assert p[0] in q && q[0] in p;
      forall item ensures item in p[1..] <==> item in q[1..] {
        TailOf(p, item);
        TailOf(q, item);
      }
      SortedIsUnique(p[1..], q[1..]);
    }
  }

  lemma TailOf(p: seq<Item>, item: Item)
    requires Sorted(p) && p != []
    ensures item in p[1..] <==> item in p && item != p[0]
  {
  }

  // ---------------------------------------------------------------------------------------------
  // The steps

  function RowsOf(items: seq<Item>, recipient: int): set<Row> {
    set i | 0 <= i < |items| :: (items[i].id, recipient)
  }

  function TopRows(plan: Plan): set<Row> {
    RowsOf(plan.top, plan.recipient)
  }

  function OverflowRows(plan: Plan): set<Row> {
    RowsOf(plan.overflow, plan.recipient)
  }

  function AllRows(plan: Plan): set<Row> {
    TopRows(plan) + OverflowRows(plan)
  }

  /** Moves those of `these` that are in the expected state, and nothing else. */
  function MarkDeliveries(rows: map<Row, Status>, these: set<Row>, expected: Status, status: Status): map<Row, Status> {
    map row | row in rows :: if row in these && rows[row] == expected then status else rows[row]
  }

  function ReservedStatus(plan: Plan, row: Row, status: Status): Status {
    if status != Pending then status else if row in TopRows(plan) then DigestAttempted
    else if row in OverflowRows(plan) then DigestSkipped else Pending
  }

  function ReturnedStatus(plan: Plan, row: Row, status: Status): Status {
    if row in TopRows(plan) && status == DigestAttempted then Pending
    else if row in OverflowRows(plan) && status == DigestSkipped then Pending else status
  }

  /** The two updates that reserve a plan. */
  function ReservedRows(rows: map<Row, Status>, plan: Plan): (r: map<Row, Status>)
    ensures r.Keys == rows.Keys
    ensures forall row :: row in rows ==> r[row] == ReservedStatus(plan, row, rows[row])
  {
    MarkDeliveries(MarkDeliveries(rows, TopRows(plan), Pending, DigestAttempted), OverflowRows(plan), Pending, DigestSkipped)
  }

  /** The two updates that give a plan back. */
  function ReturnedRows(rows: map<Row, Status>, plan: Plan): (r: map<Row, Status>)
    ensures r.Keys == rows.Keys
    ensures forall row :: row in rows ==> r[row] == ReturnedStatus(plan, row, rows[row])
  {
    MarkDeliveries(MarkDeliveries(rows, TopRows(plan), DigestAttempted, Pending), OverflowRows(plan), DigestSkipped, Pending)
  }

  function PlanOf(recipient: int, queue: seq<Item>, topN: nat): Plan {
    var n := if topN < |queue| then topN else |queue|;
    Plan(recipient, queue[..n], queue[n..])
  }

  function DoEnqueue(s: State, m: Match, recipients: set<int>, status: Status): State {
    if status !in {Pending, Grouped} then s
    else s.(matches := s.matches[s.nextMatchId := m], nextMatchId := s.nextMatchId + 1,
            rows := s.rows + map r | r in recipients :: (s.nextMatchId, r) := status)
  }

  function DoDelete(s: State, ids: set<nat>): State {
    s.(matches := s.matches - ids, rows := map row | row in s.rows && row.0 !in ids :: s.rows[row])
  }

  function DoOpen(s: State, date: int, recipients: seq<int>, topN: nat): State {
    if !s.progress.NoRun? || date in s.runs || !NoRepeats(recipients) then s
    else s.(runs := s.runs[date := Counters(0, 0)], ledgers := s.ledgers[date := Ledger({}, {}, {})],
            progress := Planning(date, topN, recipients, []))
  }

  ghost function DoPlanNext(s: State, blocked: bool, queue: seq<Item>): State {
    if !s.progress.Planning? || s.progress.todo == [] then s
    else
      var p := s.progress;
      if blocked || (queue == [] && IsQueue(queue, s.matches, s.rows, p.todo[0])) then
        s.(progress := p.(todo := p.todo[1..]))
      else if IsQueue(queue, s.matches, s.rows, p.todo[0]) then
        s.(progress := p.(todo := p.todo[1..], plans := p.plans + [PlanOf(p.todo[0], queue, p.topN)]))
      else s
  }

  predicate At(s: State, phase: Phase) {
    s.progress.Sending? && s.progress.plans != [] && s.progress.phase == phase && s.progress.date in s.runs
    && s.progress.date in s.ledgers
  }

  function NextPlan(p: Progress): Progress
    requires p.Sending? && p.plans != []
  {
    Sending(p.date, p.plans[1..], Reserving)
  }

  function CountersUp(c: Counters, plan: Plan): Counters {
    Counters(c.itemsSent + |plan.top|, c.itemsSkipped + |plan.overflow|)
  }

  function CountersDown(c: Counters, plan: Plan): Counters {
    Counters(c.itemsSent - |plan.top|, c.itemsSkipped - |plan.overflow|)
  }

  function LedgerUp(l: Ledger, plan: Plan, rows: map<Row, Status>): Ledger {
    Ledger(l.top + TopRows(plan), l.skipped + OverflowRows(plan), l.missing + (AllRows(plan) - rows.Keys))
  }

  function LedgerDown(l: Ledger, plan: Plan): Ledger {
    Ledger(l.top - TopRows(plan), l.skipped - OverflowRows(plan), l.missing - AllRows(plan))
  }

  function DoReserve(s: State): State {
    if !At(s, Reserving) then s
    else
      var p := s.progress;
      var plan := p.plans[0];
      s.(rows := ReservedRows(s.rows, plan),
         runs := s.runs[p.date := CountersUp(s.runs[p.date], plan)],
         ledgers := s.ledgers[p.date := LedgerUp(s.ledgers[p.date], plan, s.rows)],
         progress := p.(phase := Reserved))
  }

  function DoCallStarts(s: State): State {
    if !At(s, Reserved) then s
    else s.(started := s.started + multiset(TopRows(s.progress.plans[0])), progress := s.progress.(phase := Calling))
  }

  function DoCallRefused(s: State): State {
    if !At(s, Reserved) then s else s.(progress := s.progress.(phase := TurnedAway))
  }

  function DoCallRaised(s: State): State {
    if !At(s, Calling) then s else s.(progress := NextPlan(s.progress))
  }

  function DoCallAccepted(s: State): State {
    if !At(s, Calling) then s
    else s.(confirmed := s.confirmed + multiset(TopRows(s.progress.plans[0])), progress := s.progress.(phase := Delivered))
  }

  function DoMarkSent(s: State): State {
    if !At(s, Delivered) then s
    else s.(rows := MarkDeliveries(s.rows, TopRows(s.progress.plans[0]), DigestAttempted, Sent),
            progress := NextPlan(s.progress))
  }

  function DoGiveBack(s: State): State {
    if !At(s, TurnedAway) then s
    else
      var p := s.progress;
      var plan := p.plans[0];
      s.(rows := ReturnedRows(s.rows, plan),
         runs := s.runs[p.date := CountersDown(s.runs[p.date], plan)],
         ledgers := s.ledgers[p.date := LedgerDown(s.ledgers[p.date], plan)],
         progress := NextPlan(p))
  }

  ghost function Step(s: State, a: Action): State {
    match a
    case Enqueue(m, recipients, status) => DoEnqueue(s, m, recipients, status)
    case Delete(ids) => DoDelete(s, ids)
    case Open(date, eligible, topN) => DoOpen(s, date, eligible, topN)
    case PlanNext(blocked, queue) => DoPlanNext(s, blocked, queue)
    case BeginSending =>
      if s.progress.Planning? && s.progress.todo == [] then
        s.(progress := Sending(s.progress.date, s.progress.plans, Reserving))
      else s
    case Reserve => DoReserve(s)
    case CallStarts => DoCallStarts(s)
    case CallRefused => DoCallRefused(s)
    case CallRaised => DoCallRaised(s)
    case CallAccepted => DoCallAccepted(s)
    case MarkSent => DoMarkSent(s)
    case GiveBack => DoGiveBack(s)
    case Stop => s.(progress := NoRun)
  }

  ghost function Run(s: State, actions: seq<Action>): State
    decreases |actions|
  {
    if actions == [] then s else Run(Step(s, actions[0]), actions[1..])
  }

  function Boot(): State {
    State(map[], 0, map[], map[], NoRun, multiset{}, multiset{}, map[])
  }

  // ---------------------------------------------------------------------------------------------
  // What every reachable state has

  ghost predicate RowOk(row: Row, rows: map<Row, Status>, started: multiset<Row>, confirmed: multiset<Row>) {
    && confirmed[row] <= started[row] <= 1
    && (row in rows ==>
          && rows[row] in {Pending, Grouped, DigestAttempted, DigestSkipped, Sent}
          && (row in started ==> rows[row] in {DigestAttempted, Sent})
          && (rows[row] == Sent ==> row in confirmed))
  }

  ghost predicate RowsOk(
      rows: map<Row, Status>, started: multiset<Row>, confirmed: multiset<Row>, nextMatchId: nat) {
    forall row: Row :: RowOk(row, rows, started, confirmed) && (row in rows || row in started ==> row.0 < nextMatchId)
  }

  /** What a run reserved and still exists is in the state it reserved it to; what it missed is gone. */
  ghost predicate LedgerRows(l: Ledger, rows: map<Row, Status>, nextMatchId: nat) {
    && l.missing <= l.top + l.skipped
    && (forall row :: row in l.top + l.skipped ==> row.0 < nextMatchId)
    && (forall row :: row in l.top && row in rows ==> rows[row] in {DigestAttempted, Sent})
    && (forall row :: row in l.skipped && row in rows ==> rows[row] == DigestSkipped)
    && (forall row :: row in l.missing ==> row !in rows)
  }

  ghost predicate LedgerOk(l: Ledger, c: Counters, rows: map<Row, Status>, nextMatchId: nat) {
    c == Counters(|l.top|, |l.skipped|) && LedgerRows(l, rows, nextMatchId)
  }

  ghost predicate LedgersOk(
      ledgers: map<int, Ledger>, runs: map<int, Counters>, rows: map<Row, Status>, nextMatchId: nat) {
    ledgers.Keys == runs.Keys && forall d :: d in ledgers ==> LedgerOk(ledgers[d], runs[d], rows, nextMatchId)
  }

  ghost predicate InNoLedger(row: Row, ledgers: map<int, Ledger>) {
    forall d :: d in ledgers ==> row !in ledgers[d].top && row !in ledgers[d].skipped
  }

  ghost predicate PlanShape(plan: Plan) {
    && |TopRows(plan)| == |plan.top| && |OverflowRows(plan)| == |plan.overflow|
    && TopRows(plan) !! OverflowRows(plan)
  }

  /** Not touched yet by any run. */
  ghost predicate Untouched(
      plan: Plan, rows: map<Row, Status>, started: multiset<Row>, ledgers: map<int, Ledger>, nextMatchId: nat) {
    && PlanShape(plan)
    && forall row :: row in AllRows(plan) ==>
         && row !in started && row.0 < nextMatchId && InNoLedger(row, ledgers)
         && (row in rows ==> rows[row] == Pending)
  }

  ghost predicate PlansUntouched(
      plans: seq<Plan>, rows: map<Row, Status>, started: multiset<Row>, ledgers: map<int, Ledger>, nextMatchId: nat) {
    forall i :: 0 <= i < |plans| ==> Untouched(plans[i], rows, started, ledgers, nextMatchId)
  }

  ghost predicate RecipientsDiffer(plans: seq<Plan>) {
    forall i, j :: 0 <= i < j < |plans| ==> plans[i].recipient != plans[j].recipient
  }

  /** Reserved by this run and by no other. */
  ghost predicate Claimed(plan: Plan, date: int, ledgers: map<int, Ledger>) {
    && PlanShape(plan) && date in ledgers
    && TopRows(plan) <= ledgers[date].top && OverflowRows(plan) <= ledgers[date].skipped
    && TopRows(plan) !! ledgers[date].skipped && OverflowRows(plan) !! ledgers[date].top
    && forall d :: d in ledgers && d != date ==> AllRows(plan) !! ledgers[d].top && AllRows(plan) !! ledgers[d].skipped
  }

  /** The plan being sent. */
  ghost predicate InFlight(
      plan: Plan, phase: Phase, date: int, started: multiset<Row>, confirmed: multiset<Row>, ledgers: map<int, Ledger>) {
    && Claimed(plan, date, ledgers)
    && (forall row :: row in OverflowRows(plan) ==> row !in started)
    && (forall row :: row in TopRows(plan) ==>
          && (phase in {Reserved, TurnedAway} ==> row !in started)
          && (phase == Calling ==> row in started && row !in confirmed)
          && (phase == Delivered ==> row in confirmed))
  }

  ghost predicate ProgressOk(
      p: Progress, rows: map<Row, Status>, started: multiset<Row>, confirmed: multiset<Row>,
      ledgers: map<int, Ledger>, nextMatchId: nat) {
    match p
    case NoRun => true
    case Planning(date, _, todo, plans) =>
      && date in ledgers && NoRepeats(todo) && RecipientsDiffer(plans)
      && (forall i :: 0 <= i < |plans| ==> plans[i].recipient !in todo)
      && PlansUntouched(plans, rows, started, ledgers, nextMatchId)
    case Sending(date, plans, phase) =>
      && date in ledgers && RecipientsDiffer(plans)
      && (if plans == [] || phase == Reserving then PlansUntouched(plans, rows, started, ledgers, nextMatchId)
          else
            && InFlight(plans[0], phase, date, started, confirmed, ledgers)
            && PlansUntouched(plans[1..], rows, started, ledgers, nextMatchId))
  }

  ghost predicate Invariant(s: State) {
    && RowsOk(s.rows, s.started, s.confirmed, s.nextMatchId)
    && LedgersOk(s.ledgers, s.runs, s.rows, s.nextMatchId)
    && ProgressOk(s.progress, s.rows, s.started, s.confirmed, s.ledgers, s.nextMatchId)
  }

  // ---------------------------------------------------------------------------------------------
  // Each step keeps it

  lemma {:induction false} RowsOfSize(items: seq<Item>, recipient: int)
    requires forall i, j :: 0 <= i < j < |items| ==> items[i].id != items[j].id
    ensures |RowsOf(items, recipient)| == |items|
  {
    if items != [] {
      var rest := items[..|items| - 1];
      RowsOfSize(rest, recipient);
      var last := (items[|items| - 1].id, recipient);
      assert last !in RowsOf(rest, recipient);
      assert RowsOf(items, recipient) == RowsOf(rest, recipient) + {last};
    } else {
      assert RowsOf(items, recipient) == {};
    }
  }

  lemma QueueIdsDiffer(q: seq<Item>, recipient: int, matches: map<nat, Match>, rows: map<Row, Status>)
    requires IsQueue(q, matches, rows, recipient)
    ensures forall i, j :: 0 <= i < j < |q| ==> q[i].id != q[j].id
  {
    forall i, j | 0 <= i < j < |q| ensures q[i].id != q[j].id {
      assert Before(q[i], q[j]) && Queued(q[i], matches, rows, recipient) && Queued(q[j], matches, rows, recipient);
    }
  }

  lemma PlanHasItsShape(q: seq<Item>, recipient: int, topN: nat)
    requires forall i, j :: 0 <= i < j < |q| ==> q[i].id != q[j].id
    ensures PlanShape(PlanOf(recipient, q, topN))
  {
    var plan := PlanOf(recipient, q, topN);
    RowsOfSize(plan.top, recipient);
    RowsOfSize(plan.overflow, recipient);
    CutRowsDiffer(q, |plan.top|, recipient);
  }

  lemma CutRowsDiffer(q: seq<Item>, n: nat, recipient: int)
    requires n <= |q| && forall i, j :: 0 <= i < j < |q| ==> q[i].id != q[j].id
    ensures RowsOf(q[..n], recipient) !! RowsOf(q[n..], recipient)
  {
    forall i, j | 0 <= i < n && 0 <= j < |q| - n ensures q[..n][i].id != q[n..][j].id {
      assert q[..n][i] == q[i] && q[n..][j] == q[n + j];
    }
  }

  lemma PlanIsPending(q: seq<Item>, recipient: int, topN: nat, matches: map<nat, Match>, rows: map<Row, Status>)
    requires IsQueue(q, matches, rows, recipient)
    ensures forall row :: row in AllRows(PlanOf(recipient, q, topN)) ==> row in rows && rows[row] == Pending
  {
    var plan := PlanOf(recipient, q, topN);
    forall item | item in q ensures Queued(item, matches, rows, recipient) {
    }
    forall i | 0 <= i < |plan.top| ensures plan.top[i] in q {
      assert plan.top[i] == q[i];
    }
    forall i | 0 <= i < |plan.overflow| ensures plan.overflow[i] in q {
      assert plan.overflow[i] == q[|plan.top| + i];
    }
  }

  /** A step on one recipient's rows leaves the plans of the others alone. */
  ghost predicate OnlyRowsOf(
      recipient: int, rows: map<Row, Status>, rows': map<Row, Status>, started: multiset<Row>, started': multiset<Row>) {
    && rows'.Keys == rows.Keys
    && (forall row :: row in rows && row.1 != recipient ==> rows'[row] == rows[row])
    && (forall row :: row in started' && row.1 != recipient ==> row in started)
  }

  ghost predicate LedgersGrowOnlyBy(recipient: int, ledgers: map<int, Ledger>, ledgers': map<int, Ledger>) {
    forall row: Row :: row.1 != recipient && InNoLedger(row, ledgers) ==> InNoLedger(row, ledgers')
  }

  lemma PlanStaysUntouched(
      plan: Plan, recipient: int, rows: map<Row, Status>, rows': map<Row, Status>, started: multiset<Row>,
      started': multiset<Row>, ledgers: map<int, Ledger>, ledgers': map<int, Ledger>, nextMatchId: nat)
    requires Untouched(plan, rows, started, ledgers, nextMatchId) && plan.recipient != recipient
    requires OnlyRowsOf(recipient, rows, rows', started, started') && LedgersGrowOnlyBy(recipient, ledgers, ledgers')
    ensures Untouched(plan, rows', started', ledgers', nextMatchId)
  {
  }

  lemma PlansStayUntouched(
      plans: seq<Plan>, recipient: int, rows: map<Row, Status>, rows': map<Row, Status>, started: multiset<Row>,
      started': multiset<Row>, ledgers: map<int, Ledger>, ledgers': map<int, Ledger>, nextMatchId: nat)
    requires PlansUntouched(plans, rows, started, ledgers, nextMatchId)
    requires forall i :: 0 <= i < |plans| ==> plans[i].recipient != recipient
    requires OnlyRowsOf(recipient, rows, rows', started, started') && LedgersGrowOnlyBy(recipient, ledgers, ledgers')
    ensures PlansUntouched(plans, rows', started', ledgers', nextMatchId)
  {
    forall i | 0 <= i < |plans| ensures Untouched(plans[i], rows', started', ledgers', nextMatchId) {
      PlanStaysUntouched(plans[i], recipient, rows, rows', started, started', ledgers, ledgers', nextMatchId);
    }
  }

  lemma ReservedRowsOk(
      plan: Plan, rows: map<Row, Status>, started: multiset<Row>, confirmed: multiset<Row>,
      ledgers: map<int, Ledger>, nextMatchId: nat)
    requires RowsOk(rows, started, confirmed, nextMatchId) && Untouched(plan, rows, started, ledgers, nextMatchId)
    ensures RowsOk(ReservedRows(rows, plan), started, confirmed, nextMatchId)
    ensures OnlyRowsOf(plan.recipient, rows, ReservedRows(rows, plan), started, started)
  {
    var rows' := ReservedRows(rows, plan);
    forall row: Row ensures RowOk(row, rows', started, confirmed) && (row in rows' || row in started ==> row.0 < nextMatchId) {
      assert RowOk(row, rows, started, confirmed);
    }
  }

  lemma JoinedSize(a: set<Row>, b: set<Row>)
    requires a !! b
    ensures |a + b| == |a| + |b|
  {
  }

  lemma TakenSize(a: set<Row>, b: set<Row>)
    requires b <= a
    ensures |a - b| == |a| - |b|
  {
  }

  lemma ReservedLedgerRows(l: Ledger, plan: Plan, rows: map<Row, Status>, nextMatchId: nat)
    requires LedgerRows(l, rows, nextMatchId) && TopRows(plan) !! OverflowRows(plan)
    requires forall row :: row in AllRows(plan) ==> row.0 < nextMatchId && (row in rows ==> rows[row] == Pending)
    ensures LedgerRows(LedgerUp(l, plan, rows), ReservedRows(rows, plan), nextMatchId)
  {
  }

  /** The run's own ledger after a reservation. */
  lemma ReservedLedgerOk(l: Ledger, c: Counters, plan: Plan, rows: map<Row, Status>, nextMatchId: nat)
    requires LedgerOk(l, c, rows, nextMatchId) && PlanShape(plan)
    requires AllRows(plan) !! l.top && AllRows(plan) !! l.skipped
    requires forall row :: row in AllRows(plan) ==> row.0 < nextMatchId && (row in rows ==> rows[row] == Pending)
    ensures LedgerOk(LedgerUp(l, plan, rows), CountersUp(c, plan), ReservedRows(rows, plan), nextMatchId)
  {
    JoinedSize(l.top, TopRows(plan));
    JoinedSize(l.skipped, OverflowRows(plan));
    ReservedLedgerRows(l, plan, rows, nextMatchId);
  }

  /** Another run's ledger: a reservation only moves rows that run never touched. */
  lemma ReservedKeepsOtherLedger(l: Ledger, c: Counters, plan: Plan, rows: map<Row, Status>, nextMatchId: nat)
    requires LedgerOk(l, c, rows, nextMatchId)
    ensures LedgerOk(l, c, ReservedRows(rows, plan), nextMatchId)
  {
  }

  /** New rows of a match nothing knew about. */
  lemma NewRowsKeepLedgers(s: State, rows: map<Row, Status>)
    requires LedgersOk(s.ledgers, s.runs, s.rows, s.nextMatchId)
    requires forall row :: row in rows ==> row.0 == s.nextMatchId
    ensures LedgersOk(s.ledgers, s.runs, s.rows + rows, s.nextMatchId + 1)
  {
    forall d | d in s.ledgers ensures LedgerOk(s.ledgers[d], s.runs[d], s.rows + rows, s.nextMatchId + 1) {
      assert LedgerOk(s.ledgers[d], s.runs[d], s.rows, s.nextMatchId);
    }
  }

  lemma NewRowsKeepPlans(s: State, plans: seq<Plan>, rows: map<Row, Status>)
    requires PlansUntouched(plans, s.rows, s.started, s.ledgers, s.nextMatchId)
    requires forall row :: row in rows ==> row.0 == s.nextMatchId
    ensures PlansUntouched(plans, s.rows + rows, s.started, s.ledgers, s.nextMatchId + 1)
  {
    forall i | 0 <= i < |plans| ensures Untouched(plans[i], s.rows + rows, s.started, s.ledgers, s.nextMatchId + 1) {
      assert Untouched(plans[i], s.rows, s.started, s.ledgers, s.nextMatchId);
    }
  }

  lemma NewRowsKeepRows(s: State, rows: map<Row, Status>)
    requires RowsOk(s.rows, s.started, s.confirmed, s.nextMatchId)
    requires forall row :: row in rows ==> row.0 == s.nextMatchId && rows[row] in {Pending, Grouped}
    ensures RowsOk(s.rows + rows, s.started, s.confirmed, s.nextMatchId + 1)
  {
    forall row: Row
      ensures RowOk(row, s.rows + rows, s.started, s.confirmed)
              && (row in s.rows + rows || row in s.started ==> row.0 < s.nextMatchId + 1)
    {
      assert RowOk(row, s.rows, s.started, s.confirmed);
    }
  }

  lemma EnqueueKeepsInvariant(s: State, m: Match, recipients: set<int>, status: Status)
    requires Invariant(s) && status in {Pending, Grouped}
    ensures Invariant(DoEnqueue(s, m, recipients, status))
  {
    var rows: map<Row, Status> := map r | r in recipients :: (s.nextMatchId, r) := status;
    NewRowsKeepRows(s, rows);
    NewRowsKeepLedgers(s, rows);
    if s.progress.Planning? || (s.progress.Sending? && (s.progress.plans == [] || s.progress.phase == Reserving)) {
      NewRowsKeepPlans(s, s.progress.plans, rows);
    } else if s.progress.Sending? {
      NewRowsKeepPlans(s, s.progress.plans[1..], rows);
    }
    assert DoEnqueue(s, m, recipients, status).rows == s.rows + rows;
  }

  lemma DeleteKeepsInvariant(s: State, ids: set<nat>)
    requires Invariant(s)
    ensures Invariant(DoDelete(s, ids))
  {
  }

  lemma OpenKeepsInvariant(s: State, date: int, recipients: seq<int>, topN: nat)
    requires Invariant(s)
    ensures Invariant(DoOpen(s, date, recipients, topN))
  {
  }

  lemma QueueIsUntouched(s: State, recipient: int, queue: seq<Item>, topN: nat)
    requires Invariant(s) && IsQueue(queue, s.matches, s.rows, recipient)
    ensures Untouched(PlanOf(recipient, queue, topN), s.rows, s.started, s.ledgers, s.nextMatchId)
  {
    var plan := PlanOf(recipient, queue, topN);
    QueueIdsDiffer(queue, recipient, s.matches, s.rows);
    PlanHasItsShape(queue, recipient, topN);
    PlanIsPending(queue, recipient, topN, s.matches, s.rows);
    forall row | row in AllRows(plan)
      ensures row !in s.started && row.0 < s.nextMatchId && InNoLedger(row, s.ledgers)
    {
      assert RowOk(row, s.rows, s.started, s.confirmed);
      forall d | d in s.ledgers ensures row !in s.ledgers[d].top && row !in s.ledgers[d].skipped {
        assert LedgerOk(s.ledgers[d], s.runs[d], s.rows, s.nextMatchId);
      }
    }
  }

  lemma AddedPlanKeepsProgress(
      date: int, topN: nat, todo: seq<int>, plans: seq<Plan>, plan: Plan, rows: map<Row, Status>, started: multiset<Row>,
      confirmed: multiset<Row>, ledgers: map<int, Ledger>, nextMatchId: nat)
    requires ProgressOk(Planning(date, topN, todo, plans), rows, started, confirmed, ledgers, nextMatchId)
    requires todo != [] && plan.recipient == todo[0] && Untouched(plan, rows, started, ledgers, nextMatchId)
    ensures ProgressOk(Planning(date, topN, todo[1..], plans + [plan]), rows, started, confirmed, ledgers, nextMatchId)
  {
    AddedPlanDiffers(todo, plans, plan);
    AddedPlanUntouched(plans, plan, rows, started, ledgers, nextMatchId);
  }

  lemma AddedPlanDiffers(todo: seq<int>, plans: seq<Plan>, plan: Plan)
    requires todo != [] && NoRepeats(todo) && RecipientsDiffer(plans) && plan.recipient == todo[0]
    requires forall i :: 0 <= i < |plans| ==> plans[i].recipient !in todo
    ensures NoRepeats(todo[1..]) && RecipientsDiffer(plans + [plan])
    ensures forall i :: 0 <= i <= |plans| ==> (plans + [plan])[i].recipient !in todo[1..]
  {
  }

  lemma AddedPlanUntouched(
      plans: seq<Plan>, plan: Plan, rows: map<Row, Status>, started: multiset<Row>, ledgers: map<int, Ledger>,
      nextMatchId: nat)
    requires PlansUntouched(plans, rows, started, ledgers, nextMatchId)
    requires Untouched(plan, rows, started, ledgers, nextMatchId)
    ensures PlansUntouched(plans + [plan], rows, started, ledgers, nextMatchId)
  {
    var plans' := plans + [plan];
    forall i | 0 <= i < |plans'| ensures Untouched(plans'[i], rows, started, ledgers, nextMatchId) {
      assert plans'[i] == if i < |plans| then plans[i] else plan;
    }
  }

  lemma PlanNextKeepsInvariant(s: State, blocked: bool, queue: seq<Item>)
    requires Invariant(s) && s.progress.Planning? && s.progress.todo != []
    ensures Invariant(DoPlanNext(s, blocked, queue))
  {
    var p := s.progress;
    if blocked || (queue == [] && IsQueue(queue, s.matches, s.rows, p.todo[0])) {
    } else if IsQueue(queue, s.matches, s.rows, p.todo[0]) {
      QueueIsUntouched(s, p.todo[0], queue, p.topN);
      AddedPlanKeepsProgress(p.date, p.topN, p.todo, p.plans, PlanOf(p.todo[0], queue, p.topN), s.rows, s.started,
                             s.confirmed, s.ledgers, s.nextMatchId);
    }
  }

  /** One run's ledger changes; the others stand under the new rows too. */
  lemma ChangedLedgersOk(
      ledgers: map<int, Ledger>, runs: map<int, Counters>, rows: map<Row, Status>, nextMatchId: nat, date: int,
      l: Ledger, c: Counters)
    requires ledgers.Keys == runs.Keys && date in ledgers
    requires forall d :: d in ledgers && d != date ==> LedgerOk(ledgers[d], runs[d], rows, nextMatchId)
    requires LedgerOk(l, c, rows, nextMatchId)
    ensures LedgersOk(ledgers[date := l], runs[date := c], rows, nextMatchId)
  {
  }

  lemma ReserveKeepsLedgers(
      ledgers: map<int, Ledger>, runs: map<int, Counters>, rows: map<Row, Status>, nextMatchId: nat, date: int, plan: Plan)
    requires LedgersOk(ledgers, runs, rows, nextMatchId) && PlanShape(plan) && date in ledgers
    requires AllRows(plan) !! ledgers[date].top && AllRows(plan) !! ledgers[date].skipped
    requires forall row :: row in AllRows(plan) ==> row.0 < nextMatchId && (row in rows ==> rows[row] == Pending)
    ensures LedgersOk(ledgers[date := LedgerUp(ledgers[date], plan, rows)], runs[date := CountersUp(runs[date], plan)],
                      ReservedRows(rows, plan), nextMatchId)
  {
    var rows' := ReservedRows(rows, plan);
    forall d | d in ledgers && d != date ensures LedgerOk(ledgers[d], runs[d], rows', nextMatchId) {
      ReservedKeepsOtherLedger(ledgers[d], runs[d], plan, rows, nextMatchId);
    }
    ReservedLedgerOk(ledgers[date], runs[date], plan, rows, nextMatchId);
    ChangedLedgersOk(ledgers, runs, rows', nextMatchId, date, LedgerUp(ledgers[date], plan, rows),
                     CountersUp(runs[date], plan));
  }

  lemma UntouchedIsInNoLedger(
      plan: Plan, rows: map<Row, Status>, started: multiset<Row>, ledgers: map<int, Ledger>, nextMatchId: nat, d: int)
    requires Untouched(plan, rows, started, ledgers, nextMatchId) && d in ledgers
    ensures AllRows(plan) !! ledgers[d].top && AllRows(plan) !! ledgers[d].skipped
  {
    assert forall row :: row in AllRows(plan) ==> InNoLedger(row, ledgers);
  }

  lemma ReservedIsClaimed(
      ledgers: map<int, Ledger>, rows: map<Row, Status>, started: multiset<Row>, nextMatchId: nat, date: int, plan: Plan)
    requires Untouched(plan, rows, started, ledgers, nextMatchId) && date in ledgers
    ensures Claimed(plan, date, ledgers[date := LedgerUp(ledgers[date], plan, rows)])
  {
    forall d | d in ledgers ensures AllRows(plan) !! ledgers[d].top && AllRows(plan) !! ledgers[d].skipped {
      UntouchedIsInNoLedger(plan, rows, started, ledgers, nextMatchId, d);
    }
  }

  lemma LedgerUpGrowsOnlyBy(ledgers: map<int, Ledger>, rows: map<Row, Status>, date: int, plan: Plan)
    requires date in ledgers
    ensures LedgersGrowOnlyBy(plan.recipient, ledgers, ledgers[date := LedgerUp(ledgers[date], plan, rows)])
  {
    forall row: Row | row.1 != plan.recipient && InNoLedger(row, ledgers)
      ensures InNoLedger(row, ledgers[date := LedgerUp(ledgers[date], plan, rows)])
    {
      assert row !in AllRows(plan);
    }
  }

  lemma LedgerDownGrowsOnlyBy(ledgers: map<int, Ledger>, date: int, plan: Plan)
    requires date in ledgers
    ensures LedgersGrowOnlyBy(plan.recipient, ledgers, ledgers[date := LedgerDown(ledgers[date], plan)])
  {
    forall row: Row | InNoLedger(row, ledgers) ensures InNoLedger(row, ledgers[date := LedgerDown(ledgers[date], plan)]) {
    }
  }

  lemma ReserveKeepsProgress(
      p: Progress, rows: map<Row, Status>, started: multiset<Row>, confirmed: multiset<Row>,
      ledgers: map<int, Ledger>, nextMatchId: nat)
    requires p.Sending? && p.plans != [] && p.phase == Reserving
    requires ProgressOk(p, rows, started, confirmed, ledgers, nextMatchId)
    ensures var plan := p.plans[0];
            ProgressOk(p.(phase := Reserved), ReservedRows(rows, plan), started, confirmed,
                       ledgers[p.date := LedgerUp(ledgers[p.date], plan, rows)], nextMatchId)
  {
    var plan := p.plans[0];
    ReservedIsClaimed(ledgers, rows, started, nextMatchId, p.date, plan);
    LedgerUpGrowsOnlyBy(ledgers, rows, p.date, plan);
    assert OnlyRowsOf(plan.recipient, rows, ReservedRows(rows, plan), started, started);
    PlansStayUntouched(p.plans[1..], plan.recipient, rows, ReservedRows(rows, plan), started, started, ledgers,
                       ledgers[p.date := LedgerUp(ledgers[p.date], plan, rows)], nextMatchId);
  }

  lemma ReserveKeepsInvariant(s: State)
    requires Invariant(s) && At(s, Reserving)
    ensures Invariant(DoReserve(s))
  {
    var date, plan := s.progress.date, s.progress.plans[0];
    assert Untouched(plan, s.rows, s.started, s.ledgers, s.nextMatchId);
    ReservedRowsOk(plan, s.rows, s.started, s.confirmed, s.ledgers, s.nextMatchId);
    UntouchedIsInNoLedger(plan, s.rows, s.started, s.ledgers, s.nextMatchId, date);
    ReserveKeepsLedgers(s.ledgers, s.runs, s.rows, s.nextMatchId, date, plan);
    ReserveKeepsProgress(s.progress, s.rows, s.started, s.confirmed, s.ledgers, s.nextMatchId);
  }

  lemma CallStartsKeepsInvariant(s: State)
    requires Invariant(s) && At(s, Reserved)
    ensures Invariant(DoCallStarts(s))
  {
  }

  lemma CallAcceptedKeepsInvariant(s: State)
    requires Invariant(s) && At(s, Calling)
    ensures Invariant(DoCallAccepted(s))
  {
  }

  lemma MarkSentKeepsInvariant(s: State)
    requires Invariant(s) && At(s, Delivered)
    ensures Invariant(DoMarkSent(s))
  {
    var plan := s.progress.plans[0];
    var rows := MarkDeliveries(s.rows, TopRows(plan), DigestAttempted, Sent);
    forall d | d in s.ledgers ensures LedgerOk(s.ledgers[d], s.runs[d], rows, s.nextMatchId) {
      assert LedgerOk(s.ledgers[d], s.runs[d], s.rows, s.nextMatchId);
    }
    PlansStayUntouched(s.progress.plans[1..], plan.recipient, s.rows, rows, s.started, s.started, s.ledgers, s.ledgers,
                       s.nextMatchId);
  }

  lemma ReturnedRowsOk(
      plan: Plan, rows: map<Row, Status>, started: multiset<Row>, confirmed: multiset<Row>, nextMatchId: nat)
    requires RowsOk(rows, started, confirmed, nextMatchId)
    requires forall row :: row in AllRows(plan) ==> row !in started
    ensures RowsOk(ReturnedRows(rows, plan), started, confirmed, nextMatchId)
    ensures OnlyRowsOf(plan.recipient, rows, ReturnedRows(rows, plan), started, started)
  {
    var rows' := ReturnedRows(rows, plan);
    forall row: Row ensures RowOk(row, rows', started, confirmed) && (row in rows' || row in started ==> row.0 < nextMatchId) {
      assert RowOk(row, rows, started, confirmed);
    }
  }

  lemma ReturnedLedgerRows(l: Ledger, plan: Plan, rows: map<Row, Status>, nextMatchId: nat)
    requires LedgerRows(l, rows, nextMatchId)
    requires TopRows(plan) !! l.skipped && OverflowRows(plan) !! l.top
    ensures LedgerRows(LedgerDown(l, plan), ReturnedRows(rows, plan), nextMatchId)
  {
  }

  lemma ReturnedLedgerOk(l: Ledger, c: Counters, plan: Plan, rows: map<Row, Status>, nextMatchId: nat)
    requires LedgerOk(l, c, rows, nextMatchId) && PlanShape(plan)
    requires TopRows(plan) <= l.top && OverflowRows(plan) <= l.skipped
    requires TopRows(plan) !! l.skipped && OverflowRows(plan) !! l.top
    ensures LedgerOk(LedgerDown(l, plan), CountersDown(c, plan), ReturnedRows(rows, plan), nextMatchId)
  {
    TakenSize(l.top, TopRows(plan));
    TakenSize(l.skipped, OverflowRows(plan));
    ReturnedLedgerRows(l, plan, rows, nextMatchId);
  }

  lemma ReturnedKeepsOtherLedger(l: Ledger, c: Counters, plan: Plan, rows: map<Row, Status>, nextMatchId: nat)
    requires LedgerOk(l, c, rows, nextMatchId)
    requires forall row :: row in AllRows(plan) ==> row !in l.top && row !in l.skipped
    ensures LedgerOk(l, c, ReturnedRows(rows, plan), nextMatchId)
  {
  }

  lemma GiveBackKeepsLedgers(
      ledgers: map<int, Ledger>, runs: map<int, Counters>, rows: map<Row, Status>, nextMatchId: nat, date: int, plan: Plan)
    requires LedgersOk(ledgers, runs, rows, nextMatchId) && Claimed(plan, date, ledgers)
    ensures LedgersOk(ledgers[date := LedgerDown(ledgers[date], plan)], runs[date := CountersDown(runs[date], plan)],
                      ReturnedRows(rows, plan), nextMatchId)
  {
    var rows' := ReturnedRows(rows, plan);
    forall d | d in ledgers && d != date ensures LedgerOk(ledgers[d], runs[d], rows', nextMatchId) {
      ReturnedKeepsOtherLedger(ledgers[d], runs[d], plan, rows, nextMatchId);
    }
    ReturnedLedgerOk(ledgers[date], runs[date], plan, rows, nextMatchId);
    ChangedLedgersOk(ledgers, runs, rows', nextMatchId, date, LedgerDown(ledgers[date], plan),
                     CountersDown(runs[date], plan));
  }

  lemma GiveBackKeepsProgress(
      p: Progress, rows: map<Row, Status>, started: multiset<Row>, confirmed: multiset<Row>,
      ledgers: map<int, Ledger>, nextMatchId: nat)
    requires p.Sending? && p.plans != [] && p.phase == TurnedAway
    requires ProgressOk(p, rows, started, confirmed, ledgers, nextMatchId)
    ensures var plan := p.plans[0];
            ProgressOk(NextPlan(p), ReturnedRows(rows, plan), started, confirmed,
                       ledgers[p.date := LedgerDown(ledgers[p.date], plan)], nextMatchId)
  {
    var plan := p.plans[0];
    LedgerDownGrowsOnlyBy(ledgers, p.date, plan);
    assert OnlyRowsOf(plan.recipient, rows, ReturnedRows(rows, plan), started, started);
    PlansStayUntouched(p.plans[1..], plan.recipient, rows, ReturnedRows(rows, plan), started, started, ledgers,
                       ledgers[p.date := LedgerDown(ledgers[p.date], plan)], nextMatchId);
  }

  lemma GiveBackKeepsInvariant(s: State)
    requires Invariant(s) && At(s, TurnedAway)
    ensures Invariant(DoGiveBack(s))
  {
    var date, plan := s.progress.date, s.progress.plans[0];
    ReturnedRowsOk(plan, s.rows, s.started, s.confirmed, s.nextMatchId);
    GiveBackKeepsLedgers(s.ledgers, s.runs, s.rows, s.nextMatchId, date, plan);
    GiveBackKeepsProgress(s.progress, s.rows, s.started, s.confirmed, s.ledgers, s.nextMatchId);
  }

  lemma MovingOnKeepsInvariant(s: State, a: Action)
    requires Invariant(s) && (a.BeginSending? || a.CallRefused? || a.CallRaised? || a.Stop?)
    ensures Invariant(Step(s, a))
  {
  }

  lemma StepKeepsInvariant(s: State, a: Action)
    requires Invariant(s)
    ensures Invariant(Step(s, a))
  {
    if a.Enqueue? {
      if a.status in {Pending, Grouped} {
        EnqueueKeepsInvariant(s, a.m, a.recipients, a.status);
      }
    } else if a.Delete? {
      DeleteKeepsInvariant(s, a.ids);
    } else if a.Open? {
      OpenKeepsInvariant(s, a.date, a.eligible, a.topN);
    } else if a.PlanNext? {
      if s.progress.Planning? && s.progress.todo != [] {
        PlanNextKeepsInvariant(s, a.blocked, a.queue);
      }
    } else if a.Reserve? {
      if At(s, Reserving) {
        ReserveKeepsInvariant(s);
      }
    } else if a.CallStarts? {
      if At(s, Reserved) {
        CallStartsKeepsInvariant(s);
      }
    } else if a.CallAccepted? {
      if At(s, Calling) {
        CallAcceptedKeepsInvariant(s);
      }
    } else if a.MarkSent? {
      if At(s, Delivered) {
        MarkSentKeepsInvariant(s);
      }
    } else if a.GiveBack? {
      if At(s, TurnedAway) {
        GiveBackKeepsInvariant(s);
      }
    } else {
      MovingOnKeepsInvariant(s, a);
    }
  }

  lemma {:induction false} RunKeepsInvariant(s: State, actions: seq<Action>)
    requires Invariant(s)
    ensures Invariant(Run(s, actions))
    decreases |actions|
  {
    if actions != [] {
      StepKeepsInvariant(s, actions[0]);
      RunKeepsInvariant(Step(s, actions[0]), actions[1..]);
    }
  }

  // ---------------------------------------------------------------------------------------------
  // What the digest promises

  /** A digest row goes out in at most one started call, over any ticks on any dates, with a stop between
      any two steps; and it is `sent` only if that call was confirmed. */
  lemma DigestRowsGoOutOnce(actions: seq<Action>, row: Row)
    ensures var s := Run(Boot(), actions);
            && s.confirmed[row] <= s.started[row] <= 1
            && (row in s.rows && s.rows[row] == Sent ==> s.confirmed[row] == 1)
  {
    RunKeepsInvariant(Boot(), actions);
    var s := Run(Boot(), actions);
    assert RowOk(row, s.rows, s.started, s.confirmed);
  }

  /** Every counter is the size of what its run reserved and kept; it counts moved rows exactly when no
      row was deleted between planning and reservation, and overstates otherwise. */
  lemma CountersMatchTheRows(actions: seq<Action>, date: int)
    requires date in Run(Boot(), actions).runs
    ensures var s := Run(Boot(), actions);
            && date in s.ledgers
            && var l, c := s.ledgers[date], s.runs[date];
               && c == Counters(|l.top|, |l.skipped|)
               && (c == Counters(|l.top - l.missing|, |l.skipped - l.missing|) <==> l.missing == {})
               && c.itemsSent >= |l.top - l.missing| && c.itemsSkipped >= |l.skipped - l.missing|
               && (forall row :: row in l.top && row in s.rows ==> s.rows[row] in {DigestAttempted, Sent})
               && (forall row :: row in l.skipped && row in s.rows ==> s.rows[row] == DigestSkipped)
               && (forall row :: row in l.missing ==> row !in s.rows)
  {
    RunKeepsInvariant(Boot(), actions);
    var s := Run(Boot(), actions);
    var l := s.ledgers[date];
    assert LedgerOk(l, s.runs[date], s.rows, s.nextMatchId);
    LessOfASet(l.top, l.missing);
    LessOfASet(l.skipped, l.missing);
  }

  lemma LessOfASet(whole: set<Row>, part: set<Row>)
    ensures |whole - part| <= |whole|
    ensures |whole - part| == |whole| <==> whole !! part
  {
    assert whole == (whole - part) + whole * part;
  }

  /** The plans not reserved yet. */
  function Waiting(p: Progress): seq<Plan> {
    match p
    case NoRun => []
    case Planning(_, _, _, plans) => plans
    case Sending(_, plans, phase) => if plans == [] || phase == Reserving then plans else plans[1..]
  }

  ghost predicate Spares(plans: seq<Plan>, ids: set<nat>) {
    forall i, row :: 0 <= i < |plans| && row in AllRows(plans[i]) ==> row.0 !in ids
  }

  /** No match is deleted while a plan that names it waits for its reservation. */
  ghost predicate DeletionsSparePlans(s: State, actions: seq<Action>)
    decreases |actions|
  {
    actions != [] ==>
      && (actions[0].Delete? ==> Spares(Waiting(s.progress), actions[0].ids))
      && DeletionsSparePlans(Step(s, actions[0]), actions[1..])
  }

  ghost predicate AllPresent(plans: seq<Plan>, rows: map<Row, Status>) {
    forall i, row :: 0 <= i < |plans| && row in AllRows(plans[i]) ==> row in rows
  }

  ghost predicate NoneMissing(ledgers: map<int, Ledger>) {
    forall d :: d in ledgers ==> ledgers[d].missing == {}
  }

  lemma DeleteMissesNothing(s: State, ids: set<nat>)
    requires AllPresent(Waiting(s.progress), s.rows) && Spares(Waiting(s.progress), ids)
    ensures AllPresent(Waiting(s.progress), DoDelete(s, ids).rows)
  {
  }

  lemma PlanNextMissesNothing(s: State, blocked: bool, queue: seq<Item>)
    requires AllPresent(Waiting(s.progress), s.rows)
    ensures var s' := DoPlanNext(s, blocked, queue); AllPresent(Waiting(s'.progress), s'.rows)
  {
    var s' := DoPlanNext(s, blocked, queue);
    if Waiting(s'.progress) != Waiting(s.progress) {
      var r := s.progress.todo[0];
      PlanIsPending(queue, r, s.progress.topN, s.matches, s.rows);
      assert Waiting(s'.progress) == Waiting(s.progress) + [PlanOf(r, queue, s.progress.topN)];
    }
  }

  lemma ReserveMissesNothing(s: State)
    requires AllPresent(Waiting(s.progress), s.rows) && NoneMissing(s.ledgers) && At(s, Reserving)
    ensures var s' := DoReserve(s); AllPresent(Waiting(s'.progress), s'.rows) && NoneMissing(s'.ledgers)
  {
    var plan := s.progress.plans[0];
    assert plan == Waiting(s.progress)[0];
    assert AllRows(plan) - s.rows.Keys == {};
  }

  /** The steps after a reservation go on to the next plan, or stop. */
  lemma LaterStepsMissNothing(s: State, a: Action)
    requires AllPresent(Waiting(s.progress), s.rows) && NoneMissing(s.ledgers)
    requires !a.Enqueue? && !a.Delete? && !a.Open? && !a.PlanNext? && !a.Reserve?
    ensures var s' := Step(s, a); AllPresent(Waiting(s'.progress), s'.rows) && NoneMissing(s'.ledgers)
  {
    var s' := Step(s, a);
    assert s'.rows.Keys == s.rows.Keys;
    assert Waiting(s'.progress) == Waiting(s.progress) || Waiting(s'.progress) == [];
  }

  lemma {:induction false} RunMissesNothing(s: State, actions: seq<Action>)
    requires AllPresent(Waiting(s.progress), s.rows) && NoneMissing(s.ledgers) && DeletionsSparePlans(s, actions)
    ensures NoneMissing(Run(s, actions).ledgers)
    decreases |actions|
  {
    if actions != [] {
      var a := actions[0];
      if a.Delete? {
        DeleteMissesNothing(s, a.ids);
      } else if a.PlanNext? {
        PlanNextMissesNothing(s, a.blocked, a.queue);
      } else if a.Reserve? {
        if At(s, Reserving) {
          ReserveMissesNothing(s);
        }
      } else if !a.Enqueue? && !a.Open? {
        LaterStepsMissNothing(s, a);
      }
      RunMissesNothing(Step(s, a), actions[1..]);
    }
  }

  /** So the counters count moved rows at every commit, give-backs included, in every run where the
      panel deletes no match between its planning and its reservation. */
  lemma CountersAreExact(actions: seq<Action>, date: int)
    requires DeletionsSparePlans(Boot(), actions) && date in Run(Boot(), actions).runs
    ensures var s := Run(Boot(), actions);
            && date in s.ledgers
            && var l := s.ledgers[date];
               s.runs[date] == Counters(|l.top - l.missing|, |l.skipped - l.missing|)
  {
    RunMissesNothing(Boot(), actions);
    CountersMatchTheRows(actions, date);
  }

  // ---------------------------------------------------------------------------------------------
  // Exactly which reservations count more than they move

  ghost predicate PlansFollow(plans: seq<Plan>, matches: map<nat, Match>, rows: map<Row, Status>, nextMatchId: nat) {
    forall i, row :: 0 <= i < |plans| && row in AllRows(plans[i]) ==>
      row.0 < nextMatchId && (row.0 in matches ==> row in rows)
  }

  /** A row goes when its match goes, and not before. */
  ghost predicate RowsFollowMatches(s: State) {
    && (forall row :: row in s.rows ==> row.0 in s.matches)
    && PlansFollow(Waiting(s.progress), s.matches, s.rows, s.nextMatchId)
  }

  lemma EnqueueKeepsFollowing(s: State, m: Match, recipients: set<int>, status: Status)
    requires RowsFollowMatches(s)
    ensures RowsFollowMatches(DoEnqueue(s, m, recipients, status))
  {
  }

  lemma DeleteKeepsFollowing(s: State, ids: set<nat>)
    requires RowsFollowMatches(s)
    ensures RowsFollowMatches(DoDelete(s, ids))
  {
  }

  lemma OneMorePlanFollows(
      plans: seq<Plan>, plan: Plan, matches: map<nat, Match>, rows: map<Row, Status>, nextMatchId: nat)
    requires PlansFollow(plans, matches, rows, nextMatchId)
    requires forall row :: row in AllRows(plan) ==> row in rows && row.0 < nextMatchId
    ensures PlansFollow(plans + [plan], matches, rows, nextMatchId)
  {
  }

  lemma RowsAreBelow(rows: map<Row, Status>, started: multiset<Row>, confirmed: multiset<Row>, nextMatchId: nat)
    requires RowsOk(rows, started, confirmed, nextMatchId)
    ensures forall row :: row in rows ==> row.0 < nextMatchId
  {
    forall row | row in rows ensures row.0 < nextMatchId {
      assert RowOk(row, rows, started, confirmed);
    }
  }

  /** A planning step leaves the plans as they are, or adds the plan of the queue it found. */
  lemma PlanNextAddsOne(s: State, blocked: bool, queue: seq<Item>)
    ensures var s' := DoPlanNext(s, blocked, queue);
            && s' == s.(progress := s'.progress)
            && (|| Waiting(s'.progress) == Waiting(s.progress)
                || (&& s.progress.Planning? && s.progress.todo != [] && IsQueue(queue, s.matches, s.rows, s.progress.todo[0])
                    && Waiting(s'.progress) == Waiting(s.progress) + [PlanOf(s.progress.todo[0], queue, s.progress.topN)]))
  {
  }

  lemma PlanNextKeepsFollowing(s: State, blocked: bool, queue: seq<Item>)
    requires RowsFollowMatches(s) && RowsOk(s.rows, s.started, s.confirmed, s.nextMatchId)
    ensures RowsFollowMatches(DoPlanNext(s, blocked, queue))
  {
    PlanNextAddsOne(s, blocked, queue);
    if Waiting(DoPlanNext(s, blocked, queue).progress) != Waiting(s.progress) {
      PlanIsPending(queue, s.progress.todo[0], s.progress.topN, s.matches, s.rows);
      RowsAreBelow(s.rows, s.started, s.confirmed, s.nextMatchId);
      OneMorePlanFollows(Waiting(s.progress), PlanOf(s.progress.todo[0], queue, s.progress.topN), s.matches, s.rows, s.nextMatchId);
    }
  }

  lemma LaterStepsKeepFollowing(s: State, a: Action)
    requires RowsFollowMatches(s) && !a.Enqueue? && !a.Delete? && !a.PlanNext?
    ensures RowsFollowMatches(Step(s, a))
  {
    var s' := Step(s, a);
    assert s'.rows.Keys == s.rows.Keys && s'.matches == s.matches && s'.nextMatchId == s.nextMatchId;
    assert Waiting(s'.progress) == Waiting(s.progress) || Waiting(s'.progress) == []
           || Waiting(s'.progress) == Waiting(s.progress)[1..];
  }

  lemma {:induction false} RunKeepsFollowing(s: State, actions: seq<Action>)
    requires RowsFollowMatches(s) && Invariant(s)
    ensures RowsFollowMatches(Run(s, actions))
    decreases |actions|
  {
    if actions != [] {
      var a := actions[0];
      StepKeepsInvariant(s, a);
      if a.Enqueue? {
        EnqueueKeepsFollowing(s, a.m, a.recipients, a.status);
      } else if a.Delete? {
        DeleteKeepsFollowing(s, a.ids);
      } else if a.PlanNext? {
        PlanNextKeepsFollowing(s, a.blocked, a.queue);
      } else {
        LaterStepsKeepFollowing(s, a);
      }
      RunKeepsFollowing(Step(s, a), actions[1..]);
    }
  }

  /** The rows a step moved to `status`. */
  function MovedTo(rows: map<Row, Status>, rows': map<Row, Status>, status: Status): set<Row> {
    set row | row in rows && row in rows' && rows[row] != rows'[row] && rows'[row] == status
  }

  predicate AllThere(items: seq<Item>, matches: map<nat, Match>) {
    forall i :: 0 <= i < |items| ==> items[i].id in matches
  }

  lemma CountedAndMoved(items: seq<Item>, recipient: int, moved: set<Row>, matches: map<nat, Match>)
    requires |RowsOf(items, recipient)| == |items|
    requires moved == set row | row in RowsOf(items, recipient) && row.0 in matches
    ensures |moved| <= |items| && (|moved| == |items| <==> AllThere(items, matches))
  {
    var these := RowsOf(items, recipient);
    var gone := these - moved;
    LessOfASet(these, gone);
    assert these - gone == moved;
    if AllThere(items, matches) {
      assert gone == {};
    } else {
      var i :| 0 <= i < |items| && items[i].id !in matches;
      assert (items[i].id, recipient) in gone;
    }
  }

  lemma ReservationMoves(plan: Plan, rows: map<Row, Status>, matches: map<nat, Match>)
    requires PlanShape(plan)
    requires forall row :: row in AllRows(plan) ==> (row in rows <==> row.0 in matches) && (row in rows ==> rows[row] == Pending)
    ensures MovedTo(rows, ReservedRows(rows, plan), DigestAttempted) == set row | row in TopRows(plan) && row.0 in matches
    ensures MovedTo(rows, ReservedRows(rows, plan), DigestSkipped) == set row | row in OverflowRows(plan) && row.0 in matches
    ensures AllRows(plan) - rows.Keys == set row | row in AllRows(plan) && row.0 !in matches
  {
    var rows' := ReservedRows(rows, plan);
    assert forall row :: row in rows && rows[row] != rows'[row] ==> row in AllRows(plan);
  }

  /** The next plan of a reachable state: untouched, and its rows there exactly when their matches are. */
  lemma NextPlanFollows(actions: seq<Action>)
    requires At(Run(Boot(), actions), Reserving)
    ensures var s := Run(Boot(), actions);
            var plan := s.progress.plans[0];
            && PlanShape(plan)
            && forall row :: row in AllRows(plan) ==>
                 (row in s.rows <==> row.0 in s.matches) && (row in s.rows ==> s.rows[row] == Pending)
  {
    RunKeepsInvariant(Boot(), actions);
    RunKeepsFollowing(Boot(), actions);
    var s := Run(Boot(), actions);
    assert Untouched(s.progress.plans[0], s.rows, s.started, s.ledgers, s.nextMatchId);
    assert s.progress.plans[0] == Waiting(s.progress)[0];
  }

  /** A counter went up by at least the rows moved, and by no more exactly when every item's match is stored. */
  ghost predicate CountsUp(before: int, after: int, moved: set<Row>, items: seq<Item>, matches: map<nat, Match>) {
    && after - before >= |moved|
    && (after - before == |moved| <==> AllThere(items, matches))
  }

  /** Each counter of a reservation is the number of rows it moved exactly when every match planned there is
      still stored, and more otherwise; the rows of deleted matches are the ones it misses. */
  lemma ReservationCountsWhatItMovesIffAllAreThere(actions: seq<Action>)
    requires At(Run(Boot(), actions), Reserving)
    ensures var s := Run(Boot(), actions);
            var s', date, plan := DoReserve(s), s.progress.date, s.progress.plans[0];
            && date in s'.runs && date in s'.ledgers
            && CountsUp(s.runs[date].itemsSent, s'.runs[date].itemsSent, MovedTo(s.rows, s'.rows, DigestAttempted),
                        plan.top, s.matches)
            && CountsUp(s.runs[date].itemsSkipped, s'.runs[date].itemsSkipped, MovedTo(s.rows, s'.rows, DigestSkipped),
                        plan.overflow, s.matches)
            && s'.ledgers[date].missing == s.ledgers[date].missing + set row | row in AllRows(plan) && row.0 !in s.matches
  {
    NextPlanFollows(actions);
    var s := Run(Boot(), actions);
    var plan := s.progress.plans[0];
    ReservationMoves(plan, s.rows, s.matches);
    CountedAndMoved(plan.top, plan.recipient, MovedTo(s.rows, ReservedRows(s.rows, plan), DigestAttempted), s.matches);
    CountedAndMoved(plan.overflow, plan.recipient, MovedTo(s.rows, ReservedRows(s.rows, plan), DigestSkipped), s.matches);
  }

  lemma RunFromStep(s: State, a: Action, rest: seq<Action>)
    ensures Run(s, [a] + rest) == Run(Step(s, a), rest)
  {
    assert ([a] + rest)[1..] == rest;
  }

  lemma {:induction false} RunInTwo(s: State, first: seq<Action>, second: seq<Action>)
    ensures Run(s, first + second) == Run(Run(s, first), second)
    decreases |first|
  {
    if first == [] {
      assert [] + second == second;
    } else {
      assert (first + second)[1..] == first[1..] + second;
      RunInTwo(Step(s, first[0]), first[1..], second);
    }
  }

  lemma RunOfTwo(s: State, a: Action, b: Action)
    ensures Run(s, [a, b]) == Step(Step(s, a), b)
  {
    assert [a, b] == [a] + ([b] + []) && [b] == [b] + [];
    RunFromStep(s, a, [b]);
    RunFromStep(Step(s, a), b, []);
  }

  /** Two matches come in, the first queued for the recipient and the second grouped; ... */
  function TwoEnqueued(m: Match, n: Match, r: int): seq<Action> {
    [Enqueue(m, {r}, Pending), Enqueue(n, {r}, Grouped)]
  }

  /** ... a run plans the first; ... */
  function OnePlanned(m: Match, r: int, date: int, topN: nat): seq<Action> {
    [Open(date, [r], topN), PlanNext(false, [ItemOf(0, m)])]
  }

  /** ... and it goes before its reservation. */
  function DeletedBeforeReservation(): seq<Action> {
    [BeginSending] + [Delete({0}), Reserve]
  }

  function OnePlan(m: Match, r: int): Plan {
    Plan(r, [ItemOf(0, m)], [])
  }

  function BothRows(r: int): map<Row, Status> {
    map[(0, r) := Pending, (1, r) := Grouped]
  }

  lemma TwoAreEnqueued(m: Match, n: Match, r: int)
    ensures Run(Boot(), TwoEnqueued(m, n, r))
            == Boot().(matches := map[0 := m, 1 := n], nextMatchId := 2, rows := BothRows(r))
  {
    RunOfTwo(Boot(), Enqueue(m, {r}, Pending), Enqueue(n, {r}, Grouped));
    assert Step(Boot(), Enqueue(m, {r}, Pending))
           == Boot().(matches := map[0 := m], nextMatchId := 1, rows := map[(0, r) := Pending]);
  }

  lemma OneItemIsTheQueue(m: Match, n: Match, r: int)
    ensures IsQueue([ItemOf(0, m)], map[0 := m, 1 := n], BothRows(r), r)
  {
  }

  lemma OneItemIsPlanned(m: Match, n: Match, r: int, date: int, topN: nat, s: State)
    requires topN >= 1 && s.matches == map[0 := m, 1 := n] && s.rows == BothRows(r) && s.progress.NoRun? && s.runs == map[]
    ensures Run(s, OnePlanned(m, r, date, topN))
            == s.(runs := s.runs[date := Counters(0, 0)], ledgers := s.ledgers[date := Ledger({}, {}, {})],
                  progress := Planning(date, topN, [], [OnePlan(m, r)]))
  {
    var queue := [ItemOf(0, m)];
    var s1 := DoOpen(s, date, [r], topN);
    RunOfTwo(s, Open(date, [r], topN), PlanNext(false, queue));
    assert s1.progress == Planning(date, topN, [r], []);
    OneItemIsTheQueue(m, n, r);
    assert [r][1..] == [] && s1.progress.plans + [OnePlan(m, r)] == [OnePlan(m, r)];
    assert queue[..1] == queue && queue[1..] == [];
    assert PlanOf(r, queue, topN) == OnePlan(m, r);
  }

  lemma RowsOfOnePlan(m: Match, r: int)
    ensures TopRows(OnePlan(m, r)) == {(0, r)} && OverflowRows(OnePlan(m, r)) == {}
  {
    assert OnePlan(m, r).top[0].id == 0;
    assert (0, r) in TopRows(OnePlan(m, r));
  }

  /** The second row is all there is, and still grouped. */
  predicate OnlyTheSecond(rows: map<Row, Status>, r: int) {
    rows.Keys == {(1, r)} && rows[(1, r)] == Grouped
  }

  lemma FirstIsDeleted(s: State, r: int)
    requires s.rows == BothRows(r)
    ensures OnlyTheSecond(DoDelete(s, {0}).rows, r)
  {
    var rows := DoDelete(s, {0}).rows;
    assert (1, r) in rows && rows[(1, r)] == Grouped;
    assert forall row :: row in rows ==> row == (1, r);
  }

  lemma NothingIsReserved(s: State, plan: Plan, r: int, date: int)
    requires OnlyTheSecond(s.rows, r) && s.progress == Sending(date, [plan], Reserving)
    requires date in s.runs && s.runs[date] == Counters(0, 0) && date in s.ledgers && s.ledgers[date] == Ledger({}, {}, {})
    requires |plan.top| == 1 && |plan.overflow| == 0 && TopRows(plan) == {(0, r)} && OverflowRows(plan) == {}
    ensures var s' := DoReserve(s);
            && OnlyTheSecond(s'.rows, r) && date in s'.runs && s'.runs[date] == Counters(1, 0)
            && date in s'.ledgers && s'.ledgers[date] == Ledger({(0, r)}, {}, {(0, r)})
  {
    assert AllRows(plan) - s.rows.Keys == {(0, r)};
  }

  lemma DeletionBeforeReservation(s: State, plan: Plan, r: int, date: int, topN: nat)
    requires s.rows == BothRows(r) && s.progress == Planning(date, topN, [], [plan])
    requires date in s.runs && s.runs[date] == Counters(0, 0) && date in s.ledgers && s.ledgers[date] == Ledger({}, {}, {})
    requires |plan.top| == 1 && |plan.overflow| == 0 && TopRows(plan) == {(0, r)} && OverflowRows(plan) == {}
    ensures var s' := Run(s, DeletedBeforeReservation());
            && OnlyTheSecond(s'.rows, r) && date in s'.runs && s'.runs[date] == Counters(1, 0)
            && date in s'.ledgers && s'.ledgers[date] == Ledger({(0, r)}, {}, {(0, r)})
  {
    var s1 := s.(progress := Sending(date, [plan], Reserving));
    RunFromStep(s, BeginSending, [Delete({0}), Reserve]);
    assert Step(s, BeginSending) == s1;
    RunOfTwo(s1, Delete({0}), Reserve);
    FirstIsDeleted(s1, r);
    NothingIsReserved(DoDelete(s1, {0}), plan, r, date);
  }

  /** The excess does arise: the run's record says one item was sent, and no row was moved. */
  lemma DeletedMatchIsCountedAsSent(m: Match, n: Match, r: int, date: int, topN: nat)
    requires topN >= 1
    ensures var s := Run(Boot(), TwoEnqueued(m, n, r) + (OnePlanned(m, r, date, topN) + DeletedBeforeReservation()));
            && OnlyTheSecond(s.rows, r) && date in s.runs && s.runs[date] == Counters(1, 0)
            && date in s.ledgers && s.ledgers[date] == Ledger({(0, r)}, {}, {(0, r)})
  {
    RunInTwo(Boot(), TwoEnqueued(m, n, r), OnePlanned(m, r, date, topN) + DeletedBeforeReservation());
    TwoAreEnqueued(m, n, r);
    var s1 := Run(Boot(), TwoEnqueued(m, n, r));
    RunInTwo(s1, OnePlanned(m, r, date, topN), DeletedBeforeReservation());
    OneItemIsPlanned(m, n, r, date, topN, s1);
    RowsOfOnePlan(m, r);
    DeletionBeforeReservation(Run(s1, OnePlanned(m, r, date, topN)), OnePlan(m, r), r, date, topN);
  }

  // ---------------------------------------------------------------------------------------------
  // One run a day

  lemma StepKeepsDates(s: State, a: Action)
    ensures s.runs.Keys <= Step(s, a).runs.Keys
  {
  }

  lemma {:induction false} RunKeepsDates(s: State, actions: seq<Action>)
    ensures s.runs.Keys <= Run(s, actions).runs.Keys
    decreases |actions|
  {
    if actions != [] {
      StepKeepsDates(s, actions[0]);
      RunKeepsDates(Step(s, actions[0]), actions[1..]);
    }
  }

  /** A date that was opened once stays closed: however the run went, stopped half way or not, and whatever came
      after it, no second run of that date starts. */
  lemma OneRunADay(before: seq<Action>, date: int, eligible: seq<int>, topN: nat, after: seq<Action>, again: seq<int>, n: nat)
    requires Run(Boot(), before).progress.NoRun? && date !in Run(Boot(), before).runs && NoRepeats(eligible)
    ensures var s := Run(Boot(), before + ([Open(date, eligible, topN)] + after));
            date in s.runs && Step(s, Open(date, again, n)) == s
    ensures Step(Run(Boot(), before), Open(date, eligible, topN)).progress == Planning(date, topN, eligible, [])
  {
    RunInTwo(Boot(), before, [Open(date, eligible, topN)] + after);
    RunFromStep(Run(Boot(), before), Open(date, eligible, topN), after);
    RunKeepsDates(Step(Run(Boot(), before), Open(date, eligible, topN)), after);
  }

  // ---------------------------------------------------------------------------------------------
  // One whole run

  /** How the Bot API, or the notifier before it, answers a digest call. */
  datatype Reply = Accepts | Raises | Refuses

  /** What a run makes of one row of a planned recipient. */
  function FinalStatus(plan: Plan, reply: Reply, row: Row, status: Status): Status {
    if status != Pending || reply == Refuses then status
    else if row in TopRows(plan) then (if reply == Accepts then Sent else DigestAttempted)
    else if row in OverflowRows(plan) then DigestSkipped else status
  }

  /** A recipient's own rows after their plan was handled. */
  ghost predicate Handled(plan: Plan, reply: Reply, rows: map<Row, Status>, rows': map<Row, Status>) {
    forall row :: row in rows && row in rows' && row.1 == plan.recipient ==>
      rows'[row] == FinalStatus(plan, reply, row, rows[row])
  }

  /** A plan takes the cheapest items: the cut falls after `min(topN, |queue|)` of them. */
  lemma PlanTakesTheCheapest(queue: seq<Item>, recipient: int, topN: nat, matches: map<nat, Match>, rows: map<Row, Status>)
    requires IsQueue(queue, matches, rows, recipient)
    ensures var plan := PlanOf(recipient, queue, topN);
            && |plan.top| == (if topN < |queue| then topN else |queue|)
            && (forall item :: Queued(item, matches, rows, recipient) <==> item in plan.top || item in plan.overflow)
            && (forall a, b :: a in plan.top && b in plan.overflow ==>
                  NoWorse(a.price, a.matchedAt, a.id, b.price, b.matchedAt, b.id))
            && (forall row :: row in rows && row.1 == recipient && rows[row] == Pending && row.0 in matches ==>
                  row in AllRows(plan))
  {
    var plan := PlanOf(recipient, queue, topN);
    QueueIsCheapestFirst(queue, matches, rows, recipient);
    assert queue == plan.top + plan.overflow;
    forall a, b | a in plan.top && b in plan.overflow ensures NoWorse(a.price, a.matchedAt, a.id, b.price, b.matchedAt, b.id) {
      var i :| 0 <= i < |plan.top| && plan.top[i] == a;
      var j :| 0 <= j < |plan.overflow| && plan.overflow[j] == b;
      assert queue[i] == a && queue[|plan.top| + j] == b;
    }
    forall row | row in rows && row.1 == recipient && rows[row] == Pending && row.0 in matches
      ensures row in AllRows(plan)
    {
      var item := ItemOf(row.0, matches[row.0]);
      assert Queued(item, matches, rows, recipient);
      assert item in plan.top || item in plan.overflow;
    }
  }

  lemma RunAppend(s: State, actions: seq<Action>, a: Action)
    ensures Run(s, actions + [a]) == Step(Run(s, actions), a)
  {
    RunInTwo(s, actions, [a]);
    assert [a] == [a] + [];
    RunFromStep(Run(s, actions), a, []);
  }

  /** The recipient had a plan, and their rows ended as it and the reply say. */
  ghost predicate HandledFor(before: State, recipient: int, topN: nat, reply: Reply, rows: map<Row, Status>) {
    exists queue :: IsQueue(queue, before.matches, before.rows, recipient)
                    && Handled(PlanOf(recipient, queue, topN), reply, before.rows, rows)
  }

  /** The matches a recipient's digest carried: those whose row went from pending to `carried`. */
  function Carried(before: State, r: int, rows: map<Row, Status>, carried: Status): set<nat> {
    set id | id in before.matches && (id, r) in before.rows && before.rows[(id, r)] == Pending
             && (id, r) in rows && rows[(id, r)] == carried
  }

  function PendingOf(before: State, r: int): set<nat> {
    set id | id in before.matches && (id, r) in before.rows && before.rows[(id, r)] == Pending
  }

  /** What a run means for one recipient, on the fields: a call that was refused moves nothing; otherwise the
      `topN` best pending matches go out, no one left over is better, and the rest is skipped. */
  ghost predicate BestGoOut(before: State, r: int, topN: nat, reply: Reply, rows: map<Row, Status>) {
    var pending := PendingOf(before, r);
    var carried := Carried(before, r, rows, if reply == Accepts then Sent else DigestAttempted);
    && (forall row :: row in rows && row in before.rows && row.1 == r && (reply == Refuses || before.rows[row] != Pending) ==>
          rows[row] == before.rows[row])
    && (reply != Refuses ==>
          && |carried| == (if topN < |pending| then topN else |pending|)
          && (forall id :: id in pending - carried && (id, r) in rows ==> rows[(id, r)] == DigestSkipped)
          && forall a, b :: a in carried && b in pending - carried ==>
               NoWorse(before.matches[a].price, before.matches[a].matchedAt, a,
                       before.matches[b].price, before.matches[b].matchedAt, b))
  }

  lemma TopIsCarried(before: State, r: int, topN: nat, reply: Reply, rows: map<Row, Status>, queue: seq<Item>)
    requires IsQueue(queue, before.matches, before.rows, r) && rows.Keys == before.rows.Keys && reply != Refuses
    requires Handled(PlanOf(r, queue, topN), reply, before.rows, rows)
    ensures var plan := PlanOf(r, queue, topN);
            && Carried(before, r, rows, if reply == Accepts then Sent else DigestAttempted) == IdsOf(plan.top)
            && forall id :: id in PendingOf(before, r) && !(exists a :: a in plan.top && a.id == id) ==>
                 rows[(id, r)] == DigestSkipped && exists b :: b in plan.overflow && b.id == id
  {
    var plan := PlanOf(r, queue, topN);
    PlanTakesTheCheapest(queue, r, topN, before.matches, before.rows);
    forall a | a in plan.top ensures (a.id, r) in TopRows(plan) {
      var i :| 0 <= i < |plan.top| && plan.top[i] == a;
      assert plan.top[i].id == a.id;
    }
    forall id | id in PendingOf(before, r) && !(exists a :: a in plan.top && a.id == id)
      ensures rows[(id, r)] == DigestSkipped && exists b :: b in plan.overflow && b.id == id
    {
      assert (id, r) in AllRows(plan) && (id, r) !in TopRows(plan);
    }
  }

  function IdsOf(items: seq<Item>): set<nat> {
    set a | a in items :: a.id
  }

  lemma {:induction false} IdsOfSize(items: seq<Item>)
    requires forall i, j :: 0 <= i < j < |items| ==> items[i].id != items[j].id
    ensures |IdsOf(items)| == |items|
  {
    if items != [] {
      var rest, last := items[..|items| - 1], items[|items| - 1];
      IdsOfSize(rest);
      assert items == rest + [last];
      assert last.id !in IdsOf(rest);
      assert IdsOf(items) == IdsOf(rest) + {last.id};
    }
  }

  /** So a run sends each recipient the cheapest pending offers, and as many as it may. */
  lemma HandledMeansBestGoOut(before: State, r: int, topN: nat, reply: Reply, rows: map<Row, Status>)
    requires HandledFor(before, r, topN, reply, rows) && rows.Keys == before.rows.Keys
    ensures BestGoOut(before, r, topN, reply, rows)
  {
    var queue :| IsQueue(queue, before.matches, before.rows, r) && Handled(PlanOf(r, queue, topN), reply, before.rows, rows);
    if reply != Refuses {
      var plan := PlanOf(r, queue, topN);
      TopIsCarried(before, r, topN, reply, rows, queue);
      QueueIdsDiffer(queue, r, before.matches, before.rows);
      IdsOfSize(plan.top);
      IdsOfSize(queue);
      QueueIsCheapestFirst(queue, before.matches, before.rows, r);
      assert PendingOf(before, r) == IdsOf(queue);
      PlanTakesTheCheapest(queue, r, topN, before.matches, before.rows);
    }
  }

  /** Every unblocked recipient with a queue has its plan, and nobody else has one. */
  ghost predicate Planned(
      plans: seq<Plan>, recipients: seq<int>, blocked: set<int>, topN: nat, matches: map<nat, Match>, rows: map<Row, Status>) {
    && (forall plan :: plan in plans ==> PlanFrom(plan, topN, matches, rows) && plan.recipient in recipients && plan.recipient !in blocked)
    && (forall r :: r in recipients && r !in blocked ==> HasPlan(plans, r) || IsQueue([], matches, rows, r))
  }

  ghost predicate HasPlan(plans: seq<Plan>, recipient: int) {
    exists plan :: plan in plans && plan.recipient == recipient
  }

  ghost predicate PlanFrom(plan: Plan, topN: nat, matches: map<nat, Match>, rows: map<Row, Status>) {
    exists queue :: IsQueue(queue, matches, rows, plan.recipient) && plan == PlanOf(plan.recipient, queue, topN)
  }

  lemma PlannedOneMore(
      plans: seq<Plan>, recipients: seq<int>, blocked: set<int>, topN: nat, matches: map<nat, Match>,
      rows: map<Row, Status>, r: int, queue: seq<Item>)
    requires Planned(plans, recipients, blocked, topN, matches, rows) && IsQueue(queue, matches, rows, r)
    requires r !in blocked
    ensures Planned(plans + [PlanOf(r, queue, topN)], recipients + [r], blocked, topN, matches, rows)
    ensures queue == [] ==> Planned(plans, recipients + [r], blocked, topN, matches, rows)
  {
    var plans' := plans + [PlanOf(r, queue, topN)];
    assert PlanFrom(PlanOf(r, queue, topN), topN, matches, rows);
    assert PlanOf(r, queue, topN) in plans';
    forall other | HasPlan(plans, other) ensures HasPlan(plans', other) {
      var plan :| plan in plans && plan.recipient == other;
      assert plan in plans';
    }
  }

  lemma NextPlanIsPending(s: State)
    requires Invariant(s) && At(s, Reserving)
    ensures var plan := s.progress.plans[0];
            && TopRows(plan) !! OverflowRows(plan)
            && (forall row :: row in AllRows(plan) && row in s.rows ==> s.rows[row] == Pending)
            && (forall i :: 0 < i < |s.progress.plans| ==> s.progress.plans[i].recipient != plan.recipient)
  {
    assert Untouched(s.progress.plans[0], s.rows, s.started, s.ledgers, s.nextMatchId);
  }

  /** What is already sent, and what still waits, in the middle of a run. */
  ghost predicate SentSoFar(plans: seq<Plan>, k: nat, replies: int -> Reply, rows: map<Row, Status>, rows': map<Row, Status>)
    requires k <= |plans|
  {
    && rows'.Keys == rows.Keys
    && (forall i :: 0 <= i < k ==> Handled(plans[i], replies(plans[i].recipient), rows, rows'))
    && (forall row :: row in rows && (forall i :: 0 <= i < k ==> plans[i].recipient != row.1) ==> rows'[row] == rows[row])
  }

  lemma SentOneMore(
      plans: seq<Plan>, k: nat, replies: int -> Reply, rows: map<Row, Status>, rows': map<Row, Status>,
      rows'': map<Row, Status>)
    requires k < |plans| && RecipientsDiffer(plans) && SentSoFar(plans, k, replies, rows, rows')
    requires rows''.Keys == rows.Keys && Handled(plans[k], replies(plans[k].recipient), rows', rows'')
    requires forall row :: row in rows' && row.1 != plans[k].recipient ==> rows''[row] == rows'[row]
    ensures SentSoFar(plans, k + 1, replies, rows, rows'')
  {
    forall i | 0 <= i <= k ensures Handled(plans[i], replies(plans[i].recipient), rows, rows'') {
    }
  }

  /** The rows after a plan was reserved and its call answered. */
  function AnsweredRows(rows: map<Row, Status>, plan: Plan, reply: Reply): map<Row, Status> {
    var reserved := ReservedRows(rows, plan);
    match reply
    case Accepts => MarkDeliveries(reserved, TopRows(plan), DigestAttempted, Sent)
    case Raises => reserved
    case Refuses => ReturnedRows(reserved, plan)
  }

  lemma AnsweredPlanIsHandled(plan: Plan, reply: Reply, rows: map<Row, Status>)
    requires TopRows(plan) !! OverflowRows(plan)
    requires forall row :: row in AllRows(plan) && row in rows ==> rows[row] == Pending
    ensures Handled(plan, reply, rows, AnsweredRows(rows, plan, reply))
    ensures AnsweredRows(rows, plan, reply).Keys == rows.Keys
    ensures forall row :: row in rows && row.1 != plan.recipient ==> AnsweredRows(rows, plan, reply)[row] == rows[row]
  {
  }

  function SentPlan(s: State, reply: Reply): State {
    match reply
    case Refuses => DoGiveBack(DoCallRefused(DoReserve(s)))
    case Raises => DoCallRaised(DoCallStarts(DoReserve(s)))
    case Accepts => DoMarkSent(DoCallAccepted(DoCallStarts(DoReserve(s))))
  }

  /** The first plan is done with: its rows are as its reply says, and the run goes on to the next. */
  ghost predicate PlanWasSent(s: State, s': State, reply: Reply) {
    && At(s, Reserving) && s'.progress == NextPlan(s.progress)
    && s'.rows == AnsweredRows(s.rows, s.progress.plans[0], reply)
    && s'.matches == s.matches && s'.runs.Keys == s.runs.Keys && s'.ledgers.Keys == s.ledgers.Keys
  }

  lemma SentPlanIsAnswered(s: State, reply: Reply)
    requires At(s, Reserving)
    ensures PlanWasSent(s, SentPlan(s, reply), reply)
  {
    match reply {
      case Refuses => RefusedPlan(s);
      case Raises => RaisedPlan(s);
      case Accepts => AcceptedPlan(s);
    }
  }

  lemma RefusedPlan(s: State)
    requires At(s, Reserving)
    ensures PlanWasSent(s, DoGiveBack(DoCallRefused(DoReserve(s))), Refuses)
  {
    var s1 := DoReserve(s);
    assert At(s1, Reserved) && s1.progress.plans == s.progress.plans;
    var s2 := DoCallRefused(s1);
    assert At(s2, TurnedAway);
  }

  lemma RaisedPlan(s: State)
    requires At(s, Reserving)
    ensures PlanWasSent(s, DoCallRaised(DoCallStarts(DoReserve(s))), Raises)
  {
    var s1 := DoReserve(s);
    assert At(s1, Reserved) && s1.progress.plans == s.progress.plans;
    var s2 := DoCallStarts(s1);
    assert At(s2, Calling);
  }

  lemma AcceptedPlan(s: State)
    requires At(s, Reserving)
    ensures PlanWasSent(s, DoMarkSent(DoCallAccepted(DoCallStarts(DoReserve(s)))), Accepts)
  {
    var s1 := DoReserve(s);
    assert At(s1, Reserved) && s1.progress.plans == s.progress.plans;
    var s2 := DoCallStarts(s1);
    assert At(s2, Calling);
    var s3 := DoCallAccepted(s2);
    assert At(s3, Delivered);
  }

  /** The digest's side of the database, and the run under way. */
  class DigestRunner {
    var state: State
    ghost var actions: seq<Action>

    /** The object's history is a run of the machine, so the promises above hold of it. */
    ghost predicate Valid()
      reads this
    {
      state == Run(Boot(), actions)
    }

    constructor ()
      ensures Valid() && state == Boot()
    {
      state := Boot();
      actions := [];
    }

    /** Takes one step of the machine. */
    method Take(ghost a: Action, next: State)
      requires Valid() && next == Step(state, a)
      modifies this
      ensures Valid() && state == next && actions == old(actions) + [a]
    {
      RunAppend(Boot(), actions, a);
      state := next;
      actions := actions + [a];
    }

    /** The notifier refuses before calling: the reservation is given back. */
    method TurnAway()
      requires Valid() && At(state, Reserved)
      modifies this
      ensures Valid() && state == DoGiveBack(DoCallRefused(old(state)))
    {
      Take(CallRefused, DoCallRefused(state));
      Take(GiveBack, DoGiveBack(state));
    }

    /** The call starts, and returns or raises. */
    method Call(accepted: bool)
      requires Valid() && At(state, Reserved)
      modifies this
      ensures Valid()
      ensures state == (if accepted then DoMarkSent(DoCallAccepted(DoCallStarts(old(state))))
                        else DoCallRaised(DoCallStarts(old(state))))
    {
      Take(CallStarts, DoCallStarts(state));
      if accepted {
        Take(CallAccepted, DoCallAccepted(state));
        Take(MarkSent, DoMarkSent(state));
      } else {
        Take(CallRaised, DoCallRaised(state));
      }
    }

    /** One recipient's plan: reserve, call, and write what came of it. */
    method SendPlan(reply: Reply)
      requires Valid() && At(state, Reserving)
      modifies this
      ensures Valid() && state == SentPlan(old(state), reply)
    {
      Take(Reserve, DoReserve(state));
      if reply == Refuses {
        TurnAway();
      } else {
        Call(reply == Accepts);
      }
    }

    method PlanRecipients(blocked: set<int>)
      requires Valid() && state.progress.Planning? && state.progress.plans == []
      modifies this
      ensures Valid() && state.progress.Sending? && state.progress.phase == Reserving
      ensures state == old(state).(progress := state.progress) && state.progress.date == old(state.progress.date)
      ensures Planned(state.progress.plans, old(state.progress.todo), blocked, old(state.progress.topN), state.matches, state.rows)
    {
      var date, topN, recipients := state.progress.date, state.progress.topN, state.progress.todo;
      ghost var k := 0;
      while state.progress.todo != []
        invariant Valid() && 0 <= k <= |recipients| && state.progress.Planning?
        invariant state.progress == Planning(date, topN, recipients[k..], state.progress.plans)
        invariant state == old(state).(progress := state.progress)
        invariant Planned(state.progress.plans, recipients[..k], blocked, topN, state.matches, state.rows)
        decreases |state.progress.todo|
      {
        var p := state.progress;
        var r := p.todo[0];
        assert recipients[..k + 1] == recipients[..k] + [r];
        if r in blocked {
          Take(PlanNext(true, []), state.(progress := p.(todo := p.todo[1..])));
        } else {
          var queue := LoadPendingQueue(state.matches, state.rows, r);
          PlannedOneMore(p.plans, recipients[..k], blocked, topN, state.matches, state.rows, r, queue);
          if queue == [] {
            Take(PlanNext(false, queue), state.(progress := p.(todo := p.todo[1..])));
          } else {
            Take(PlanNext(false, queue),
                 state.(progress := p.(todo := p.todo[1..], plans := p.plans + [PlanOf(r, queue, topN)])));
          }
        }
        k := k + 1;
      }
      assert recipients[..k] == recipients;
      Take(BeginSending, state.(progress := Sending(date, state.progress.plans, Reserving)));
    }

    method SendPlans(replies: int -> Reply)
      requires Valid() && state.progress.Sending? && state.progress.phase == Reserving
      requires state.progress.date in state.runs && state.progress.date in state.ledgers
      requires RecipientsDiffer(state.progress.plans)
      modifies this
      ensures Valid() && state.runs.Keys == old(state).runs.Keys && state.matches == old(state).matches
      ensures SentSoFar(old(state.progress).plans, |old(state.progress).plans|, replies, old(state).rows, state.rows)
    {
      var plans := state.progress.plans;
      ghost var k := 0;
      while state.progress.plans != []
        invariant Valid() && 0 <= k <= |plans|
        invariant state.progress == Sending(old(state.progress).date, plans[k..], Reserving)
        invariant state.runs.Keys == old(state).runs.Keys && state.ledgers.Keys == old(state).ledgers.Keys
        invariant state.matches == old(state).matches
        invariant SentSoFar(plans, k, replies, old(state).rows, state.rows)
        decreases |state.progress.plans|
      {
        ghost var rows := state.rows;
        RunKeepsInvariant(Boot(), actions);
        NextPlanIsPending(state);
        var plan := state.progress.plans[0];
        AnsweredPlanIsHandled(plan, replies(plan.recipient), rows);
        SentPlanIsAnswered(state, replies(plan.recipient));
        SendPlan(replies(plan.recipient));
        SentOneMore(plans, k, replies, old(state).rows, rows, state.rows);
        k := k + 1;
      }
    }

    /** One tick's run: at most one per local date. Each unblocked recipient's queue is cut at `topN`
        and ends as its call was answered; nobody else's rows move. */
    method RunDigestOnce(date: int, recipients: seq<int>, blocked: set<int>, topN: nat, replies: int -> Reply)
      returns (ran: bool)
      requires Valid() && state.progress.NoRun? && NoRepeats(recipients)
      modifies this
      ensures Valid() && state.progress.NoRun? && ran == (date !in old(state).runs)
      ensures !ran ==> state == old(state)
      ensures state.rows.Keys == old(state).rows.Keys && state.matches == old(state).matches
      ensures ran ==> state.runs.Keys == old(state).runs.Keys + {date}
      ensures ran ==> forall r :: r in recipients && r !in blocked ==>
        HandledFor(old(state), r, topN, replies(r), state.rows) && BestGoOut(old(state), r, topN, replies(r), state.rows)
      ensures ran ==> forall row :: row in state.rows && (row.1 !in recipients || row.1 in blocked) ==>
        state.rows[row] == old(state).rows[row]
    {
      if date in state.runs {
        return false;
      }
      Take(Open(date, recipients, topN), DoOpen(state, date, recipients, topN));
      PlanRecipients(blocked);
      RunKeepsInvariant(Boot(), actions);
      ghost var plans := state.progress.plans;
      SendPlans(replies);
      RunHandlesEveryone(old(state), plans, recipients, blocked, topN, replies, state.rows);
      forall r | r in recipients && r !in blocked ensures BestGoOut(old(state), r, topN, replies(r), state.rows) {
        HandledMeansBestGoOut(old(state), r, topN, replies(r), state.rows);
      }
      Take(Stop, state.(progress := NoRun));
      return true;
    }
  }

  lemma RunHandlesEveryone(
      before: State, plans: seq<Plan>, recipients: seq<int>, blocked: set<int>, topN: nat, replies: int -> Reply,
      rows: map<Row, Status>)
    requires Planned(plans, recipients, blocked, topN, before.matches, before.rows)
    requires SentSoFar(plans, |plans|, replies, before.rows, rows)
    ensures forall r :: r in recipients && r !in blocked ==> HandledFor(before, r, topN, replies(r), rows)
    ensures forall row :: row in rows && (row.1 !in recipients || row.1 in blocked) ==> rows[row] == before.rows[row]
  {
    forall r | r in recipients && r !in blocked ensures HandledFor(before, r, topN, replies(r), rows) {
      if HasPlan(plans, r) {
        var i :| 0 <= i < |plans| && plans[i].recipient == r;
        assert plans[i] in plans && PlanFrom(plans[i], topN, before.matches, before.rows);
      } else {
        assert IsQueue([], before.matches, before.rows, r);
        assert Handled(PlanOf(r, [], topN), replies(r), before.rows, rows);
      }
    }
  }
}
