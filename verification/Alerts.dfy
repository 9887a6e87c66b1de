/** Alert delivery in one listener process: live messages, the in-place send retries, the periodic
    resend, deletions from the panel and crashes, interleaved at every point where the program waits.

    `Step` does nothing when an action is not possible, so a run is any sequence of actions. */
module Alerts {
  import opened Options
  import opened Pipeline

  type Pair = (nat, int)

  /** A match whose alerts are going out: recipients left, and the outcomes collected so far. */
  datatype Task = Task(kind: Kind, todo: seq<int>, attempts: nat, calling: bool, outcomes: map<int, Status>)

  datatype Phase = Ready | Calling | Marking

  /** The periodic resend; there is one such loop, so at most one pass. */
  datatype Resend = NoPass | Pass(todo: seq<DeliveryKey>, phase: Phase)

  /** `confirmed` counts the Bot API calls that returned normally, per match and recipient. `created`, `persistedAt`, `channel` and `sentAt` remember every match ever stored: its row, when it was
      stored, the channel it was cleared to alert on, and when it first had a `sent` row. */
  datatype System = System(
    db: Db, seen: set<Signature>, delivered: set<Pair>, tasks: map<nat, Task>, resend: Resend,
    confirmed: multiset<Pair>, clock: nat,
    created: map<nat, Match>, persistedAt: map<nat, nat>, channel: map<nat, Kind>, sentAt: map<nat, nat>)

  /** What the notifier knows before calling: nothing is in the way, or a reason not to call at all. */
  datatype Gate = Allowed | Refused(reason: Status)

  datatype Action =
    | Live(panel: Panel, message: Message, rule: Rule, text: Text, candidates: seq<int>)
    | LiveRolledBack(message: Message, rule: Rule, text: Text)
    | HistoricalMatch(panel: Panel, message: Message, rule: Rule, text: Text, candidates: seq<int>)
    | Delete(ids: set<nat>)
    | DigestRow(key: DeliveryKey, status: Status)
    | CallBegin(id: nat, gate: Gate)
    | CallReturned(id: nat)
    | CallRaised(id: nat)
    | Record(id: nat)
    | Abandon(id: nat)
    | ResendLoad(keys: seq<DeliveryKey>)
    | ResendCall(gate: Gate)
    | ResendReturned
    | ResendRaised
    | ResendMark
    | ResendMarkLost
    | Crash

  // ---------------------------------------------------------------------------------------------
  // The steps

  /** Books a match the write phase stored, if it stored one. */
  function Booked(s: System, db: Db, seen: set<Signature>): System {
    var id := s.db.nextMatchId;
    if db.nextMatchId == id || id !in db.matches then s.(db := db, seen := seen)
    else s.(db := db, seen := seen, created := s.created[id := db.matches[id]],
            persistedAt := s.persistedAt[id := s.clock])
  }

  function DoLive(s: System, a: Action): System
    requires a.Live?
  {
    match WritePhase(a.panel, s.db, s.seen, a.message, a.rule, a.text, a.candidates)
    case Finished(db, seen, _) => Booked(s, db, seen)
    case ToSend(db, seen, id, kind, recipients) =>
      Booked(s, db, seen).(tasks := s.tasks[id := Task(kind, recipients, 0, false, map[])],
                           channel := s.channel[id := kind])
  }

  /** The non-notifying path: a match and `historical` rows, no cursor, no cache, no task. */
  function HistoricalWrite(
      panel: Panel, db: Db, message: Message, rule: Rule, text: Text, candidates: seq<int>): Db {
    match Evaluate(rule, text)
    case Discarded(_) => db
    case Accepted(price) =>
      var stored := PersistMatch(db, NewRow(message, rule, price));
      if stored.None? then db
      else
        var recipients := Eligible(panel, candidates, rule.id, DecideKind(rule, price) == Target);
        AddRows(stored.value, Rows(db.nextMatchId, recipients, Immediate, Historical))
  }

  /** Every stored match of the same chat messages as the matches named. */
  function WithSiblings(db: Db, ids: set<nat>): set<nat> {
    set id | id in db.matches &&
      (id in ids ||
       exists other :: other in ids && other in db.matches && db.matches[other].messageId.Some?
         && db.matches[id].messageId == db.matches[other].messageId && db.matches[id].source == db.matches[other].source)
  }

  function DeleteMatches(db: Db, ids: set<nat>): Db {
    var gone := WithSiblings(db, ids);
    db.(matches := db.matches - gone,
        suppressed := db.suppressed + set id | id in gone && db.matches[id].messageId.Some?
                                        :: (db.matches[id].source, db.matches[id].messageId.value),
        deliveries := map key | key in db.deliveries && key.matchId !in gone :: db.deliveries[key])
  }

  /** The head recipient is settled with `status`; the next one starts afresh. */
  function Settled(t: Task, status: Status): Task
    requires t.todo != []
  {
    Task(t.kind, t.todo[1..], 0, false, t.outcomes[t.todo[0] := status])
  }

  function DoCallBegin(s: System, id: nat, gate: Gate): System {
    if id !in s.tasks || s.tasks[id].todo == [] || s.tasks[id].calling then s
    else
      var t := s.tasks[id];
      if gate.Refused? then
        (if gate.reason in {NotConfigured, NotAllowlisted} then s.(tasks := s.tasks[id := Settled(t, gate.reason)]) else s)
      else if (id, t.todo[0]) in s.delivered then s.(tasks := s.tasks[id := Settled(t, Duplicate)])
      else s.(tasks := s.tasks[id := t.(calling := true)])
  }

  function DoCallReturned(s: System, id: nat): System {
    if id !in s.tasks || s.tasks[id].todo == [] || !s.tasks[id].calling then s
    else
      var t := s.tasks[id];
      s.(tasks := s.tasks[id := Settled(t, Sent)],
         confirmed := s.confirmed + multiset{(id, t.todo[0])}, delivered := s.delivered + {(id, t.todo[0])})
  }

  function DoCallRaised(s: System, id: nat): System {
    if id !in s.tasks || s.tasks[id].todo == [] || !s.tasks[id].calling then s
    else
      var t := s.tasks[id];
      s.(tasks := s.tasks[id :=
           if t.attempts + 1 >= NOTIFY_ATTEMPTS then Settled(t, Failed)
           else t.(attempts := t.attempts + 1, calling := false)])
  }

  function OutcomeRows(id: nat, t: Task): map<DeliveryKey, Status> {
    map r | r in t.outcomes :: DeliveryKey(id, r, t.kind) := t.outcomes[r]
  }

  predicate AnySent(t: Task) {
    exists r :: r in t.outcomes && t.outcomes[r] == Sent
  }

  function FirstSent(s: System, id: nat): map<nat, nat> {
    if id in s.sentAt then s.sentAt else s.sentAt[id := s.clock]
  }

  function DoRecord(s: System, id: nat): System {
    if id !in s.tasks || s.tasks[id].todo != [] then s
    else
      var t := s.tasks[id];
      s.(db := AddRows(s.db, OutcomeRows(id, t)), tasks := s.tasks - {id},
         sentAt := if AnySent(t) then FirstSent(s, id) else s.sentAt)
  }

  predicate Resendable(s: System, key: DeliveryKey) {
    && key in s.db.deliveries && s.db.deliveries[key] == Failed && key.kind in {Immediate, Target}
    && key.matchId in s.db.matches
  }

  /** No pass is under way: none was started, or the last one worked off its list. */
  predicate Idle(s: System) {
    s.resend.NoPass? || s.resend.todo == []
  }

  function DoResendLoad(s: System, keys: seq<DeliveryKey>): System {
    if Idle(s) && forall key :: key in keys ==> Resendable(s, key) then s.(resend := Pass(keys, Ready)) else s
  }

  function DoResendCall(s: System, gate: Gate): System {
    if s.resend.NoPass? || s.resend.todo == [] || s.resend.phase != Ready then s
    else
      var key := s.resend.todo[0];
      var pair := (key.matchId, key.recipient);
      if gate.Refused? then s.(resend := Pass(s.resend.todo[1..], Ready))
      else if pair in s.delivered then s.(resend := s.resend.(phase := Marking))
      else s.(resend := s.resend.(phase := Calling))
  }

  function DoResendReturned(s: System): System {
    if s.resend.NoPass? || s.resend.todo == [] || s.resend.phase != Calling then s
    else
      var pair := (s.resend.todo[0].matchId, s.resend.todo[0].recipient);
      s.(resend := s.resend.(phase := Marking), confirmed := s.confirmed + multiset{pair},
         delivered := s.delivered + {pair})
  }

  function DoResendRaised(s: System): System {
    if s.resend.Pass? && s.resend.todo != [] && s.resend.phase == Calling then
      s.(resend := Pass(s.resend.todo[1..], Ready))
    else s
  }

  function DoResendMarkLost(s: System): System {
    if s.resend.Pass? && s.resend.todo != [] && s.resend.phase == Marking then s.(resend := NoPass) else s
  }

  function DoResendMark(s: System): System {
    if s.resend.NoPass? || s.resend.todo == [] || s.resend.phase != Marking then s
    else
      var key := s.resend.todo[0];
      var s' := s.(resend := Pass(s.resend.todo[1..], Ready));
      if key in s.db.deliveries && s.db.deliveries[key] == Failed then
        s'.(db := s.db.(deliveries := s.db.deliveries[key := Sent]), sentAt := FirstSent(s, key.matchId))
      else s'
  }

  function Effect(s: System, a: Action): System {
    match a
    case Live(_, _, _, _, _) => DoLive(s, a)
    case LiveRolledBack(message, rule, text) => s.(seen := SeenAfterRollback(s.seen, message, rule, text))
    case HistoricalMatch(panel, message, rule, text, candidates) =>
      Booked(s, HistoricalWrite(panel, s.db, message, rule, text, candidates), s.seen)
    case Delete(ids) => s.(db := DeleteMatches(s.db, ids))
    case DigestRow(key, status) =>
      if key in s.db.deliveries && key.kind == Digest then
        s.(db := s.db.(deliveries := s.db.deliveries[key := status]))
      else s
    case CallBegin(id, gate) => DoCallBegin(s, id, gate)
    case CallReturned(id) => DoCallReturned(s, id)
    case CallRaised(id) => DoCallRaised(s, id)
    case Record(id) => DoRecord(s, id)
    case Abandon(id) => s.(tasks := s.tasks - {id})
    case ResendLoad(keys) => DoResendLoad(s, keys)
    case ResendCall(gate) => DoResendCall(s, gate)
    case ResendReturned => DoResendReturned(s)
    case ResendRaised => DoResendRaised(s)
    case ResendMark => DoResendMark(s)
    case ResendMarkLost => DoResendMarkLost(s)
    case Crash => s.(seen := {}, delivered := {}, tasks := map[], resend := NoPass)
  }

  function Step(s: System, a: Action): System {
    Effect(s, a).(clock := s.clock + 1)
  }

  function Run(s: System, actions: seq<Action>): System
    decreases |actions|
  {
    if actions == [] then s else Run(Step(s, actions[0]), actions[1..])
  }

  function Boot(cursors: map<int, int>): System {
    System(Db(map[], 0, {}, map[], cursors), {}, {}, map[], NoPass, multiset{}, 0, map[], map[], map[], map[])
  }

  /** A call moves its own task only; every task keeps its channel. */
  ghost predicate OnlyTasksMove(s: System, s': System) {
    && s' == s.(tasks := s'.tasks, confirmed := s'.confirmed, delivered := s'.delivered)
    && s'.tasks.Keys == s.tasks.Keys
    && forall id :: id in s.tasks ==> s'.tasks[id].kind == s.tasks[id].kind
  }

  lemma CallBeginOnlyMovesTasks(s: System, id: nat, gate: Gate)
    ensures OnlyTasksMove(s, DoCallBegin(s, id, gate))
  {
  }

  lemma CallReturnedOnlyMovesTasks(s: System, id: nat)
    ensures OnlyTasksMove(s, DoCallReturned(s, id))
  {
  }

  lemma CallRaisedOnlyMovesTasks(s: System, id: nat)
    ensures OnlyTasksMove(s, DoCallRaised(s, id))
  {
  }

  /** Until its status write, a resend only works off its own list. */
  ghost predicate OnlyResendMoves(s: System, s': System) {
    && s' == s.(resend := s'.resend, confirmed := s'.confirmed, delivered := s'.delivered)
    && (s'.resend.Pass? ==> s.resend.Pass? && forall key :: key in s'.resend.todo ==> key in s.resend.todo)
  }

  lemma ResendCallOnlyMovesResend(s: System, gate: Gate)
    ensures OnlyResendMoves(s, DoResendCall(s, gate))
  {
  }

  lemma ResendReturnedOnlyMovesResend(s: System)
    ensures OnlyResendMoves(s, DoResendReturned(s))
  {
  }

  /** The status write flips the head's row from `failed` to `sent`, and nothing else in the database. */
  lemma ResendMarkFlipsOneRow(s: System)
    ensures var s' := DoResendMark(s);
            || (s'.db == s.db && s'.sentAt == s.sentAt && OnlyResendMoves(s, s'))
            || (&& s.resend.Pass? && s.resend.todo != []
                && var key := s.resend.todo[0];
                   && key in s.db.deliveries && s.db.deliveries[key] == Failed
                   && s' == s.(db := AddRows(s.db, map[key := Sent]), resend := Pass(s.resend.todo[1..], Ready),
                               sentAt := FirstSent(s, key.matchId)))
  {
  }

  // ---------------------------------------------------------------------------------------------
  // Facts every reachable state has

  function PairOf(key: DeliveryKey): Pair {
    (key.matchId, key.recipient)
  }

  /** Ids are handed out in order and never reused. */
  ghost predicate MatchesBooked(db: Db, created: map<nat, Match>, persistedAt: map<nat, nat>, clock: nat) {
    && (forall id :: id in db.matches ==> id in created && created[id] == db.matches[id])
    && (forall id :: id in created ==> id < db.nextMatchId && id in persistedAt && persistedAt[id] < clock)
  }

  ghost predicate ChannelsBooked(tasks: map<nat, Task>, channel: map<nat, Kind>, created: map<nat, Match>) {
    tasks.Keys <= channel.Keys <= created.Keys
  }

  ghost predicate RowsBooked(deliveries: map<DeliveryKey, Status>, confirmed: multiset<Pair>, next: nat) {
    && (forall key :: key in deliveries ==> key.matchId < next)
    && (forall pair :: pair in confirmed ==> pair.0 < next)
  }

  /** Nothing was sent yet to anyone left, nor to anyone whose sends all failed. */
  ghost predicate NotYetSent(id: nat, t: Task, confirmed: multiset<Pair>) {
    && (forall r :: r in t.todo ==> r !in t.outcomes && (id, r) !in confirmed)
    && (forall r :: r in t.outcomes && t.outcomes[r] == Failed ==> (id, r) !in confirmed)
  }

  ghost predicate OnlyGrouped(id: nat, deliveries: map<DeliveryKey, Status>) {
    forall key :: key in deliveries && key.matchId == id ==> deliveries[key] == Grouped && key.kind != Digest
  }

  ghost predicate TaskOk(
      id: nat, t: Task, channel: map<nat, Kind>, deliveries: map<DeliveryKey, Status>, confirmed: multiset<Pair>) {
    && NoRepeats(t.todo) && t.kind in {Immediate, Target} && id in channel && channel[id] == t.kind
    && NotYetSent(id, t, confirmed) && OnlyGrouped(id, deliveries)
  }

  ghost predicate TasksOk(
      tasks: map<nat, Task>, channel: map<nat, Kind>, deliveries: map<DeliveryKey, Status>, confirmed: multiset<Pair>) {
    forall id :: id in tasks ==> TaskOk(id, tasks[id], channel, deliveries, confirmed)
  }

  /** Only the channel a match was cleared for ever has a `sent` or `failed` alert row. */
  ghost predicate RowsOnChannel(deliveries: map<DeliveryKey, Status>, channel: map<nat, Kind>) {
    forall key :: key in deliveries && key.kind in {Immediate, Target} && deliveries[key] in {Sent, Failed} ==>
      key.matchId in channel && channel[key.matchId] == key.kind
  }

  ghost predicate CandidateOk(
      key: DeliveryKey, tasks: map<nat, Task>, channel: map<nat, Kind>, confirmed: multiset<Pair>, delivered: set<Pair>) {
    && key.matchId !in tasks && key.kind in {Immediate, Target}
    && key.matchId in channel && channel[key.matchId] == key.kind
    && (PairOf(key) in confirmed ==> PairOf(key) in delivered)
  }

  ghost predicate ResendOk(
      resend: Resend, tasks: map<nat, Task>, channel: map<nat, Kind>, confirmed: multiset<Pair>, delivered: set<Pair>) {
    resend.Pass? ==>
      && (forall key :: key in resend.todo ==> CandidateOk(key, tasks, channel, confirmed, delivered))
      && (resend.phase == Calling && resend.todo != [] ==> PairOf(resend.todo[0]) !in confirmed)
  }

  ghost predicate Once(confirmed: multiset<Pair>) {
    forall pair :: confirmed[pair] <= 1
  }

  /** An alert was confirmed, but its row still says `failed`. */
  ghost predicate Stale(key: DeliveryKey, deliveries: map<DeliveryKey, Status>, confirmed: multiset<Pair>) {
    key in deliveries && deliveries[key] == Failed && key.kind in {Immediate, Target} && PairOf(key) in confirmed
  }

  ghost predicate StaleRemembered(
      deliveries: map<DeliveryKey, Status>, confirmed: multiset<Pair>, delivered: set<Pair>) {
    forall key :: Stale(key, deliveries, confirmed) ==> PairOf(key) in delivered
  }

  ghost predicate Booking(s: System) {
    && MatchesBooked(s.db, s.created, s.persistedAt, s.clock)
    && ChannelsBooked(s.tasks, s.channel, s.created)
    && RowsBooked(s.db.deliveries, s.confirmed, s.db.nextMatchId)
    && RowsOnChannel(s.db.deliveries, s.channel)
  }

  ghost predicate Invariant(s: System) {
    && Booking(s)
    && TasksOk(s.tasks, s.channel, s.db.deliveries, s.confirmed)
    && ResendOk(s.resend, s.tasks, s.channel, s.confirmed, s.delivered)
    && Once(s.confirmed)
    && StaleRemembered(s.db.deliveries, s.confirmed, s.delivered)
  }

  /** A crash is safe when no alert was confirmed while its row still says `failed`. */
  ghost predicate SafeCrash(s: System) {
    forall key :: !Stale(key, s.db.deliveries, s.confirmed)
  }

  ghost predicate CrashesSafely(s: System, actions: seq<Action>)
    decreases |actions|
  {
    actions != [] ==> (actions[0].Crash? ==> SafeCrash(s)) && CrashesSafely(Step(s, actions[0]), actions[1..])
  }

  // ---------------------------------------------------------------------------------------------
  // Each step keeps them

  /** A new match with bookkeeping rows only. */
  lemma StoreKeepsInvariant(s: System, db: Db, seen: set<Signature>, row: Match)
    requires Invariant(s)
    requires db.matches == s.db.matches[s.db.nextMatchId := row] && db.nextMatchId == s.db.nextMatchId + 1
    requires AddsOnlyRowsOf(s.db, db, s.db.nextMatchId, {Immediate, Target, Digest}, {Grouped, Pending, Historical})
    ensures Invariant(Booked(s, db, seen).(clock := s.clock + 1))
  {
    assert Booked(s, db, seen) == s.(db := db, seen := seen, created := s.created[s.db.nextMatchId := row],
                                     persistedAt := s.persistedAt[s.db.nextMatchId := s.clock]);
    StoreKeepsRows(s, db);
    forall id | id in s.tasks ensures TaskOk(id, s.tasks[id], s.channel, db.deliveries, s.confirmed) {
      assert TaskOk(id, s.tasks[id], s.channel, s.db.deliveries, s.confirmed);
      assert id in s.created;
    }
  }

  lemma StoreKeepsRows(s: System, db: Db)
    requires Invariant(s) && db.nextMatchId == s.db.nextMatchId + 1
    requires AddsOnlyRowsOf(s.db, db, s.db.nextMatchId, {Immediate, Target, Digest}, {Grouped, Pending, Historical})
    ensures RowsBooked(db.deliveries, s.confirmed, db.nextMatchId) && RowsOnChannel(db.deliveries, s.channel)
    ensures StaleRemembered(db.deliveries, s.confirmed, s.delivered)
  {
    forall key | Stale(key, db.deliveries, s.confirmed) ensures PairOf(key) in s.delivered {
      assert Stale(key, s.db.deliveries, s.confirmed);
    }
  }

  /** Its alerts start: a task for a match nothing was sent for yet. */
  lemma StartKeepsInvariant(s: System, id: nat, kind: Kind, recipients: seq<int>)
    requires Invariant(s) && id in s.created && id !in s.channel
    requires kind in {Immediate, Target} && NoRepeats(recipients)
    requires OnlyGrouped(id, s.db.deliveries) && forall r: int :: (id, r) !in s.confirmed
    ensures Invariant(s.(tasks := s.tasks[id := Task(kind, recipients, 0, false, map[])],
                         channel := s.channel[id := kind]))
  {
    var t := Task(kind, recipients, 0, false, map[]);
    var tasks, channel := s.tasks[id := t], s.channel[id := kind];
    forall other | other in tasks ensures TaskOk(other, tasks[other], channel, s.db.deliveries, s.confirmed) {
      if other != id {
        assert TaskOk(other, s.tasks[other], s.channel, s.db.deliveries, s.confirmed);
      }
    }
    if s.resend.Pass? {
      forall key | key in s.resend.todo ensures CandidateOk(key, tasks, channel, s.confirmed, s.delivered) {
        assert CandidateOk(key, s.tasks, s.channel, s.confirmed, s.delivered);
      }
    }
  }

  lemma LiveKeepsInvariant(s: System, a: Action)
    requires Invariant(s) && a.Live?
    ensures Invariant(Step(s, a))
  {
    var w := WritePhase(a.panel, s.db, s.seen, a.message, a.rule, a.text, a.candidates);
    var row := NewRow(a.message, a.rule, a.text.price);
    WritePhaseShape(a.panel, s.db, s.seen, a.message, a.rule, a.text, a.candidates);
    if WritesNewMatch(s.db, w, row) {
      if w.ToSend? {
        RecipientsAreDistinct(a.panel, s.db, s.seen, a.message, a.rule, a.text, a.candidates);
        LiveStartKeepsInvariant(s, w, row);
      } else {
        StoreKeepsInvariant(s, w.db, w.seen, row);
      }
    }
  }

  lemma LiveStartKeepsInvariant(s: System, w: Written, row: Match)
    requires Invariant(s) && w.ToSend? && WritesNewMatch(s.db, w, row) && NoRepeats(w.recipients)
    ensures var t := Task(w.kind, w.recipients, 0, false, map[]);
            Invariant(Booked(s, w.db, w.seen).(tasks := s.tasks[w.matchId := t], channel := s.channel[w.matchId := w.kind],
                                               clock := s.clock + 1))
  {
    var booked := Booked(s, w.db, w.seen).(clock := s.clock + 1);
    StoreKeepsInvariant(s, w.db, w.seen, row);
    assert booked.tasks == s.tasks && booked.channel == s.channel && booked.db == w.db;
    assert w.matchId !in s.created;
    assert OnlyGrouped(w.matchId, w.db.deliveries);
    StartKeepsInvariant(booked, w.matchId, w.kind, w.recipients);
  }

  lemma HistoricalKeepsInvariant(s: System, a: Action)
    requires Invariant(s) && a.HistoricalMatch?
    ensures Invariant(Step(s, a))
  {
    var db := HistoricalWrite(a.panel, s.db, a.message, a.rule, a.text, a.candidates);
    if db != s.db {
      HistoricalShape(a.panel, s.db, a.message, a.rule, a.text, a.candidates);
      StoreKeepsInvariant(s, db, s.seen, NewRow(a.message, a.rule, a.text.price));
    }
  }

  /** A historical match is new, gets `historical` rows only, and moves no cursor. */
  lemma HistoricalShape(panel: Panel, db: Db, message: Message, rule: Rule, text: Text, candidates: seq<int>)
    ensures var db' := HistoricalWrite(panel, db, message, rule, text, candidates);
            || db' == db
            || (&& PersistMatch(db, NewRow(message, rule, text.price)).Some?
                && db'.matches == db.matches[db.nextMatchId := NewRow(message, rule, text.price)]
                && db'.nextMatchId == db.nextMatchId + 1
                && db'.suppressed == db.suppressed && db'.cursors == db.cursors
                && AddsOnlyRowsOf(db, db', db.nextMatchId, {Immediate}, {Historical}))
  {
    var row := NewRow(message, rule, text.price);
    if Evaluate(rule, text).Accepted? && PersistMatch(db, row).Some? {
      var recipients := Eligible(panel, candidates, rule.id, DecideKind(rule, text.price) == Target);
      AddRowsOnly(PersistMatch(db, row).value, db.nextMatchId, recipients, Immediate, Historical);
    }
  }

  /** On the fields: the non-notifying path stores a message that passes and is not stored yet, whatever was let
      through before, with a `historical` row for exactly those it is for, and moves no cursor. */
  lemma WhatHistoryStores(
      panel: Panel, db: Db, message: Message, rule: Rule, text: Text, candidates: seq<int>, r: int)
    requires forall key :: key in db.deliveries ==> key.matchId < db.nextMatchId
    ensures var db' := HistoricalWrite(panel, db, message, rule, text, candidates);
            && db'.cursors == db.cursors
            && (if Passes(rule, text) && !Stored(db, message, rule)
                then && Stores(db, db', message, rule, text)
                     && (r in candidates && Admits(panel, r, rule, AtTarget(rule, text))
                         <==> HasRowOf(db', db.nextMatchId, r, Immediate, Historical))
                else db' == db)
  {
    StoredIsNotPersisted(db, message, rule, text.price);
    assert Receives(panel, r, rule.id, AtTarget(rule, text)) <==> Admits(panel, r, rule, AtTarget(rule, text));
  }

  /** Losing matches and rows, or changing digest rows only, cannot break anything. */
  lemma FewerRowsKeepInvariant(s: System, db: Db)
    requires Invariant(s) && db.nextMatchId == s.db.nextMatchId
    requires forall id :: id in db.matches ==> id in s.db.matches && db.matches[id] == s.db.matches[id]
    requires forall key :: key in db.deliveries ==>
               key in s.db.deliveries && (key.kind != Digest ==> db.deliveries[key] == s.db.deliveries[key])
    ensures Invariant(s.(db := db, clock := s.clock + 1))
  {
    assert Booking(s.(db := db, clock := s.clock + 1));
    forall id | id in s.tasks ensures TaskOk(id, s.tasks[id], s.channel, db.deliveries, s.confirmed) {
      assert TaskOk(id, s.tasks[id], s.channel, s.db.deliveries, s.confirmed);
    }
    forall key | Stale(key, db.deliveries, s.confirmed) ensures PairOf(key) in s.delivered {
      assert Stale(key, s.db.deliveries, s.confirmed);
    }
  }

  lemma DeleteKeepsInvariant(s: System, ids: set<nat>)
    requires Invariant(s)
    ensures Invariant(Step(s, Delete(ids)))
  {
    FewerRowsKeepInvariant(s, DeleteMatches(s.db, ids));
  }

  lemma DigestRowKeepsInvariant(s: System, key: DeliveryKey, status: Status)
    requires Invariant(s)
    ensures Invariant(Step(s, DigestRow(key, status)))
  {
    FewerRowsKeepInvariant(s, Effect(s, DigestRow(key, status)).db);
  }

  lemma ResendRaisedKeepsInvariant(s: System)
    requires Invariant(s)
    ensures Invariant(DoResendRaised(s).(clock := s.clock + 1))
  {
    if s.resend.Pass? {
      ResendMoveKeepsInvariant(s, DoResendRaised(s).resend);
    }
  }

  lemma ResendMarkLostKeepsInvariant(s: System)
    requires Invariant(s)
    ensures Invariant(DoResendMarkLost(s).(clock := s.clock + 1))
  {
    if s.resend.Pass? {
      ResendMoveKeepsInvariant(s, DoResendMarkLost(s).resend);
    }
  }

  /** One task moved on without a confirmation. */
  lemma TaskMoveKeepsInvariant(s: System, id: nat, t: Task)
    requires Invariant(s) && id in s.tasks
    requires t.kind == s.tasks[id].kind && NoRepeats(t.todo) && NotYetSent(id, t, s.confirmed)
    ensures Invariant(s.(tasks := s.tasks[id := t], clock := s.clock + 1))
  {
    var tasks := s.tasks[id := t];
    forall other | other in tasks ensures TaskOk(other, tasks[other], s.channel, s.db.deliveries, s.confirmed) {
      assert TaskOk(other, s.tasks[other], s.channel, s.db.deliveries, s.confirmed);
    }
    if s.resend.Pass? {
      forall key | key in s.resend.todo ensures CandidateOk(key, tasks, s.channel, s.confirmed, s.delivered) {
        assert CandidateOk(key, s.tasks, s.channel, s.confirmed, s.delivered);
      }
    }
  }

  lemma SettledKeepsTask(id: nat, t: Task, status: Status, confirmed: multiset<Pair>)
    requires t.todo != [] && NoRepeats(t.todo) && NotYetSent(id, t, confirmed)
    ensures NoRepeats(Settled(t, status).todo) && NotYetSent(id, Settled(t, status), confirmed)
    ensures t.todo[0] !in Settled(t, status).todo && (id, t.todo[0]) !in confirmed
  {
    assert forall i :: 0 <= i < |t.todo| - 1 ==> t.todo[1..][i] == t.todo[i + 1];
  }

  lemma CallBeginKeepsInvariant(s: System, id: nat, gate: Gate)
    requires Invariant(s)
    ensures Invariant(DoCallBegin(s, id, gate).(clock := s.clock + 1))
  {
    var s' := DoCallBegin(s, id, gate);
    if s' != s {
      var t := s.tasks[id];
      assert TaskOk(id, t, s.channel, s.db.deliveries, s.confirmed);
      var status := if gate.Refused? then gate.reason else Duplicate;
      SettledKeepsTask(id, t, status, s.confirmed);
      if s' == s.(tasks := s.tasks[id := Settled(t, status)]) {
        TaskMoveKeepsInvariant(s, id, Settled(t, status));
      } else {
        TaskMoveKeepsInvariant(s, id, t.(calling := true));
      }
    }
  }

  lemma CallReturnedKeepsInvariant(s: System, id: nat)
    requires Invariant(s)
    ensures Invariant(DoCallReturned(s, id).(clock := s.clock + 1))
  {
    if id in s.tasks && s.tasks[id].todo != [] && s.tasks[id].calling {
      var t := s.tasks[id];
      assert TaskOk(id, t, s.channel, s.db.deliveries, s.confirmed);
      SettledKeepsTask(id, t, Sent, s.confirmed);
      TaskMoveKeepsInvariant(s, id, Settled(t, Sent));
      ConfirmKeepsInvariant(s.(tasks := s.tasks[id := Settled(t, Sent)], clock := s.clock + 1), id, t.todo[0]);
    }
  }

  /** The head recipient, already settled as `sent`, is counted as confirmed and remembered. */
  lemma ConfirmKeepsInvariant(s: System, id: nat, r: int)
    requires Invariant(s) && id in s.tasks && (id, r) !in s.confirmed
    requires r !in s.tasks[id].todo && r in s.tasks[id].outcomes && s.tasks[id].outcomes[r] == Sent
    ensures Invariant(s.(confirmed := s.confirmed + multiset{(id, r)}, delivered := s.delivered + {(id, r)}))
  {
    var confirmed, delivered := s.confirmed + multiset{(id, r)}, s.delivered + {(id, r)};
    assert TaskOk(id, s.tasks[id], s.channel, s.db.deliveries, s.confirmed);
    forall other | other in s.tasks ensures TaskOk(other, s.tasks[other], s.channel, s.db.deliveries, confirmed) {
      assert TaskOk(other, s.tasks[other], s.channel, s.db.deliveries, s.confirmed);
    }
    if s.resend.Pass? {
      forall key | key in s.resend.todo ensures CandidateOk(key, s.tasks, s.channel, confirmed, delivered) {
        assert CandidateOk(key, s.tasks, s.channel, s.confirmed, s.delivered);
      }
    }
    if s.resend.Pass? && s.resend.todo != [] {
      assert s.resend.todo[0] in s.resend.todo;
    }
    forall key | Stale(key, s.db.deliveries, confirmed) ensures PairOf(key) in delivered {
      if PairOf(key) != (id, r) {
        assert Stale(key, s.db.deliveries, s.confirmed);
      }
    }
  }

  lemma CallRaisedKeepsInvariant(s: System, id: nat)
    requires Invariant(s)
    ensures Invariant(DoCallRaised(s, id).(clock := s.clock + 1))
  {
    if id in s.tasks && s.tasks[id].todo != [] && s.tasks[id].calling {
      var t := s.tasks[id];
      assert TaskOk(id, t, s.channel, s.db.deliveries, s.confirmed);
      SettledKeepsTask(id, t, Failed, s.confirmed);
      TaskMoveKeepsInvariant(s, id, DoCallRaised(s, id).tasks[id]);
    }
  }

  lemma RecordKeepsInvariant(s: System, id: nat)
    requires Invariant(s)
    ensures Invariant(DoRecord(s, id).(clock := s.clock + 1))
  {
    if id in s.tasks && s.tasks[id].todo == [] {
      var s' := DoRecord(s, id).(clock := s.clock + 1);
      assert TaskOk(id, s.tasks[id], s.channel, s.db.deliveries, s.confirmed);
      assert Booking(s');
      forall other | other in s'.tasks ensures TaskOk(other, s'.tasks[other], s.channel, s'.db.deliveries, s.confirmed) {
        assert TaskOk(other, s.tasks[other], s.channel, s.db.deliveries, s.confirmed);
      }
      FewerTasksKeepResend(s, s'.tasks);
      forall key | Stale(key, s'.db.deliveries, s.confirmed) ensures PairOf(key) in s.delivered {
        assert Stale(key, s.db.deliveries, s.confirmed);
      }
    }
  }

  lemma FewerTasksKeepResend(s: System, tasks: map<nat, Task>)
    requires ResendOk(s.resend, s.tasks, s.channel, s.confirmed, s.delivered) && tasks.Keys <= s.tasks.Keys
    ensures ResendOk(s.resend, tasks, s.channel, s.confirmed, s.delivered)
  {
    if s.resend.Pass? {
      forall key | key in s.resend.todo ensures CandidateOk(key, tasks, s.channel, s.confirmed, s.delivered) {
        assert CandidateOk(key, s.tasks, s.channel, s.confirmed, s.delivered);
      }
    }
  }

  lemma AbandonKeepsInvariant(s: System, id: nat)
    requires Invariant(s)
    ensures Invariant(Step(s, Abandon(id)))
  {
    FewerTasksKeepResend(s, s.tasks - {id});
  }

  lemma CrashKeepsInvariant(s: System)
    requires Invariant(s) && SafeCrash(s)
    ensures Invariant(Step(s, Crash))
  {
  }

  lemma FailedRowIsACandidate(s: System, key: DeliveryKey)
    requires Invariant(s) && Resendable(s, key)
    ensures CandidateOk(key, s.tasks, s.channel, s.confirmed, s.delivered)
  {
    assert key.matchId in s.tasks ==> OnlyGrouped(key.matchId, s.db.deliveries);
    assert PairOf(key) in s.confirmed ==> Stale(key, s.db.deliveries, s.confirmed);
  }

  lemma ResendLoadKeepsInvariant(s: System, keys: seq<DeliveryKey>)
    requires Invariant(s)
    ensures Invariant(DoResendLoad(s, keys).(clock := s.clock + 1))
  {
    if Idle(s) && forall key :: key in keys ==> Resendable(s, key) {
      forall key | key in keys ensures CandidateOk(key, s.tasks, s.channel, s.confirmed, s.delivered) {
        FailedRowIsACandidate(s, key);
      }
    }
  }

  lemma ResendMoveKeepsInvariant(s: System, resend: Resend)
    requires Invariant(s) && s.resend.Pass?
    requires resend.Pass? ==>
               && (forall key :: key in resend.todo ==> key in s.resend.todo)
               && (resend.phase == Calling && resend.todo != [] ==> PairOf(resend.todo[0]) !in s.confirmed)
    ensures Invariant(s.(resend := resend, clock := s.clock + 1))
  {
  }

  lemma ResendCallKeepsInvariant(s: System, gate: Gate)
    requires Invariant(s)
    ensures Invariant(DoResendCall(s, gate).(clock := s.clock + 1))
  {
    if s.resend.Pass? && s.resend.todo != [] {
      assert CandidateOk(s.resend.todo[0], s.tasks, s.channel, s.confirmed, s.delivered);
      ResendMoveKeepsInvariant(s, DoResendCall(s, gate).resend);
    }
  }

  lemma ResendReturnedKeepsInvariant(s: System)
    requires Invariant(s)
    ensures Invariant(DoResendReturned(s).(clock := s.clock + 1))
  {
    if s.resend.Pass? && s.resend.todo != [] && s.resend.phase == Calling {
      var head := s.resend.todo[0];
      assert CandidateOk(head, s.tasks, s.channel, s.confirmed, s.delivered);
      ResendMoveKeepsInvariant(s, s.resend.(phase := Marking));
      ResendConfirmKeepsInvariant(s.(resend := s.resend.(phase := Marking), clock := s.clock + 1), head);
    }
  }

  /** The candidate being resent is counted as confirmed and remembered. */
  lemma ResendConfirmKeepsInvariant(s: System, head: DeliveryKey)
    requires Invariant(s) && s.resend.Pass? && s.resend.phase == Marking
    requires CandidateOk(head, s.tasks, s.channel, s.confirmed, s.delivered) && PairOf(head) !in s.confirmed
    requires head.matchId in s.created
    ensures Invariant(s.(confirmed := s.confirmed + multiset{PairOf(head)}, delivered := s.delivered + {PairOf(head)}))
  {
    var confirmed, delivered := s.confirmed + multiset{PairOf(head)}, s.delivered + {PairOf(head)};
    forall id | id in s.tasks ensures TaskOk(id, s.tasks[id], s.channel, s.db.deliveries, confirmed) {
      assert TaskOk(id, s.tasks[id], s.channel, s.db.deliveries, s.confirmed);
    }
    forall key | key in s.resend.todo ensures CandidateOk(key, s.tasks, s.channel, confirmed, delivered) {
      assert CandidateOk(key, s.tasks, s.channel, s.confirmed, s.delivered);
    }
    forall key | Stale(key, s.db.deliveries, confirmed) ensures PairOf(key) in delivered {
      if PairOf(key) != PairOf(head) {
        assert Stale(key, s.db.deliveries, s.confirmed);
      }
    }
  }

  lemma ResendMarkKeepsInvariant(s: System)
    requires Invariant(s)
    ensures Invariant(DoResendMark(s).(clock := s.clock + 1))
  {
    var s' := DoResendMark(s);
    if s' != s {
      var head, rest := s.resend.todo[0], Pass(s.resend.todo[1..], Ready);
      assert CandidateOk(head, s.tasks, s.channel, s.confirmed, s.delivered);
      ResendMoveKeepsInvariant(s, rest);
      if s'.db != s.db {
        FlipKeepsInvariant(s.(resend := rest, clock := s.clock + 1), head, s'.sentAt);
      }
    }
  }

  lemma FlipKeepsInvariant(s: System, key: DeliveryKey, sentAt: map<nat, nat>)
    requires Invariant(s) && CandidateOk(key, s.tasks, s.channel, s.confirmed, s.delivered) && key in s.db.deliveries
    ensures Invariant(s.(db := s.db.(deliveries := s.db.deliveries[key := Sent]), sentAt := sentAt))
  {
    var rows := s.db.deliveries[key := Sent];
    assert RowsOnChannel(rows, s.channel);
    forall id | id in s.tasks ensures TaskOk(id, s.tasks[id], s.channel, rows, s.confirmed) {
      assert TaskOk(id, s.tasks[id], s.channel, s.db.deliveries, s.confirmed);
    }
    forall other | Stale(other, rows, s.confirmed) ensures PairOf(other) in s.delivered {
      assert Stale(other, s.db.deliveries, s.confirmed);
    }
  }

  lemma SettlingResendKeepsInvariant(s: System, a: Action)
    requires Invariant(s) && (a.ResendRaised? || a.ResendMark? || a.ResendMarkLost?)
    ensures Invariant(Step(s, a))
  {
    if a.ResendRaised? {
      ResendRaisedKeepsInvariant(s);
    } else if a.ResendMark? {
      ResendMarkKeepsInvariant(s);
    } else {
      ResendMarkLostKeepsInvariant(s);
    }
  }

  lemma StartingResendKeepsInvariant(s: System, a: Action)
    requires Invariant(s) && (a.ResendLoad? || a.ResendCall? || a.ResendReturned?)
    ensures Invariant(Step(s, a))
  {
    if a.ResendLoad? {
      ResendLoadKeepsInvariant(s, a.keys);
    } else if a.ResendCall? {
      ResendCallKeepsInvariant(s, a.gate);
    } else {
      ResendReturnedKeepsInvariant(s);
    }
  }

  lemma RollbackKeepsInvariant(s: System, seen: set<Signature>)
    requires Invariant(s)
    ensures Invariant(s.(seen := seen, clock := s.clock + 1))
  {
  }

  lemma StepKeepsInvariant(s: System, a: Action)
    requires Invariant(s) && (a.Crash? ==> SafeCrash(s))
    ensures Invariant(Step(s, a))
  {
    if a.Live? {
      LiveKeepsInvariant(s, a);
    } else if a.LiveRolledBack? {
      RollbackKeepsInvariant(s, SeenAfterRollback(s.seen, a.message, a.rule, a.text));
    } else if a.HistoricalMatch? {
      HistoricalKeepsInvariant(s, a);
    } else if a.Delete? {
      DeleteKeepsInvariant(s, a.ids);
    } else if a.DigestRow? {
      DigestRowKeepsInvariant(s, a.key, a.status);
    } else if a.Crash? {
      CrashKeepsInvariant(s);
    } else if a.CallBegin? {
      CallBeginKeepsInvariant(s, a.id, a.gate);
    } else if a.CallReturned? {
      CallReturnedKeepsInvariant(s, a.id);
    } else if a.CallRaised? {
      CallRaisedKeepsInvariant(s, a.id);
    } else if a.Record? {
      RecordKeepsInvariant(s, a.id);
    } else if a.Abandon? {
      AbandonKeepsInvariant(s, a.id);
    } else if a.ResendLoad? || a.ResendCall? || a.ResendReturned? {
      StartingResendKeepsInvariant(s, a);
    } else {
      SettlingResendKeepsInvariant(s, a);
    }
  }

  lemma {:induction false} RunKeepsInvariant(s: System, actions: seq<Action>)
    requires Invariant(s) && CrashesSafely(s, actions)
    ensures Invariant(Run(s, actions))
    decreases |actions|
  {
    if actions != [] {
      StepKeepsInvariant(s, actions[0]);
      RunKeepsInvariant(Step(s, actions[0]), actions[1..]);
    }
  }

  /** At most once: however live messages, send retries, resends, deletions and crashes interleave, no
      recipient is confirmed an alert for the same match twice, as long as no crash comes while a
      confirmed alert's row still says `failed`. */
  lemma AtMostOneConfirmedAlert(cursors: map<int, int>, actions: seq<Action>, pair: Pair)
    requires CrashesSafely(Boot(cursors), actions)
    ensures Run(Boot(cursors), actions).confirmed[pair] <= 1
  {
    RunKeepsInvariant(Boot(cursors), actions);
  }

  // ---------------------------------------------------------------------------------------------
  // How far the crash condition reaches

  /** The condition is needed: from any such state a crash and one resend send the alert again. */
  lemma UnsafeCrashCanRepeat(s: System, key: DeliveryKey)
    requires Stale(key, s.db.deliveries, s.confirmed) && key.matchId in s.db.matches
    ensures Run(s, [Crash, ResendLoad([key]), ResendCall(Allowed), ResendReturned]).confirmed[PairOf(key)]
            == s.confirmed[PairOf(key)] + 1 >= 2
  {
    LoadAfterCrash(s, key);
    BeginResend(Step(Step(s, Crash), ResendLoad([key])), key);
    FourSteps(s, Crash, ResendLoad([key]), ResendCall(Allowed), ResendReturned);
  }

  lemma LoadAfterCrash(s: System, key: DeliveryKey)
    requires Stale(key, s.db.deliveries, s.confirmed) && key.matchId in s.db.matches
    ensures var s' := Step(Step(s, Crash), ResendLoad([key]));
            s'.resend == Pass([key], Ready) && s'.delivered == {} && s'.confirmed == s.confirmed
  {
    assert Resendable(Step(s, Crash), key);
  }

  lemma BeginResend(s: System, key: DeliveryKey)
    requires s.resend == Pass([key], Ready) && PairOf(key) !in s.delivered
    ensures var s' := Step(Step(s, ResendCall(Allowed)), ResendReturned);
            s'.confirmed == s.confirmed + multiset{PairOf(key)} && s'.db == s.db
  {
    assert Step(s, ResendCall(Allowed)) == s.(resend := Pass([key], Calling), clock := s.clock + 1);
  }

  lemma FourSteps(s: System, a: Action, b: Action, c: Action, d: Action)
    ensures Run(s, [a, b, c, d]) == Step(Step(Step(Step(s, a), b), c), d)
  {
    assert [a, b, c, d][1..] == [b, c, d] && [b, c, d][1..] == [c, d] && [c, d][1..] == [d] && [d][1..] == [];
    var s1, s2, s3 := Step(s, a), Step(Step(s, a), b), Step(Step(Step(s, a), b), c);
    assert Run(s3, [d]) == Run(Step(s3, d), []);
    assert Run(s2, [c, d]) == Run(s3, [d]);
    assert Run(s1, [b, c, d]) == Run(s2, [c, d]);
  }

  // ---------------------------------------------------------------------------------------------
  // Runs that reach the states the promises exclude

  /** A message like this goes out to `r` at once: accepted, priced, wanted, and not held back. */
  predicate GoesOut(panel: Panel, m: Message, rule: Rule, text: Text, r: int) {
    var isTarget := TargetHit(text.price, rule.targetPrice);
    && Evaluate(rule, text).Accepted? && text.price.Some? && Receives(panel, r, rule.id, isTarget)
    && (isTarget || (!panel.digestHolds && !Snoozed(panel, rule.id, text.product, m.receivedAt)))
  }

  lemma EligibleAlone(panel: Panel, r: int, rule: int, isTarget: bool)
    requires Receives(panel, r, rule, isTarget)
    ensures Eligible(panel, [r], rule, isTarget) == [r]
  {
    assert [r][1..] == [];
  }

  lemma WritePhaseClears(panel: Panel, db: Db, seen: set<Signature>, m: Message, rule: Rule, text: Text, r: int)
    requires GoesOut(panel, m, rule, text, r) && SignatureOf(m, rule, text) !in seen
    requires db.deliveries == map[] && db.suppressed == {}
    requires forall id :: id in db.matches ==> !SamePosting(db.matches[id], NewRow(m, rule, text.price))
    ensures var w, id := WritePhase(panel, db, seen, m, rule, text, [r]), db.nextMatchId;
            && w.ToSend? && w.matchId == id && w.kind == DecideKind(rule, text.price) && w.recipients == [r]
            && w.db == db.(matches := db.matches[id := NewRow(m, rule, text.price)], nextMatchId := id + 1, cursors := w.db.cursors)
            && w.seen == seen + {SignatureOf(m, rule, text)}
  {
    EligibleAlone(panel, r, rule.id, TargetHit(text.price, rule.targetPrice));
    var db0 := if m.messageId.Some? then AdvanceCursor(db, m.source, m.messageId.value) else db;
    assert db0 == db.(cursors := db0.cursors);
    assert PersistMatch(db0, NewRow(m, rule, text.price)).Some?;
  }

  /** Such a message over a database without delivery rows is stored and cleared to alert. */
  lemma ClearedToAlert(s: System, panel: Panel, m: Message, rule: Rule, text: Text, r: int)
    requires GoesOut(panel, m, rule, text, r) && SignatureOf(m, rule, text) !in s.seen
    requires s.db.deliveries == map[] && s.db.suppressed == {}
    requires forall id :: id in s.db.matches ==> !SamePosting(s.db.matches[id], NewRow(m, rule, text.price))
    ensures var id, row, s' := s.db.nextMatchId, NewRow(m, rule, text.price), Step(s, Live(panel, m, rule, text, [r]));
            && s'.db.matches == s.db.matches[id := row] && s'.db.nextMatchId == id + 1
            && s'.db.deliveries == map[] && s'.db.suppressed == {}
            && s'.seen == s.seen + {SignatureOf(m, rule, text)} && s'.delivered == s.delivered
            && s'.tasks == s.tasks[id := Task(DecideKind(rule, text.price), [r], 0, false, map[])]
            && s'.confirmed == s.confirmed && s'.resend == s.resend
  {
    WritePhaseClears(panel, s.db, s.seen, m, rule, text, r);
  }

  lemma {:induction false} RunInTwo(s: System, first: seq<Action>, second: seq<Action>)
    ensures Run(s, first + second) == Run(Run(s, first), second)
    decreases |first|
  {
    if first == [] {
      assert [] + second == second;
    } else {
      assert (first + second)[1..] == first[1..] + second;
      RunInTwo(Step(s, first[0]), first[1..], second);
    }
  }

  lemma RunFromStep(s: System, a: Action, rest: seq<Action>)
    ensures Run(s, [a] + rest) == Run(Step(s, a), rest)
  {
    assert ([a] + rest)[1..] == rest;
  }

  lemma RunOfOne(s: System, a: Action)
    ensures Run(s, [a]) == Step(s, a)
  {
    assert [a][1..] == [];
  }

  lemma RunOfTwo(s: System, a: Action, b: Action)
    ensures Run(s, [a, b]) == Step(Step(s, a), b)
  {
    assert [a, b] == [a] + [b] && [b] == [b] + [];
    RunFromStep(s, a, [b]);
    RunFromStep(Step(s, a), b, []);
  }

  /** The one recipient of match `id` is next, after `attempts` raised calls. */
  ghost predicate AboutToCall(s: System, id: nat, kind: Kind, r: int, attempts: nat) {
    id in s.tasks && s.tasks[id] == Task(kind, [r], attempts, false, map[]) && (id, r) !in s.delivered
  }

  ghost predicate SameButTasks(s: System, s': System) {
    && s'.db == s.db && s'.delivered == s.delivered && s'.confirmed == s.confirmed && s'.resend == s.resend
    && s'.tasks.Keys == s.tasks.Keys
  }

  function Raised(id: nat): seq<Action> {
    [CallBegin(id, Allowed), CallRaised(id)]
  }

  lemma RaisedCall(s: System, id: nat, kind: Kind, r: int, attempts: nat)
    requires AboutToCall(s, id, kind, r, attempts)
    ensures var s' := Run(s, Raised(id));
            && SameButTasks(s, s')
            && (attempts + 1 < NOTIFY_ATTEMPTS ==> AboutToCall(s', id, kind, r, attempts + 1))
            && (attempts + 1 >= NOTIFY_ATTEMPTS ==> s'.tasks[id] == Task(kind, [], 0, false, map[r := Failed]))
  {
    RunOfTwo(s, CallBegin(id, Allowed), CallRaised(id));
    var s1 := Step(s, CallBegin(id, Allowed));
    assert s1.tasks[id] == Task(kind, [r], attempts, true, map[]);
  }

  /** Every attempt raises, and that is recorded. */
  function AllRaise(id: nat): seq<Action> {
    Raised(id) + (Raised(id) + (Raised(id) + [Record(id)]))
  }

  lemma ThreeRaisedCalls(s: System, id: nat, kind: Kind, r: int)
    requires AboutToCall(s, id, kind, r, 0)
    ensures var s' := Run(Run(Run(s, Raised(id)), Raised(id)), Raised(id));
            SameButTasks(s, s') && id in s'.tasks && s'.tasks[id] == Task(kind, [], 0, false, map[r := Failed])
  {
    RaisedCall(s, id, kind, r, 0);
    var s1 := Run(s, Raised(id));
    RaisedCall(s1, id, kind, r, 1);
    RaisedCall(Run(s1, Raised(id)), id, kind, r, 2);
  }

  lemma RecordedFailure(s: System, id: nat, kind: Kind, r: int)
    requires id in s.tasks && s.tasks[id] == Task(kind, [], 0, false, map[r := Failed])
    ensures var key, s' := DeliveryKey(id, r, kind), DoRecord(s, id);
            && s'.db.matches == s.db.matches && key in s'.db.deliveries && s'.db.deliveries[key] == Failed
            && s'.delivered == s.delivered && s'.confirmed == s.confirmed && s'.resend == s.resend
  {
    OneOutcome(id, kind, r, Failed);
  }

  lemma OneOutcome(id: nat, kind: Kind, r: int, status: Status)
    ensures OutcomeRows(id, Task(kind, [], 0, false, map[r := status])) == map[DeliveryKey(id, r, kind) := status]
  {
    var rows := OutcomeRows(id, Task(kind, [], 0, false, map[r := status]));
    assert forall key :: key in rows <==> key == DeliveryKey(id, r, kind);
  }

  lemma AllRaiseRuns(s: System, id: nat)
    ensures Run(s, AllRaise(id)) == Step(Run(Run(Run(s, Raised(id)), Raised(id)), Raised(id)), Record(id))
  {
    var call, s1 := Raised(id), Run(s, Raised(id));
    RunInTwo(s, call, call + (call + [Record(id)]));
    RunInTwo(s1, call, call + [Record(id)]);
    RunInTwo(Run(s1, call), call, [Record(id)]);
    RunOfOne(Run(Run(s1, call), call), Record(id));
  }

  lemma AllRaiseLeavesAFailedRow(s: System, id: nat, kind: Kind, r: int)
    requires AboutToCall(s, id, kind, r, 0)
    ensures var key, s' := DeliveryKey(id, r, kind), Run(s, AllRaise(id));
            && s'.db.matches == s.db.matches && key in s'.db.deliveries && s'.db.deliveries[key] == Failed
            && s'.delivered == s.delivered && s'.confirmed == s.confirmed && s'.resend == s.resend
  {
    AllRaiseRuns(s, id);
    ThreeRaisedCalls(s, id, kind, r);
    var s3 := Run(Run(Run(s, Raised(id)), Raised(id)), Raised(id));
    RecordedFailure(s3, id, kind, r);
    assert Step(s3, Record(id)) == DoRecord(s3, id).(clock := s3.clock + 1);
  }

  /** A pass over one failed alert, whose call is confirmed. */
  function OneResend(key: DeliveryKey): seq<Action> {
    [ResendLoad([key])] + [ResendCall(Allowed), ResendReturned]
  }

  lemma LoadsOne(s: System, key: DeliveryKey)
    requires Resendable(s, key) && Idle(s)
    ensures Step(s, ResendLoad([key])) == s.(resend := Pass([key], Ready), clock := s.clock + 1)
  {
    assert forall k :: k in [key] ==> k == key;
  }

  lemma OneResendConfirms(s: System, key: DeliveryKey)
    requires Resendable(s, key) && Idle(s) && PairOf(key) !in s.delivered
    ensures var s' := Run(s, OneResend(key));
            s'.db == s.db && s'.confirmed == s.confirmed + multiset{PairOf(key)}
  {
    RunFromStep(s, ResendLoad([key]), [ResendCall(Allowed), ResendReturned]);
    LoadsOne(s, key);
    var s1 := Step(s, ResendLoad([key]));
    RunOfTwo(s1, ResendCall(Allowed), ResendReturned);
    BeginResend(s1, key);
  }

  /** A resend whose call is confirmed; then the process stops before the row is written, and the next one
      resends it. */
  function ResentTwice(key: DeliveryKey): seq<Action> {
    OneResend(key) + ([Crash] + OneResend(key))
  }

  lemma AfterACrash(s: System)
    ensures var s' := Step(s, Crash);
            s'.db == s.db && s'.confirmed == s.confirmed && s'.delivered == {} && s'.resend.NoPass?
  {
  }

  lemma ResentTwiceConfirmsTwice(s: System, key: DeliveryKey)
    requires Resendable(s, key) && Idle(s) && PairOf(key) !in s.delivered
    ensures Run(s, ResentTwice(key)).confirmed == s.confirmed + multiset{PairOf(key)} + multiset{PairOf(key)}
  {
    RunInTwo(s, OneResend(key), [Crash] + OneResend(key));
    OneResendConfirms(s, key);
    var s1 := Run(s, OneResend(key));
    RunFromStep(s1, Crash, OneResend(key));
    AfterACrash(s1);
    OneResendConfirms(Step(s1, Crash), key);
  }

  /** The alert of a message that goes out fails. */
  function FailedAlert(panel: Panel, m: Message, rule: Rule, text: Text, r: int): seq<Action> {
    [Live(panel, m, rule, text, [r])] + AllRaise(0)
  }

  lemma FailedAlertIsResendable(cursors: map<int, int>, panel: Panel, m: Message, rule: Rule, text: Text, r: int)
    requires GoesOut(panel, m, rule, text, r)
    ensures var s := Run(Boot(cursors), FailedAlert(panel, m, rule, text, r));
            && Resendable(s, DeliveryKey(0, r, DecideKind(rule, text.price))) && s.resend.NoPass?
            && s.delivered == {} && s.confirmed == multiset{}
  {
    var s0, live := Boot(cursors), Live(panel, m, rule, text, [r]);
    RunFromStep(s0, live, AllRaise(0));
    ClearedToAlert(s0, panel, m, rule, text, r);
    AllRaiseLeavesAFailedRow(Step(s0, live), 0, DecideKind(rule, text.price), r);
  }

  /** The condition on crashes is needed: from boot, any message that goes out can be confirmed twice. */
  lemma CrashBeforeTheRowIsWrittenRepeats(
      cursors: map<int, int>, panel: Panel, m: Message, rule: Rule, text: Text, r: int)
    requires GoesOut(panel, m, rule, text, r)
    ensures var actions := FailedAlert(panel, m, rule, text, r) + ResentTwice(DeliveryKey(0, r, DecideKind(rule, text.price)));
            Run(Boot(cursors), actions).confirmed[(0, r)] == 2 && !CrashesSafely(Boot(cursors), actions)
  {
    var key := DeliveryKey(0, r, DecideKind(rule, text.price));
    var failing := FailedAlert(panel, m, rule, text, r);
    RunInTwo(Boot(cursors), failing, ResentTwice(key));
    FailedAlertIsResendable(cursors, panel, m, rule, text, r);
    ResentTwiceConfirmsTwice(Run(Boot(cursors), failing), key);
    UnsafeIfTwice(cursors, failing + ResentTwice(key), (0, r));
  }

  lemma UnsafeIfTwice(cursors: map<int, int>, actions: seq<Action>, pair: Pair)
    requires Run(Boot(cursors), actions).confirmed[pair] > 1
    ensures !CrashesSafely(Boot(cursors), actions)
  {
    if CrashesSafely(Boot(cursors), actions) {
      AtMostOneConfirmedAlert(cursors, actions, pair);
    }
  }

  /** The only row that may lag behind is the one whose status a resend is about to write. */
  ghost predicate StaleOnlyInFlight(s: System) {
    forall key :: Stale(key, s.db.deliveries, s.confirmed) ==>
      s.resend.Pass? && s.resend.phase == Marking && s.resend.todo != [] && s.resend.todo[0] == key
  }

  /** No status write of a resend is given up, and no crash falls between its send and that write. */
  ghost predicate StatusWritesComplete(s: System, actions: seq<Action>)
    decreases |actions|
  {
    actions != [] ==>
      && !actions[0].ResendMarkLost?
      && (actions[0].Crash? ==> !(s.resend.Pass? && s.resend.phase == Marking))
      && StatusWritesComplete(Step(s, actions[0]), actions[1..])
  }

  ghost predicate NoNewStale(s: System, s': System) {
    && s'.resend == s.resend
    && forall key :: Stale(key, s'.db.deliveries, s'.confirmed) ==> Stale(key, s.db.deliveries, s.confirmed)
  }

  lemma AddedRowsMakeNoStale(s: System, db: Db)
    requires Booking(s)
    requires AddsOnlyRowsOf(s.db, db, s.db.nextMatchId, {Immediate, Target, Digest}, {Grouped, Pending, Historical})
    ensures forall key :: Stale(key, db.deliveries, s.confirmed) ==> Stale(key, s.db.deliveries, s.confirmed)
  {
    forall key | Stale(key, db.deliveries, s.confirmed) ensures Stale(key, s.db.deliveries, s.confirmed) {
      assert key in s.db.deliveries;
    }
  }

  lemma LiveMakesNoStale(s: System, a: Action)
    requires Booking(s) && a.Live?
    ensures NoNewStale(s, Step(s, a))
  {
    var w := WritePhase(a.panel, s.db, s.seen, a.message, a.rule, a.text, a.candidates);
    WritePhaseShape(a.panel, s.db, s.seen, a.message, a.rule, a.text, a.candidates);
    assert Step(s, a).db == w.db && Step(s, a).confirmed == s.confirmed;
    if !WritesNoMatch(s.db, w) {
      AddedRowsMakeNoStale(s, w.db);
    }
  }

  lemma HistoricalMakesNoStale(s: System, a: Action)
    requires Booking(s) && a.HistoricalMatch?
    ensures NoNewStale(s, Step(s, a))
  {
    var db := HistoricalWrite(a.panel, s.db, a.message, a.rule, a.text, a.candidates);
    HistoricalShape(a.panel, s.db, a.message, a.rule, a.text, a.candidates);
    assert Step(s, a).db == db && Step(s, a).confirmed == s.confirmed;
    if db != s.db {
      AddedRowsMakeNoStale(s, db);
    }
  }

  lemma ReturnMakesNoStale(s: System, id: nat)
    requires Invariant(s)
    ensures NoNewStale(s, Step(s, CallReturned(id)))
  {
    if id in s.tasks && s.tasks[id].todo != [] && s.tasks[id].calling {
      assert TaskOk(id, s.tasks[id], s.channel, s.db.deliveries, s.confirmed);
    }
  }

  lemma RecordMakesNoStale(s: System, id: nat)
    requires Invariant(s)
    ensures NoNewStale(s, Step(s, Record(id)))
  {
    if id in s.tasks && s.tasks[id].todo == [] {
      assert TaskOk(id, s.tasks[id], s.channel, s.db.deliveries, s.confirmed);
      var s' := Step(s, Record(id));
      forall key | Stale(key, s'.db.deliveries, s'.confirmed) ensures Stale(key, s.db.deliveries, s.confirmed) {
      }
    }
  }

  lemma DeleteMakesNoStale(s: System, ids: set<nat>)
    ensures NoNewStale(s, Step(s, Delete(ids)))
  {
  }

  lemma ResendReturnedKeepsStaleInFlight(s: System)
    requires Invariant(s) && StaleOnlyInFlight(s)
    ensures StaleOnlyInFlight(Step(s, ResendReturned))
  {
    if s.resend.Pass? && s.resend.todo != [] && s.resend.phase == Calling {
      var head := s.resend.todo[0];
      assert CandidateOk(head, s.tasks, s.channel, s.confirmed, s.delivered);
      var s' := Step(s, ResendReturned);
      forall key | Stale(key, s.db.deliveries, s'.confirmed) ensures key == head {
        if PairOf(key) != PairOf(head) {
          assert Stale(key, s.db.deliveries, s.confirmed);
        }
      }
    }
  }

  lemma ResendMarkKeepsStaleInFlight(s: System)
    requires StaleOnlyInFlight(s)
    ensures StaleOnlyInFlight(DoResendMark(s))
  {
    var s' := DoResendMark(s);
    forall key ensures Stale(key, s'.db.deliveries, s.confirmed) ==> Stale(key, s.db.deliveries, s.confirmed) {
    }
  }

  lemma QuietStepMakesNoStale(s: System, a: Action)
    requires a.LiveRolledBack? || a.CallBegin? || a.CallRaised? || a.Abandon?
    ensures NoNewStale(s, Step(s, a))
  {
    var s' := Step(s, a);
    if a.CallBegin? {
      CallBeginOnlyMovesTasks(s, a.id, a.gate);
    } else if a.CallRaised? {
      CallRaisedOnlyMovesTasks(s, a.id);
    }
    assert s'.resend == s.resend && s'.db == s.db && s'.confirmed == s.confirmed;
  }

  lemma DigestRowMakesNoStale(s: System, a: Action)
    requires a.DigestRow?
    ensures NoNewStale(s, Step(s, a))
  {
  }

  /** Moving a resend on from any phase but the pending status write. */
  ghost predicate MovesResend(s: System, s': System) {
    && s'.db == s.db && s'.confirmed == s.confirmed
    && (s.resend.Pass? && s.resend.phase == Marking && s.resend.todo != [] ==> s'.resend == s.resend)
  }

  lemma ResendLoadMovesResend(s: System, keys: seq<DeliveryKey>)
    ensures MovesResend(s, DoResendLoad(s, keys))
  {
  }

  lemma ResendCallMovesResend(s: System, gate: Gate)
    ensures MovesResend(s, DoResendCall(s, gate))
  {
  }

  lemma ResendStepMovesResend(s: System, a: Action)
    requires a.ResendLoad? || a.ResendCall? || a.ResendRaised? || a.Crash?
    requires a.Crash? ==> !(s.resend.Pass? && s.resend.phase == Marking)
    ensures MovesResend(s, Step(s, a))
  {
    if a.ResendLoad? {
      ResendLoadMovesResend(s, a.keys);
    } else if a.ResendCall? {
      ResendCallMovesResend(s, a.gate);
    } else if a.ResendRaised? {
      assert MovesResend(s, DoResendRaised(s));
    }
  }

  lemma MovingResendKeepsStaleInFlight(s: System, s': System)
    requires StaleOnlyInFlight(s) && MovesResend(s, s')
    ensures StaleOnlyInFlight(s')
  {
  }

  lemma NoNewStaleKeepsStaleInFlight(s: System, s': System)
    requires StaleOnlyInFlight(s) && NoNewStale(s, s')
    ensures StaleOnlyInFlight(s')
  {
  }

  /** The steps that leave a resend alone. */
  lemma OtherStepMakesNoStale(s: System, a: Action)
    requires Invariant(s) && !a.ResendLoad? && !a.ResendCall? && !a.ResendReturned? && !a.ResendRaised?
    requires !a.ResendMark? && !a.ResendMarkLost? && !a.Crash?
    ensures NoNewStale(s, Step(s, a))
  {
    if a.Live? {
      LiveMakesNoStale(s, a);
    } else if a.HistoricalMatch? {
      HistoricalMakesNoStale(s, a);
    } else if a.CallReturned? {
      ReturnMakesNoStale(s, a.id);
    } else if a.Record? {
      RecordMakesNoStale(s, a.id);
    } else if a.Delete? {
      DeleteMakesNoStale(s, a.ids);
    } else if a.DigestRow? {
      DigestRowMakesNoStale(s, a);
    } else {
      QuietStepMakesNoStale(s, a);
    }
  }

  lemma StepKeepsStaleInFlight(s: System, a: Action)
    requires Invariant(s) && StaleOnlyInFlight(s) && !a.ResendMarkLost?
    requires a.Crash? ==> !(s.resend.Pass? && s.resend.phase == Marking)
    ensures StaleOnlyInFlight(Step(s, a))
  {
    if a.ResendReturned? {
      ResendReturnedKeepsStaleInFlight(s);
    } else if a.ResendMark? {
      ResendMarkKeepsStaleInFlight(s);
      assert Step(s, a) == DoResendMark(s).(clock := s.clock + 1);
    } else if a.ResendLoad? || a.ResendCall? || a.ResendRaised? || a.Crash? {
      ResendStepMovesResend(s, a);
      MovingResendKeepsStaleInFlight(s, Step(s, a));
    } else {
      OtherStepMakesNoStale(s, a);
      NoNewStaleKeepsStaleInFlight(s, Step(s, a));
    }
  }

  lemma {:induction false} CompleteWritesCrashSafely(s: System, actions: seq<Action>)
    requires Invariant(s) && StaleOnlyInFlight(s) && StatusWritesComplete(s, actions)
    ensures CrashesSafely(s, actions)
    decreases |actions|
  {
    if actions != [] {
      assert actions[0].Crash? ==> SafeCrash(s);
      StepKeepsInvariant(s, actions[0]);
      StepKeepsStaleInFlight(s, actions[0]);
      CompleteWritesCrashSafely(Step(s, actions[0]), actions[1..]);
    }
  }

  /** So the promise survives every crash, unless it falls between a resend's send and its status
      write, or that write was given up before. */
  lemma CrashesAreHarmlessOutsideAResend(cursors: map<int, int>, actions: seq<Action>, pair: Pair)
    requires StatusWritesComplete(Boot(cursors), actions)
    ensures Run(Boot(cursors), actions).confirmed[pair] <= 1
  {
    CompleteWritesCrashSafely(Boot(cursors), actions);
    AtMostOneConfirmedAlert(cursors, actions, pair);
  }

  // ---------------------------------------------------------------------------------------------
  // Exactly which crashes are harmless

  /** Alert rows that matter have their match: a resend's candidates, and rows that lag behind. */
  ghost predicate RowsHaveMatches(s: System) {
    && (s.resend.Pass? ==>
          forall key :: key in s.resend.todo && key in s.db.deliveries ==> key.matchId in s.db.matches)
    && (forall key :: Stale(key, s.db.deliveries, s.confirmed) ==> key.matchId in s.db.matches)
  }

  /** Rows are added only for a new match, or for one whose alerts are going out; no match goes. */
  ghost predicate AddsRowsInPlace(s: System, s': System) {
    && s.db.matches.Keys <= s'.db.matches.Keys
    && forall key :: key in s'.db.deliveries && key !in s.db.deliveries ==>
         key.matchId == s.db.nextMatchId || key.matchId in s.tasks
  }

  lemma AddedInPlaceKeepsMatches(s: System, s': System)
    requires Invariant(s) && RowsHaveMatches(s) && NoNewStale(s, s') && AddsRowsInPlace(s, s')
    ensures RowsHaveMatches(s')
  {
    if s.resend.Pass? {
      forall key | key in s.resend.todo && key in s'.db.deliveries ensures key.matchId in s'.db.matches {
        assert CandidateOk(key, s.tasks, s.channel, s.confirmed, s.delivered);
        assert key.matchId in s.created;
      }
    }
  }

  lemma LiveAddsInPlace(s: System, a: Action)
    requires Invariant(s) && a.Live?
    ensures AddsRowsInPlace(s, Step(s, a))
  {
    WritePhaseShape(a.panel, s.db, s.seen, a.message, a.rule, a.text, a.candidates);
    assert Step(s, a).db == WritePhase(a.panel, s.db, s.seen, a.message, a.rule, a.text, a.candidates).db;
  }

  lemma HistoricalAddsInPlace(s: System, a: Action)
    requires Invariant(s) && a.HistoricalMatch?
    ensures AddsRowsInPlace(s, Step(s, a))
  {
    HistoricalShape(a.panel, s.db, a.message, a.rule, a.text, a.candidates);
    assert Step(s, a).db == HistoricalWrite(a.panel, s.db, a.message, a.rule, a.text, a.candidates);
  }

  lemma RecordAddsInPlace(s: System, id: nat)
    ensures AddsRowsInPlace(s, Step(s, Record(id)))
  {
  }

  lemma QuietStepAddsNothing(s: System, a: Action)
    requires a.LiveRolledBack? || a.DigestRow? || a.CallBegin? || a.CallReturned? || a.CallRaised? || a.Abandon?
    ensures AddsRowsInPlace(s, Step(s, a))
  {
    if a.CallBegin? {
      CallBeginOnlyMovesTasks(s, a.id, a.gate);
    } else if a.CallReturned? {
      CallReturnedOnlyMovesTasks(s, a.id);
    } else if a.CallRaised? {
      CallRaisedOnlyMovesTasks(s, a.id);
    }
  }

  lemma DeleteKeepsMatchesOfRows(s: System, ids: set<nat>)
    requires RowsHaveMatches(s)
    ensures RowsHaveMatches(Step(s, Delete(ids)))
  {
    DeleteMakesNoStale(s, ids);
  }

  lemma ResendLoadKeepsMatchesOfRows(s: System, keys: seq<DeliveryKey>)
    requires RowsHaveMatches(s)
    ensures RowsHaveMatches(DoResendLoad(s, keys))
  {
  }

  lemma ResendMoveKeepsMatchesOfRows(s: System, s': System)
    requires RowsHaveMatches(s) && s'.db == s.db && s'.confirmed == s.confirmed
    requires s'.resend.Pass? ==> s.resend.Pass? && forall key :: key in s'.resend.todo ==> key in s.resend.todo
    ensures RowsHaveMatches(s')
  {
  }

  lemma ResendReturnedKeepsMatchesOfRows(s: System)
    requires Invariant(s) && RowsHaveMatches(s)
    ensures RowsHaveMatches(DoResendReturned(s))
  {
    if s.resend.Pass? && s.resend.todo != [] && s.resend.phase == Calling {
      var head, s' := s.resend.todo[0], DoResendReturned(s);
      assert CandidateOk(head, s.tasks, s.channel, s.confirmed, s.delivered);
      forall key | Stale(key, s.db.deliveries, s'.confirmed) ensures key.matchId in s.db.matches {
        assert PairOf(key) != PairOf(head) ==> Stale(key, s.db.deliveries, s.confirmed);
        assert PairOf(key) == PairOf(head) ==> key == head;
      }
    }
  }

  lemma ResendMarkKeepsMatchesOfRows(s: System)
    requires RowsHaveMatches(s)
    ensures RowsHaveMatches(DoResendMark(s))
  {
    var s' := DoResendMark(s);
    forall key | Stale(key, s'.db.deliveries, s.confirmed) ensures Stale(key, s.db.deliveries, s.confirmed) {
    }
  }

  lemma ResendStepsKeepMatchesOfRows(s: System, a: Action)
    requires Invariant(s) && RowsHaveMatches(s)
    requires a.ResendLoad? || a.ResendCall? || a.ResendReturned? || a.ResendRaised? || a.ResendMark? || a.ResendMarkLost?
    ensures RowsHaveMatches(Step(s, a))
  {
    if a.ResendLoad? {
      ResendLoadKeepsMatchesOfRows(s, a.keys);
    } else if a.ResendCall? {
      ResendCallOnlyMovesResend(s, a.gate);
      ResendMoveKeepsMatchesOfRows(s, DoResendCall(s, a.gate));
    } else if a.ResendReturned? {
      ResendReturnedKeepsMatchesOfRows(s);
    } else if a.ResendRaised? {
      ResendMoveKeepsMatchesOfRows(s, DoResendRaised(s));
    } else if a.ResendMark? {
      ResendMarkKeepsMatchesOfRows(s);
    } else {
      ResendMoveKeepsMatchesOfRows(s, DoResendMarkLost(s));
    }
  }

  lemma StepKeepsMatchesOfRows(s: System, a: Action)
    requires Invariant(s) && RowsHaveMatches(s)
    ensures RowsHaveMatches(Step(s, a))
  {
    if a.Delete? {
      DeleteKeepsMatchesOfRows(s, a.ids);
    } else if a.Crash? {
      AfterACrash(s);
    } else if a.ResendLoad? || a.ResendCall? || a.ResendReturned? || a.ResendRaised? || a.ResendMark? || a.ResendMarkLost? {
      ResendStepsKeepMatchesOfRows(s, a);
    } else {
      OtherStepMakesNoStale(s, a);
      if a.Live? {
        LiveAddsInPlace(s, a);
      } else if a.HistoricalMatch? {
        HistoricalAddsInPlace(s, a);
      } else if a.Record? {
        RecordAddsInPlace(s, a.id);
      } else {
        QuietStepAddsNothing(s, a);
      }
      AddedInPlaceKeepsMatches(s, Step(s, a));
    }
  }

  lemma {:induction false} RunKeepsMatchesOfRows(s: System, actions: seq<Action>)
    requires Invariant(s) && RowsHaveMatches(s) && CrashesSafely(s, actions)
    ensures RowsHaveMatches(Run(s, actions))
    decreases |actions|
  {
    if actions != [] {
      StepKeepsInvariant(s, actions[0]);
      StepKeepsMatchesOfRows(s, actions[0]);
      RunKeepsMatchesOfRows(Step(s, actions[0]), actions[1..]);
    }
  }

  lemma {:induction false} RunsWithoutCrashAreSafe(s: System, actions: seq<Action>)
    requires forall i :: 0 <= i < |actions| ==> !actions[i].Crash?
    ensures CrashesSafely(s, actions)
    decreases |actions|
  {
    if actions != [] {
      RunsWithoutCrashAreSafe(Step(s, actions[0]), actions[1..]);
    }
  }

  /** From `s` on, no further run with harmless crashes confirms anything twice. */
  ghost predicate NeverTwice(s: System) {
    forall after, pair :: CrashesSafely(s, after) ==> Run(s, after).confirmed[pair] <= 1
  }

  lemma HarmlessCrash(s: System)
    requires Invariant(s) && SafeCrash(s)
    ensures NeverTwice(Step(s, Crash))
  {
    StepKeepsInvariant(s, Crash);
    forall after, pair | CrashesSafely(Step(s, Crash), after) ensures Run(Step(s, Crash), after).confirmed[pair] <= 1 {
      RunKeepsInvariant(Step(s, Crash), after);
    }
  }

  lemma HarmfulCrash(s: System, key: DeliveryKey)
    requires RowsHaveMatches(s) && Stale(key, s.db.deliveries, s.confirmed)
    ensures !NeverTwice(Step(s, Crash))
  {
    AfterACrash(s);
    var s' := Step(s, Crash);
    assert Resendable(s', key);
    OneResendConfirms(s', key);
    RunsWithoutCrashAreSafe(s', OneResend(key));
    assert Run(s', OneResend(key)).confirmed[PairOf(key)] >= 2;
  }

  /** After any run so far without a harmful crash, a crash leaves the promise intact exactly when no confirmed
      alert's row still says `failed`. */
  lemma CrashIsHarmlessIffNoRowLagsBehind(cursors: map<int, int>, before: seq<Action>)
    requires CrashesSafely(Boot(cursors), before)
    ensures var s := Run(Boot(cursors), before); NeverTwice(Step(s, Crash)) <==> SafeCrash(s)
  {
    RunKeepsInvariant(Boot(cursors), before);
    RunKeepsMatchesOfRows(Boot(cursors), before);
    var s := Run(Boot(cursors), before);
    if SafeCrash(s) {
      HarmlessCrash(s);
    } else {
      var key :| Stale(key, s.db.deliveries, s.confirmed);
      HarmfulCrash(s, key);
    }
  }

  // ---------------------------------------------------------------------------------------------
  // What the rows say was sent

  ghost predicate OutcomesTrue(tasks: map<nat, Task>, confirmed: multiset<Pair>) {
    forall id, r :: id in tasks && r in tasks[id].outcomes && tasks[id].outcomes[r] == Sent ==> (id, r) in confirmed
  }

  ghost predicate RowsTrue(deliveries: map<DeliveryKey, Status>, confirmed: multiset<Pair>) {
    forall key :: key in deliveries && key.kind != Digest && deliveries[key] == Sent ==> PairOf(key) in confirmed
  }

  ghost predicate IdsTaken(deliveries: map<DeliveryKey, Status>, tasks: map<nat, Task>, next: nat) {
    (forall key :: key in deliveries ==> key.matchId < next) && (forall id :: id in tasks ==> id < next)
  }

  ghost predicate MemoryTrue(resend: Resend, delivered: set<Pair>, confirmed: multiset<Pair>) {
    && (forall pair :: pair in delivered ==> pair in confirmed)
    && (resend.Pass? && resend.phase == Marking && resend.todo != [] ==> PairOf(resend.todo[0]) in confirmed)
  }

  /** Whatever is recorded, or about to be, as sent was confirmed. */
  ghost predicate Truthful(s: System) {
    && IdsTaken(s.db.deliveries, s.tasks, s.db.nextMatchId)
    && OutcomesTrue(s.tasks, s.confirmed) && RowsTrue(s.db.deliveries, s.confirmed)
    && MemoryTrue(s.resend, s.delivered, s.confirmed)
  }

  lemma NewRowsAreTrue(s: System, db: Db)
    requires Truthful(s) && db.nextMatchId == s.db.nextMatchId + 1
    requires AddsOnlyRowsOf(s.db, db, s.db.nextMatchId, {Immediate, Target, Digest}, {Grouped, Pending, Historical})
    ensures IdsTaken(db.deliveries, s.tasks, db.nextMatchId) && RowsTrue(db.deliveries, s.confirmed)
  {
    forall key | key in db.deliveries ensures key.matchId < db.nextMatchId {
      assert key !in s.db.deliveries ==> key.matchId == s.db.nextMatchId;
    }
  }

  lemma LiveStaysTrue(s: System, a: Action)
    requires Truthful(s) && a.Live?
    ensures Truthful(Step(s, a))
  {
    var w := WritePhase(a.panel, s.db, s.seen, a.message, a.rule, a.text, a.candidates);
    WritePhaseShape(a.panel, s.db, s.seen, a.message, a.rule, a.text, a.candidates);
    if WritesNewMatch(s.db, w, NewRow(a.message, a.rule, a.text.price)) {
      NewRowsAreTrue(s, w.db);
    }
  }

  lemma HistoricalStaysTrue(s: System, a: Action)
    requires Truthful(s) && a.HistoricalMatch?
    ensures Truthful(Step(s, a))
  {
    var db := HistoricalWrite(a.panel, s.db, a.message, a.rule, a.text, a.candidates);
    HistoricalShape(a.panel, s.db, a.message, a.rule, a.text, a.candidates);
    if db != s.db {
      NewRowsAreTrue(s, db);
    }
  }

  lemma RecordStaysTrue(s: System, id: nat)
    requires Truthful(s)
    ensures Truthful(DoRecord(s, id))
  {
  }

  lemma CallBeginStaysTrue(s: System, id: nat, gate: Gate)
    requires Truthful(s)
    ensures Truthful(DoCallBegin(s, id, gate))
  {
    CallBeginOnlyMovesTasks(s, id, gate);
  }

  lemma CallReturnedStaysTrue(s: System, id: nat)
    requires Truthful(s)
    ensures Truthful(DoCallReturned(s, id))
  {
    CallReturnedOnlyMovesTasks(s, id);
  }

  lemma CallRaisedStaysTrue(s: System, id: nat)
    requires Truthful(s)
    ensures Truthful(DoCallRaised(s, id))
  {
    CallRaisedOnlyMovesTasks(s, id);
  }

  lemma ResendCallStaysTrue(s: System, gate: Gate)
    requires Truthful(s)
    ensures Truthful(DoResendCall(s, gate))
  {
    ResendCallOnlyMovesResend(s, gate);
  }

  lemma ResendReturnedStaysTrue(s: System)
    requires Truthful(s)
    ensures Truthful(DoResendReturned(s))
  {
    ResendReturnedOnlyMovesResend(s);
  }

  lemma ResendMarkStaysTrue(s: System)
    requires Truthful(s)
    ensures Truthful(DoResendMark(s))
  {
    ResendMarkFlipsOneRow(s);
  }

  lemma ResendStaysTrue(s: System, a: Action)
    requires Truthful(s)
    requires a.ResendLoad? || a.ResendCall? || a.ResendReturned? || a.ResendRaised? || a.ResendMark? || a.ResendMarkLost?
    ensures Truthful(Step(s, a))
  {
    match a {
      case ResendCall(gate) => ResendCallStaysTrue(s, gate);
      case ResendReturned => ResendReturnedStaysTrue(s);
      case ResendMark => ResendMarkStaysTrue(s);
      case _ =>
    }
  }

  lemma StepStaysTrue(s: System, a: Action)
    requires Truthful(s)
    ensures Truthful(Step(s, a))
  {
    if a.Live? {
      LiveStaysTrue(s, a);
    } else if a.HistoricalMatch? {
      HistoricalStaysTrue(s, a);
    } else if a.Record? {
      RecordStaysTrue(s, a.id);
    } else if a.CallBegin? {
      CallBeginStaysTrue(s, a.id, a.gate);
    } else if a.CallReturned? {
      CallReturnedStaysTrue(s, a.id);
    } else if a.CallRaised? {
      CallRaisedStaysTrue(s, a.id);
    } else if a.Delete? || a.LiveRolledBack? || a.DigestRow? || a.Abandon? || a.Crash? {
    } else {
      ResendStaysTrue(s, a);
    }
  }

  lemma {:induction false} RunStaysTrue(s: System, actions: seq<Action>)
    requires Truthful(s)
    ensures Truthful(Run(s, actions))
    decreases |actions|
  {
    if actions != [] {
      StepStaysTrue(s, actions[0]);
      RunStaysTrue(Step(s, actions[0]), actions[1..]);
    }
  }

  /** The panel never shows an alert as sent that did not go out: in every reachable state, whatever crashed, was
      deleted or was resent, each alert row that says `sent` stands for a confirmed send to its recipient. */
  lemma SentRowsWereConfirmed(cursors: map<int, int>, actions: seq<Action>, key: DeliveryKey)
    ensures var s := Run(Boot(cursors), actions);
            key in s.db.deliveries && key.kind != Digest && s.db.deliveries[key] == Sent ==>
              s.confirmed[(key.matchId, key.recipient)] >= 1
  {
    RunStaysTrue(Boot(cursors), actions);
  }
}
