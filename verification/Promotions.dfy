/** One promotion, one alert: two matches of the same rule and price within the grouping window.

    The grouping check reads what is already stored as `sent`, so the promise is about time: whichever
    of two such matches was stored second was stored before the first one's alert was recorded. */
module Promotions {
  import opened Options
  import opened Pipeline
  import opened Alerts

  type AlertRows = map<DeliveryKey, Status>

  ghost predicate ChannelsKnown(channel: map<nat, Kind>, created: map<nat, Match>) {
    channel.Keys <= created.Keys && forall id :: id in channel ==> channel[id] in {Immediate, Target}
  }

  ghost predicate TasksOnChannel(tasks: map<nat, Task>, channel: map<nat, Kind>) {
    forall id :: id in tasks ==> id in channel && channel[id] == tasks[id].kind
  }

  /** While a match's alerts are going out it has bookkeeping rows only. */
  ghost predicate TasksUnrecorded(tasks: map<nat, Task>, rows: AlertRows) {
    forall key :: key in rows && key.matchId in tasks ==> rows[key] == Grouped && key.kind != Digest
  }

  ghost predicate RowsBelow(rows: AlertRows, next: nat) {
    forall key :: key in rows ==> key.matchId < next
  }

  ghost predicate OnItsChannel(key: DeliveryKey, channel: map<nat, Kind>) {
    key.kind in {Immediate, Target} && key.matchId in channel && channel[key.matchId] == key.kind
  }

  ghost predicate CandidatesKept(resend: Resend, tasks: map<nat, Task>, channel: map<nat, Kind>) {
    resend.Pass? ==> forall key :: key in resend.todo ==> OnItsChannel(key, channel) && key.matchId !in tasks
  }

  ghost predicate HasSentRow(id: nat, kind: Kind, rows: AlertRows) {
    exists r :: DeliveryKey(id, r, kind) in rows && rows[DeliveryKey(id, r, kind)] == Sent
  }

  ghost predicate SentOnce(sentAt: map<nat, nat>, channel: map<nat, Kind>, tasks: map<nat, Task>, clock: nat) {
    forall id :: id in sentAt ==> id in channel && id !in tasks && sentAt[id] < clock
  }

  /** Every stored match in `sentAt` has a `sent` alert row ... */
  ghost predicate SentKept(sentAt: map<nat, nat>, channel: map<nat, Kind>, matches: map<nat, Match>, rows: AlertRows) {
    forall id :: id in sentAt && id in matches && id in channel ==> HasSentRow(id, channel[id], rows)
  }

  /** ... and every match with such a row is in `sentAt`. */
  ghost predicate SentSeen(rows: AlertRows, sentAt: map<nat, nat>) {
    forall key :: key in rows && key.kind in {Immediate, Target} && rows[key] == Sent ==> key.matchId in sentAt
  }

  /** `b` was stored before `a` was first recorded as sent, if both belong to one promotion and channel. */
  ghost predicate Apart(
      a: nat, b: nat, matches: map<nat, Match>, channel: map<nat, Kind>, persistedAt: map<nat, nat>, sentAt: map<nat, nat>)
  {
    a != b && a in matches && b in matches && a in sentAt && b in channel && a in channel && channel[a] == channel[b]
      && SamePromotion(matches[a], matches[b]) ==>
      b in persistedAt && persistedAt[b] < sentAt[a]
  }

  ghost predicate AllApart(
      matches: map<nat, Match>, channel: map<nat, Kind>, persistedAt: map<nat, nat>, sentAt: map<nat, nat>)
  {
    forall a, b :: a in matches && b in matches ==> Apart(a, b, matches, channel, persistedAt, sentAt)
  }

  ghost predicate Grouping(s: System) {
    && MatchesBooked(s.db, s.created, s.persistedAt, s.clock)
    && ChannelsKnown(s.channel, s.created)
    && RowsOnChannel(s.db.deliveries, s.channel) && RowsBelow(s.db.deliveries, s.db.nextMatchId)
    && TasksOnChannel(s.tasks, s.channel) && TasksUnrecorded(s.tasks, s.db.deliveries)
    && CandidatesKept(s.resend, s.tasks, s.channel)
    && SentOnce(s.sentAt, s.channel, s.tasks, s.clock)
    && SentKept(s.sentAt, s.channel, s.db.matches, s.db.deliveries)
    && SentSeen(s.db.deliveries, s.sentAt)
    && AllApart(s.db.matches, s.channel, s.persistedAt, s.sentAt)
  }

  lemma SamePromotionIsSymmetric(a: Match, b: Match)
    ensures SamePromotion(a, b) == SamePromotion(b, a)
  {
  }

  lemma StoreKeepsGrouping(s: System, db: Db, seen: set<Signature>, row: Match)
    requires Grouping(s)
    requires db.matches == s.db.matches[s.db.nextMatchId := row] && db.nextMatchId == s.db.nextMatchId + 1
    requires AddsOnlyRowsOf(s.db, db, s.db.nextMatchId, {Immediate, Target, Digest}, {Grouped, Pending, Historical})
    ensures Grouping(Booked(s, db, seen).(clock := s.clock + 1))
  {
    var id := s.db.nextMatchId;
    assert Booked(s, db, seen) == s.(db := db, seen := seen, created := s.created[id := row],
                                     persistedAt := s.persistedAt[id := s.clock]);
    StoreKeepsRows(s, db);
    StoreKeepsSent(s, db);
    StoreKeepsApart(s.db.matches, s.channel, s.persistedAt, s.sentAt, id, row, s.clock);
  }

  lemma StoreKeepsSent(s: System, db: Db)
    requires Grouping(s) && db.matches.Keys <= s.db.matches.Keys + {s.db.nextMatchId}
    requires AddsOnlyRowsOf(s.db, db, s.db.nextMatchId, {Immediate, Target, Digest}, {Grouped, Pending, Historical})
    ensures SentKept(s.sentAt, s.channel, db.matches, db.deliveries)
  {
    forall id | id in s.sentAt && id in db.matches && id in s.channel ensures HasSentRow(id, s.channel[id], db.deliveries) {
      SentRowSurvives(s, db.deliveries, id);
    }
  }

  lemma StoreKeepsApart(
      matches: map<nat, Match>, channel: map<nat, Kind>, persistedAt: map<nat, nat>, sentAt: map<nat, nat>,
      id: nat, row: Match, now: nat)
    requires AllApart(matches, channel, persistedAt, sentAt) && id !in matches && id !in channel
    ensures AllApart(matches[id := row], channel, persistedAt[id := now], sentAt)
  {
    var grown := matches[id := row];
    forall a, b | a in grown && b in grown
      ensures Apart(a, b, grown, channel, persistedAt[id := now], sentAt)
    {
      if a in matches && b in matches {
        assert Apart(a, b, matches, channel, persistedAt, sentAt);
      }
    }
  }

  lemma StoreKeepsRows(s: System, db: Db)
    requires Grouping(s) && db.nextMatchId == s.db.nextMatchId + 1
    requires AddsOnlyRowsOf(s.db, db, s.db.nextMatchId, {Immediate, Target, Digest}, {Grouped, Pending, Historical})
    ensures RowsOnChannel(db.deliveries, s.channel) && RowsBelow(db.deliveries, db.nextMatchId)
    ensures TasksUnrecorded(s.tasks, db.deliveries) && SentSeen(db.deliveries, s.sentAt)
  {
    assert forall id :: id in s.tasks ==> id in s.created && id < s.db.nextMatchId;
    forall key | key in db.deliveries && key !in s.db.deliveries
      ensures key.matchId == s.db.nextMatchId && db.deliveries[key] !in {Sent, Failed}
    {
    }
  }

  lemma SentRowSurvives(s: System, rows: AlertRows, id: nat)
    requires Grouping(s) && id in s.sentAt && id in s.channel && id in s.db.matches
    requires forall key :: key in s.db.deliveries && key.matchId == id && key.kind != Digest && s.db.deliveries[key] == Sent ==>
               key in rows && rows[key] == Sent
    ensures HasSentRow(id, s.channel[id], rows)
  {
    assert HasSentRow(id, s.channel[id], s.db.deliveries);
    var r :| DeliveryKey(id, r, s.channel[id]) in s.db.deliveries
             && s.db.deliveries[DeliveryKey(id, r, s.channel[id])] == Sent;
    assert rows[DeliveryKey(id, r, s.channel[id])] == Sent;
  }

  /** Clearing the newest match to alert: no stored match of its promotion was sent on that channel. */
  lemma StartKeepsGrouping(s: System, id: nat, kind: Kind, recipients: seq<int>)
    requires Grouping(s) && id in s.db.matches && id in s.persistedAt && id !in s.channel && kind in {Immediate, Target}
    requires forall a :: a in s.db.matches && a in s.sentAt && s.channel[a] == kind ==>
               !SamePromotion(s.db.matches[id], s.db.matches[a])
    requires OnlyGrouped(id, s.db.deliveries)
    ensures Grouping(s.(tasks := s.tasks[id := Task(kind, recipients, 0, false, map[])], channel := s.channel[id := kind]))
  {
    var tasks, channel := s.tasks[id := Task(kind, recipients, 0, false, map[])], s.channel[id := kind];
    assert id !in s.sentAt;
    assert SentKept(s.sentAt, channel, s.db.matches, s.db.deliveries) by {
      forall other | other in s.sentAt && other in s.db.matches && other in channel
        ensures HasSentRow(other, channel[other], s.db.deliveries)
      {
        assert HasSentRow(other, s.channel[other], s.db.deliveries);
      }
    }
    forall a, b | a in s.db.matches && b in s.db.matches
      ensures Apart(a, b, s.db.matches, channel, s.persistedAt, s.sentAt)
    {
      assert Apart(a, b, s.db.matches, s.channel, s.persistedAt, s.sentAt);
      if b == id {
        SamePromotionIsSymmetric(s.db.matches[a], s.db.matches[b]);
      }
    }
  }

  lemma LiveKeepsGrouping(s: System, a: Action)
    requires Grouping(s) && a.Live?
    ensures Grouping(Step(s, a))
  {
    var w := WritePhase(a.panel, s.db, s.seen, a.message, a.rule, a.text, a.candidates);
    var row := NewRow(a.message, a.rule, a.text.price);
    WritePhaseShape(a.panel, s.db, s.seen, a.message, a.rule, a.text, a.candidates);
    if WritesNewMatch(s.db, w, row) {
      if w.ToSend? {
        LiveStartKeepsGrouping(s, w, row);
      } else {
        StoreKeepsGrouping(s, w.db, w.seen, row);
      }
    } else {
      QuietStepKeepsGrouping(s, Step(s, a));
    }
  }

  lemma LiveStartKeepsGrouping(s: System, w: Written, row: Match)
    requires Grouping(s) && w.ToSend? && WritesNewMatch(s.db, w, row)
    ensures var t := Task(w.kind, w.recipients, 0, false, map[]);
            Grouping(Booked(s, w.db, w.seen).(tasks := s.tasks[w.matchId := t], channel := s.channel[w.matchId := w.kind],
                                              clock := s.clock + 1))
  {
    var booked := Booked(s, w.db, w.seen).(clock := s.clock + 1);
    StoreKeepsGrouping(s, w.db, w.seen, row);
    assert booked.tasks == s.tasks && booked.channel == s.channel && booked.db == w.db && booked.sentAt == s.sentAt;
    forall other | other in w.db.matches && other in s.sentAt && s.channel[other] == w.kind
      ensures !SamePromotion(row, w.db.matches[other])
    {
      assert other in s.db.matches && HasSentRow(other, w.kind, s.db.deliveries);
    }
    assert w.matchId !in s.created;
    assert OnlyGrouped(w.matchId, w.db.deliveries);
    StartKeepsGrouping(booked, w.matchId, w.kind, w.recipients);
  }

  lemma HistoricalKeepsGrouping(s: System, a: Action)
    requires Grouping(s) && a.HistoricalMatch?
    ensures Grouping(Step(s, a))
  {
    var db := HistoricalWrite(a.panel, s.db, a.message, a.rule, a.text, a.candidates);
    if db != s.db {
      HistoricalShape(a.panel, s.db, a.message, a.rule, a.text, a.candidates);
      StoreKeepsGrouping(s, db, s.seen, NewRow(a.message, a.rule, a.text.price));
    } else {
      QuietStepKeepsGrouping(s, Step(s, a));
    }
  }

  /** Steps that touch no match, no alert row and no booking. */
  lemma QuietStepKeepsGrouping(s: System, s': System)
    requires Grouping(s) && s'.clock == s.clock + 1
    requires s'.db.matches == s.db.matches && s'.db.nextMatchId == s.db.nextMatchId && s'.db.deliveries == s.db.deliveries
    requires s'.created == s.created && s'.persistedAt == s.persistedAt && s'.channel == s.channel && s'.sentAt == s.sentAt
    requires s'.tasks.Keys <= s.tasks.Keys && TasksOnChannel(s'.tasks, s.channel)
    requires CandidatesKept(s'.resend, s'.tasks, s.channel)
    ensures Grouping(s')
  {
  }

  lemma DeleteKeepsGrouping(s: System, ids: set<nat>)
    requires Grouping(s)
    ensures Grouping(Step(s, Delete(ids)))
  {
    var db := DeleteMatches(s.db, ids);
    assert SentKept(s.sentAt, s.channel, db.matches, db.deliveries) by {
      forall id | id in s.sentAt && id in db.matches && id in s.channel ensures HasSentRow(id, s.channel[id], db.deliveries) {
        SentRowSurvives(s, db.deliveries, id);
      }
    }
    forall a, b | a in db.matches && b in db.matches
      ensures Apart(a, b, db.matches, s.channel, s.persistedAt, s.sentAt)
    {
      assert Apart(a, b, s.db.matches, s.channel, s.persistedAt, s.sentAt);
    }
  }

  lemma DigestRowKeepsGrouping(s: System, key: DeliveryKey, status: Status)
    requires Grouping(s)
    ensures Grouping(Step(s, DigestRow(key, status)))
  {
    if key in s.db.deliveries && key.kind == Digest {
      var rows := s.db.deliveries[key := status];
      assert SentKept(s.sentAt, s.channel, s.db.matches, rows) by {
        forall id | id in s.sentAt && id in s.db.matches && id in s.channel ensures HasSentRow(id, s.channel[id], rows) {
          SentRowSurvives(s, rows, id);
        }
      }
    }
  }

  ghost predicate SomeSent(rows: AlertRows) {
    exists key :: key in rows && rows[key] == Sent
  }

  /** Alert rows of one match change, on its own channel and never away from `sent`. */
  lemma RowsKeepGrouping(s: System, id: nat, rows: AlertRows, tasks: map<nat, Task>, resend: Resend)
    requires Grouping(s) && id in s.channel && id !in tasks && tasks.Keys <= s.tasks.Keys && TasksOnChannel(tasks, s.channel)
    requires forall key :: key in rows ==> key.matchId == id && key.kind == s.channel[id]
    requires id in s.sentAt ==> forall key :: key in rows ==> rows[key] == Sent
    requires CandidatesKept(resend, tasks, s.channel)
    ensures Grouping(s.(db := AddRows(s.db, rows), tasks := tasks, resend := resend, clock := s.clock + 1,
                        sentAt := if SomeSent(rows) then FirstSent(s, id) else s.sentAt))
  {
    RowsKeepSent(s, id, rows);
    RowsKeepApart(s, id);
    RowsStayInPlace(s, id, rows);
  }

  lemma RowsStayInPlace(s: System, id: nat, rows: AlertRows)
    requires Grouping(s) && id in s.channel
    requires forall key :: key in rows ==> key.matchId == id && key.kind == s.channel[id]
    ensures RowsOnChannel(s.db.deliveries + rows, s.channel) && RowsBelow(s.db.deliveries + rows, s.db.nextMatchId)
  {
  }

  lemma RowsKeepSent(s: System, id: nat, rows: AlertRows)
    requires Grouping(s) && id in s.channel
    requires forall key :: key in rows ==> key.matchId == id && key.kind == s.channel[id]
    requires id in s.sentAt ==> forall key :: key in rows ==> rows[key] == Sent
    ensures var sentAt := if SomeSent(rows) then FirstSent(s, id) else s.sentAt;
            && SentKept(sentAt, s.channel, s.db.matches, s.db.deliveries + rows)
            && SentSeen(s.db.deliveries + rows, sentAt)
  {
    var all := s.db.deliveries + rows;
    var sentAt := if SomeSent(rows) then FirstSent(s, id) else s.sentAt;
    forall other | other in sentAt && other in s.db.matches && other in s.channel
      ensures HasSentRow(other, s.channel[other], all)
    {
      if other in s.sentAt {
        SentRowSurvives(s, all, other);
      } else {
        var key :| key in rows && rows[key] == Sent;
        assert key == DeliveryKey(id, key.recipient, s.channel[id]) && all[key] == Sent;
      }
    }
    forall key | key in all && key.kind in {Immediate, Target} && all[key] == Sent ensures key.matchId in sentAt {
      if key in rows {
        assert SomeSent(rows);
      }
    }
  }

  /** A match recorded as sent now was recorded after everything stored so far. */
  lemma RowsKeepApart(s: System, id: nat)
    requires Grouping(s)
    ensures AllApart(s.db.matches, s.channel, s.persistedAt, FirstSent(s, id))
  {
    forall a, b | a in s.db.matches && b in s.db.matches
      ensures Apart(a, b, s.db.matches, s.channel, s.persistedAt, FirstSent(s, id))
    {
      assert Apart(a, b, s.db.matches, s.channel, s.persistedAt, s.sentAt);
      assert b in s.created;
    }
  }

  lemma SentAmongOutcomes(id: nat, t: Task)
    ensures AnySent(t) <==> SomeSent(OutcomeRows(id, t))
  {
    var rows := OutcomeRows(id, t);
    if AnySent(t) {
      var r :| r in t.outcomes && t.outcomes[r] == Sent;
      assert rows[DeliveryKey(id, r, t.kind)] == Sent;
    }
  }

  lemma RecordKeepsGrouping(s: System, id: nat)
    requires Grouping(s)
    ensures Grouping(Step(s, Record(id)))
  {
    if id in s.tasks && s.tasks[id].todo == [] {
      var t := s.tasks[id];
      SentAmongOutcomes(id, t);
      RowsKeepGrouping(s, id, OutcomeRows(id, t), s.tasks - {id}, s.resend);
    } else {
      QuietStepKeepsGrouping(s, Step(s, Record(id)));
    }
  }

  lemma FlipKeepsGrouping(s: System, key: DeliveryKey, resend: Resend)
    requires Grouping(s) && OnItsChannel(key, s.channel) && key.matchId !in s.tasks
    requires CandidatesKept(resend, s.tasks, s.channel)
    ensures Grouping(s.(db := AddRows(s.db, map[key := Sent]), resend := resend, clock := s.clock + 1,
                        sentAt := FirstSent(s, key.matchId)))
  {
    var rows := map[key := Sent];
    assert rows[key] == Sent;
    assert SomeSent(rows);
    RowsKeepGrouping(s, key.matchId, rows, s.tasks, resend);
  }

  lemma ResendMarkKeepsGrouping(s: System)
    requires Grouping(s)
    ensures Grouping(Step(s, ResendMark))
  {
    var s' := DoResendMark(s);
    ResendMarkFlipsOneRow(s);
    if s'.db == s.db && s'.sentAt == s.sentAt && OnlyResendMoves(s, s') {
      ResendMoveKeepsGrouping(s, s');
    } else {
      FlipKeepsGrouping(s, s.resend.todo[0], s'.resend);
    }
  }

  lemma CallBeginKeepsGrouping(s: System, id: nat, gate: Gate)
    requires Grouping(s)
    ensures Grouping(Step(s, CallBegin(id, gate)))
  {
    CallBeginOnlyMovesTasks(s, id, gate);
    QuietStepKeepsGrouping(s, Step(s, CallBegin(id, gate)));
  }

  lemma CallEndKeepsGrouping(s: System, a: Action)
    requires Grouping(s) && (a.CallReturned? || a.CallRaised?)
    ensures Grouping(Step(s, a))
  {
    if a.CallReturned? {
      CallReturnedOnlyMovesTasks(s, a.id);
    } else {
      CallRaisedOnlyMovesTasks(s, a.id);
    }
    QuietStepKeepsGrouping(s, Step(s, a));
  }

  lemma ResendLoadKeepsGrouping(s: System, keys: seq<DeliveryKey>)
    requires Grouping(s)
    ensures Grouping(Step(s, ResendLoad(keys)))
  {
    if Idle(s) && forall key :: key in keys ==> Resendable(s, key) {
      forall key | key in keys ensures OnItsChannel(key, s.channel) && key.matchId !in s.tasks {
        assert Resendable(s, key);
      }
    }
    QuietStepKeepsGrouping(s, Step(s, ResendLoad(keys)));
  }

  lemma ResendMoveKeepsGrouping(s: System, s': System)
    requires Grouping(s) && OnlyResendMoves(s, s')
    ensures Grouping(s'.(clock := s.clock + 1))
  {
    QuietStepKeepsGrouping(s, s'.(clock := s.clock + 1));
  }

  lemma ResendStepKeepsGrouping(s: System, a: Action)
    requires Grouping(s)
    requires a.ResendCall? || a.ResendReturned? || a.ResendRaised? || a.ResendMarkLost?
    ensures Grouping(Step(s, a))
  {
    if a.ResendCall? {
      ResendCallOnlyMovesResend(s, a.gate);
    } else if a.ResendReturned? {
      ResendReturnedOnlyMovesResend(s);
    }
    ResendMoveKeepsGrouping(s, Effect(s, a));
  }

  lemma StepKeepsGrouping(s: System, a: Action)
    requires Grouping(s)
    ensures Grouping(Step(s, a))
  {
    match a {
      case Live(_, _, _, _, _) => LiveKeepsGrouping(s, a);
      case HistoricalMatch(_, _, _, _, _) => HistoricalKeepsGrouping(s, a);
      case Delete(ids) => DeleteKeepsGrouping(s, ids);
      case DigestRow(key, status) => DigestRowKeepsGrouping(s, key, status);
      case CallBegin(id, gate) => CallBeginKeepsGrouping(s, id, gate);
      case CallReturned(_) => CallEndKeepsGrouping(s, a);
      case CallRaised(_) => CallEndKeepsGrouping(s, a);
      case Record(id) => RecordKeepsGrouping(s, id);
      case ResendLoad(keys) => ResendLoadKeepsGrouping(s, keys);
      case ResendMark => ResendMarkKeepsGrouping(s);
      case ResendCall(_) => ResendStepKeepsGrouping(s, a);
      case ResendReturned => ResendStepKeepsGrouping(s, a);
      case ResendRaised => ResendStepKeepsGrouping(s, a);
      case ResendMarkLost => ResendStepKeepsGrouping(s, a);
      case LiveRolledBack(_, _, _) => QuietStepKeepsGrouping(s, Step(s, a));
      case Abandon(_) => QuietStepKeepsGrouping(s, Step(s, a));
      case Crash => QuietStepKeepsGrouping(s, Step(s, a));
    }
  }

  lemma {:induction false} RunKeepsGrouping(s: System, actions: seq<Action>)
    requires Grouping(s)
    ensures Grouping(Run(s, actions))
    decreases |actions|
  {
    if actions != [] {
      StepKeepsGrouping(s, actions[0]);
      RunKeepsGrouping(Step(s, actions[0]), actions[1..]);
    }
  }

  /** In any run at all: when two matches of one promotion both have a `sent` row of the same channel,
      each was stored before the other was recorded as sent. A match stored after its promotion was
      recorded as sent is never sent again on that channel, in whatever order the timestamps come. */
  lemma RepeatsOverlapInTime(cursors: map<int, int>, actions: seq<Action>, a: nat, b: nat, kind: Kind)
    requires var s := Run(Boot(cursors), actions);
             && a != b && a in s.db.matches && b in s.db.matches && kind in {Immediate, Target}
             && SamePromotion(s.db.matches[a], s.db.matches[b])
             && HasSentRow(a, kind, s.db.deliveries) && HasSentRow(b, kind, s.db.deliveries)
    ensures var s := Run(Boot(cursors), actions);
            && a in s.sentAt && b in s.sentAt && a in s.persistedAt && b in s.persistedAt
            && s.persistedAt[b] < s.sentAt[a] && s.persistedAt[a] < s.sentAt[b]
  {
    RunKeepsGrouping(Boot(cursors), actions);
    var s := Run(Boot(cursors), actions);
    SamePromotionIsSymmetric(s.db.matches[a], s.db.matches[b]);
    SentRowNames(s, a, kind);
    SentRowNames(s, b, kind);
    assert Apart(a, b, s.db.matches, s.channel, s.persistedAt, s.sentAt);
    assert Apart(b, a, s.db.matches, s.channel, s.persistedAt, s.sentAt);
  }

  lemma SentRowNames(s: System, id: nat, kind: Kind)
    requires Grouping(s) && kind in {Immediate, Target} && HasSentRow(id, kind, s.db.deliveries)
    ensures id in s.sentAt && id in s.channel && s.channel[id] == kind
  {
    var r :| DeliveryKey(id, r, kind) in s.db.deliveries && s.db.deliveries[DeliveryKey(id, r, kind)] == Sent;
    assert DeliveryKey(id, r, kind) in s.db.deliveries;
  }

  // ---------------------------------------------------------------------------------------------
  // One message at a time

  /** Each message is finished before the next one starts, and nothing is resent. */
  ghost predicate OneAtATime(s: System, actions: seq<Action>)
    decreases |actions|
  {
    actions != [] ==>
      && (actions[0].Live? ==> s.tasks == map[]) && !actions[0].ResendMark?
      && OneAtATime(Step(s, actions[0]), actions[1..])
  }

  /** Whatever was sent was recorded before any later match was cleared to alert. */
  ghost predicate InOrder(s: System) {
    && (forall a, b :: a in s.sentAt && b in s.channel && a < b ==> b in s.persistedAt && s.sentAt[a] < s.persistedAt[b])
    && (forall id, b :: id in s.tasks && b in s.channel ==> b <= id)
  }

  lemma StepKeepsOrder(s: System, a: Action)
    requires Grouping(s) && InOrder(s) && !a.ResendMark? && (a.Live? ==> s.tasks == map[])
    ensures InOrder(Step(s, a))
  {
    match a {
      case Live(_, _, _, _, _) => LiveKeepsOrder(s, a);
      case HistoricalMatch(panel, message, rule, text, candidates) => HistoricalKeepsOrder(s, a);
      case CallBegin(id, gate) => CallBeginOnlyMovesTasks(s, id, gate);
      case CallReturned(id) => CallReturnedOnlyMovesTasks(s, id);
      case CallRaised(id) => CallRaisedOnlyMovesTasks(s, id);
      case ResendCall(gate) => ResendCallOnlyMovesResend(s, gate);
      case ResendReturned => ResendReturnedOnlyMovesResend(s);
      case Record(id) => RecordKeepsOrder(s, id);
      case _ => QuietStepKeepsOrder(s, a);
    }
  }

  lemma QuietStepKeepsOrder(s: System, a: Action)
    requires InOrder(s) && (a.LiveRolledBack? || a.Delete? || a.DigestRow? || a.Abandon? || a.ResendLoad?
                            || a.ResendRaised? || a.ResendMarkLost? || a.Crash?)
    ensures InOrder(Step(s, a))
  {
  }

  lemma RecordKeepsOrder(s: System, id: nat)
    requires Grouping(s) && InOrder(s)
    ensures InOrder(Step(s, Record(id)))
  {
  }

  lemma HistoricalKeepsOrder(s: System, a: Action)
    requires Grouping(s) && InOrder(s) && a.HistoricalMatch?
    ensures InOrder(Step(s, a))
  {
    HistoricalShape(a.panel, s.db, a.message, a.rule, a.text, a.candidates);
  }

  lemma LiveKeepsOrder(s: System, a: Action)
    requires Grouping(s) && InOrder(s) && a.Live? && s.tasks == map[]
    ensures InOrder(Step(s, a))
  {
    WritePhaseShape(a.panel, s.db, s.seen, a.message, a.rule, a.text, a.candidates);
  }

  lemma {:induction false} RunKeepsOrder(s: System, actions: seq<Action>)
    requires Grouping(s) && InOrder(s) && OneAtATime(s, actions)
    ensures InOrder(Run(s, actions))
    decreases |actions|
  {
    if actions != [] {
      StepKeepsOrder(s, actions[0]);
      StepKeepsGrouping(s, actions[0]);
      RunKeepsOrder(Step(s, actions[0]), actions[1..]);
    }
  }

  /** Processed one message at a time, no promotion is ever alerted twice on one channel. */
  lemma SequentialRunsNeverRepeat(cursors: map<int, int>, actions: seq<Action>, a: nat, b: nat, kind: Kind)
    requires OneAtATime(Boot(cursors), actions)
    requires var s := Run(Boot(cursors), actions);
             && a < b && a in s.db.matches && b in s.db.matches && kind in {Immediate, Target}
             && SamePromotion(s.db.matches[a], s.db.matches[b])
    ensures var s := Run(Boot(cursors), actions);
            !(HasSentRow(a, kind, s.db.deliveries) && HasSentRow(b, kind, s.db.deliveries))
  {
    var s := Run(Boot(cursors), actions);
    if HasSentRow(a, kind, s.db.deliveries) && HasSentRow(b, kind, s.db.deliveries) {
      RepeatsOverlapInTime(cursors, actions, a, b, kind);
      RunKeepsGrouping(Boot(cursors), actions);
      RunKeepsOrder(Boot(cursors), actions);
      SentRowNames(s, b, kind);
      assert false;
    }
  }

  lemma AlertOne(s: System, id: nat, r: int)
    requires id in s.tasks && s.tasks[id].todo == [r] && !s.tasks[id].calling && s.tasks[id].outcomes == map[]
    requires (id, r) !in s.delivered
    ensures var s' := Step(Step(Step(s, CallBegin(id, Allowed)), CallReturned(id)), Record(id));
            && HasSentRow(id, s.tasks[id].kind, s'.db.deliveries)
            && s'.tasks == s.tasks - {id} && s'.delivered == s.delivered + {(id, r)} && s'.db.matches == s.db.matches
            && (forall key :: key in s.db.deliveries && key.matchId != id ==>
                  key in s'.db.deliveries && s'.db.deliveries[key] == s.db.deliveries[key])
  {
    var t := s.tasks[id];
    var s1 := Step(s, CallBegin(id, Allowed));
    assert s1.tasks[id] == t.(calling := true);
    var s2 := Step(s1, CallReturned(id));
    assert s2.tasks[id].outcomes == map[r := Sent] && s2.tasks[id].todo == [];
    var s3 := Step(s2, Record(id));
    assert s3.db.deliveries[DeliveryKey(id, r, t.kind)] == Sent;
  }

  /** Two messages are cleared to alert before either alert is recorded. */
  function OverlappingRun(panel: Panel, a: Message, b: Message, rule: Rule, text: Text, r: int): seq<Action> {
    [Live(panel, a, rule, text, [r])] + ([Live(panel, b, rule, text, [r])] + (AlertRun(0) + AlertRun(1)))
  }

  function AlertRun(id: nat): seq<Action> {
    [CallBegin(id, Allowed)] + [CallReturned(id), Record(id)]
  }

  lemma AlertRunAlerts(s: System, id: nat, kind: Kind, r: int)
    requires AboutToCall(s, id, kind, r, 0)
    ensures var s' := Run(s, AlertRun(id));
            && HasSentRow(id, kind, s'.db.deliveries)
            && s'.tasks == s.tasks - {id} && s'.delivered == s.delivered + {(id, r)} && s'.db.matches == s.db.matches
            && (forall key :: key in s.db.deliveries && key.matchId != id ==>
                  key in s'.db.deliveries && s'.db.deliveries[key] == s.db.deliveries[key])
  {
    RunFromStep(s, CallBegin(id, Allowed), [CallReturned(id), Record(id)]);
    RunOfTwo(Step(s, CallBegin(id, Allowed)), CallReturned(id), Record(id));
    AlertOne(s, id, r);
  }

  lemma SentRowStays(id: nat, kind: Kind, rows: AlertRows, rows': AlertRows)
    requires HasSentRow(id, kind, rows)
    requires forall key :: key in rows && key.matchId == id ==> key in rows' && rows'[key] == rows[key]
    ensures HasSentRow(id, kind, rows')
  {
    var r :| DeliveryKey(id, r, kind) in rows && rows[DeliveryKey(id, r, kind)] == Sent;
    assert rows'[DeliveryKey(id, r, kind)] == Sent;
  }

  /** Overlap really does repeat: from boot, any two messages of one promotion that go out, in different
      sources and within the window, are both sent when both are cleared before either is recorded. */
  lemma OverlapCanRepeat(
      cursors: map<int, int>, panel: Panel, a: Message, b: Message, rule: Rule, text: Text, r: int)
    requires GoesOut(panel, a, rule, text, r) && GoesOut(panel, b, rule, text, r)
    requires a.source != b.source && InWindow(a.receivedAt, b.receivedAt)
    ensures var s, kind := Run(Boot(cursors), OverlappingRun(panel, a, b, rule, text, r)), DecideKind(rule, text.price);
            && 0 in s.db.matches && 1 in s.db.matches && SamePromotion(s.db.matches[0], s.db.matches[1])
            && HasSentRow(0, kind, s.db.deliveries) && HasSentRow(1, kind, s.db.deliveries)
  {
    var kind := DecideKind(rule, text.price);
    var s0 := Boot(cursors);
    var first, second := Live(panel, a, rule, text, [r]), Live(panel, b, rule, text, [r]);
    RunFromStep(s0, first, [second] + (AlertRun(0) + AlertRun(1)));
    ClearedToAlert(s0, panel, a, rule, text, r);
    var s1 := Step(s0, first);
    RunFromStep(s1, second, AlertRun(0) + AlertRun(1));
    ClearedToAlert(s1, panel, b, rule, text, r);
    var s2 := Step(s1, second);
    RunInTwo(s2, AlertRun(0), AlertRun(1));
    AlertRunAlerts(s2, 0, kind, r);
    var s3 := Run(s2, AlertRun(0));
    AlertRunAlerts(s3, 1, kind, r);
    SentRowStays(0, kind, s3.db.deliveries, Run(s3, AlertRun(1)).db.deliveries);
  }
}
