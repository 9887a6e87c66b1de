/** Which matches exist: one per chat message and rule, none for a message the admin deleted, and a
    historical scan that may be repeated at will. */
module Postings {
  import opened Options
  import opened Pipeline
  import opened Alerts

  // ---------------------------------------------------------------------------------------------
  // Identity over every run

  ghost predicate OneMatchPerPosting(matches: map<nat, Match>) {
    forall a, b :: a in matches && b in matches && a != b ==> !SamePosting(matches[a], matches[b])
  }

  /** A posting ever matched is still stored, or its message is suppressed. */
  ghost predicate NothingForgotten(db: Db, created: map<nat, Match>) {
    forall id :: id in created && created[id].messageId.Some? ==> id in db.matches || IsSuppressed(db, created[id])
  }

  ghost predicate NoneSuppressed(db: Db) {
    forall id :: id in db.matches ==> !IsSuppressed(db, db.matches[id])
  }

  ghost predicate Identity(s: System) {
    && MatchesBooked(s.db, s.created, s.persistedAt, s.clock)
    && OneMatchPerPosting(s.created) && NothingForgotten(s.db, s.created) && NoneSuppressed(s.db)
  }

  lemma StoreKeepsIdentity(s: System, db: Db, seen: set<Signature>, row: Match)
    requires Identity(s) && PersistMatch(s.db, row).Some?
    requires db.matches == s.db.matches[s.db.nextMatchId := row] && db.nextMatchId == s.db.nextMatchId + 1
    requires db.suppressed == s.db.suppressed
    ensures Identity(Booked(s, db, seen).(clock := s.clock + 1))
  {
    var s' := Booked(s, db, seen).(clock := s.clock + 1);
    forall id | id in s.created ensures !SamePosting(s.created[id], row) {
      if id in s.db.matches {
        assert !SamePosting(s.db.matches[id], row);
      }
    }
    assert OneMatchPerPosting(s'.created);
  }

  lemma DeleteKeepsIdentity(s: System, ids: set<nat>)
    requires Identity(s)
    ensures Identity(s.(db := DeleteMatches(s.db, ids), clock := s.clock + 1))
  {
    var db := DeleteMatches(s.db, ids);
    forall id | id in s.created && s.created[id].messageId.Some?
      ensures id in db.matches || IsSuppressed(db, s.created[id])
    {
      assert id in s.db.matches || IsSuppressed(s.db, s.created[id]);
    }
    forall id | id in db.matches ensures !IsSuppressed(db, db.matches[id]) {
      SiblingsGoTogether(s.db, ids, id);
    }
  }

  /** A stored match that survives a deletion shares its message with no deleted one. */
  lemma SiblingsGoTogether(db: Db, ids: set<nat>, kept: nat)
    requires kept in db.matches && kept !in WithSiblings(db, ids)
    ensures forall gone :: gone in WithSiblings(db, ids) && db.matches[gone].messageId.Some? ==>
              !(db.matches[gone].source == db.matches[kept].source
                && db.matches[gone].messageId == db.matches[kept].messageId)
  {
  }

  /** Named by the admin, or a match of the same chat message as a named one. */
  ghost predicate Condemned(db: Db, ids: set<nat>, id: nat) {
    && id in db.matches
    && (id in ids || exists named :: named in ids && named in db.matches && OfOneMessage(db.matches[named], db.matches[id]))
  }

  ghost predicate OfOneMessage(a: Match, b: Match) {
    a.messageId.Some? && b.messageId.Some? && a.messageId.value == b.messageId.value && a.source == b.source
  }

  /** A deletion takes the matches named, those of the same messages, and the rows of both; it suppresses exactly
      the messages named, and leaves all else as it was. */
  lemma DeletionTakesTheMessage(db: Db, ids: set<nat>, id: nat, key: DeliveryKey, source: int, message: int)
    ensures var db' := DeleteMatches(db, ids);
            && (id in db'.matches <==> id in db.matches && !Condemned(db, ids, id))
            && (id in db'.matches ==> db'.matches[id] == db.matches[id])
            && (key in db'.deliveries <==> key in db.deliveries && !Condemned(db, ids, key.matchId))
            && (key in db'.deliveries ==> db'.deliveries[key] == db.deliveries[key])
            && ((source, message) in db'.suppressed <==>
                  || (source, message) in db.suppressed
                  || exists named :: named in ids && named in db.matches && db.matches[named].source == source
                                     && db.matches[named].messageId == Some(message))
            && db'.nextMatchId == db.nextMatchId && db'.cursors == db.cursors
  {
    var gone := WithSiblings(db, ids);
    assert forall i :: i in gone <==> Condemned(db, ids, i) by {
      forall i ensures i in gone <==> Condemned(db, ids, i) {
        if i in gone && i !in ids {
          var other :| other in ids && other in db.matches && db.matches[other].messageId.Some?
                       && db.matches[i].messageId == db.matches[other].messageId && db.matches[i].source == db.matches[other].source;
          assert OfOneMessage(db.matches[other], db.matches[i]);
        }
      }
    }
    if named :| named in ids && named in db.matches && db.matches[named].source == source
                && db.matches[named].messageId == Some(message) {
      assert named in gone && db.matches[named].messageId.Some?;
    }
  }

  lemma LiveKeepsIdentity(s: System, a: Action)
    requires Identity(s) && a.Live?
    ensures Identity(Step(s, a))
  {
    var w := WritePhase(a.panel, s.db, s.seen, a.message, a.rule, a.text, a.candidates);
    var row := NewRow(a.message, a.rule, a.text.price);
    WritePhaseShape(a.panel, s.db, s.seen, a.message, a.rule, a.text, a.candidates);
    if WritesNewMatch(s.db, w, row) {
      StoreKeepsIdentity(s, w.db, w.seen, row);
      var booked := Booked(s, w.db, w.seen).(clock := s.clock + 1);
      var s' := Step(s, a);
      assert s'.db == booked.db && s'.created == booked.created && s'.persistedAt == booked.persistedAt;
    }
  }

  lemma HistoricalKeepsIdentity(s: System, a: Action)
    requires Identity(s) && a.HistoricalMatch?
    ensures Identity(Step(s, a))
  {
    var db := HistoricalWrite(a.panel, s.db, a.message, a.rule, a.text, a.candidates);
    if db != s.db {
      HistoricalShape(a.panel, s.db, a.message, a.rule, a.text, a.candidates);
      StoreKeepsIdentity(s, db, s.seen, NewRow(a.message, a.rule, a.text.price));
    }
  }

  ghost predicate KeepsMatches(s: System, s': System) {
    && s'.db.matches == s.db.matches && s'.db.nextMatchId == s.db.nextMatchId && s'.db.suppressed == s.db.suppressed
    && s'.created == s.created && s'.persistedAt == s.persistedAt
  }

  lemma ResendMarkKeepsMatches(s: System)
    ensures KeepsMatches(s, DoResendMark(s))
  {
  }

  lemma CallsKeepMatches(s: System, a: Action)
    requires a.CallBegin? || a.CallReturned? || a.CallRaised? || a.ResendCall? || a.ResendReturned? || a.ResendMark?
    ensures KeepsMatches(s, Effect(s, a))
  {
    if a.CallBegin? {
      CallBeginOnlyMovesTasks(s, a.id, a.gate);
    } else if a.CallReturned? {
      CallReturnedOnlyMovesTasks(s, a.id);
    } else if a.CallRaised? {
      CallRaisedOnlyMovesTasks(s, a.id);
    } else if a.ResendCall? {
      ResendCallOnlyMovesResend(s, a.gate);
    } else if a.ResendReturned? {
      ResendReturnedOnlyMovesResend(s);
    } else {
      ResendMarkKeepsMatches(s);
    }
  }

  lemma OtherStepsKeepMatches(s: System, a: Action)
    requires !a.Live? && !a.HistoricalMatch? && !a.Delete?
    ensures KeepsMatches(s, Effect(s, a))
  {
    if a.CallBegin? || a.CallReturned? || a.CallRaised? || a.ResendCall? || a.ResendReturned? || a.ResendMark? {
      CallsKeepMatches(s, a);
    }
  }

  lemma {:induction false} RunKeepsIdentity(s: System, actions: seq<Action>)
    requires Identity(s)
    ensures Identity(Run(s, actions))
    decreases |actions|
  {
    if actions != [] {
      var a := actions[0];
      match a {
        case Live(_, _, _, _, _) => LiveKeepsIdentity(s, a);
        case HistoricalMatch(_, _, _, _, _) => HistoricalKeepsIdentity(s, a);
        case Delete(ids) => DeleteKeepsIdentity(s, ids);
        case _ => OtherStepsKeepMatches(s, a);
      }
      RunKeepsIdentity(Step(s, a), actions[1..]);
    }
  }

  /** In every reachable state, crashes and deletions included: one match per source, rule and message,
      and none for a message whose match was deleted. */
  lemma MatchesAreUnique(cursors: map<int, int>, actions: seq<Action>)
    ensures var db := Run(Boot(cursors), actions).db;
            && OneMatchPerPosting(db.matches)
            && forall id :: id in db.matches && db.matches[id].messageId.Some? ==>
                 (db.matches[id].source, db.matches[id].messageId.value) !in db.suppressed
  {
    RunKeepsIdentity(Boot(cursors), actions);
    var s := Run(Boot(cursors), actions);
    forall a, b | a in s.db.matches && b in s.db.matches && a != b
      ensures !SamePosting(s.db.matches[a], s.db.matches[b])
    {
      assert a in s.created && b in s.created;
    }
    forall id | id in s.db.matches && s.db.matches[id].messageId.Some?
      ensures (s.db.matches[id].source, s.db.matches[id].messageId.value) !in s.db.suppressed
    {
      assert !IsSuppressed(s.db, s.db.matches[id]);
    }
  }

  /** At most once per chat message: even after its match was deleted, no second match of the same
      message and rule exists through which a recipient could be alerted again. */
  lemma AtMostOneAlertPerPosting(cursors: map<int, int>, actions: seq<Action>, a: nat, b: nat, recipient: int)
    requires CrashesSafely(Boot(cursors), actions)
    requires var s := Run(Boot(cursors), actions);
             && (a, recipient) in s.confirmed && (b, recipient) in s.confirmed
             && a in s.created && b in s.created && SamePosting(s.created[a], s.created[b])
    ensures a == b && Run(Boot(cursors), actions).confirmed[(a, recipient)] == 1
  {
    RunKeepsIdentity(Boot(cursors), actions);
    AtMostOneConfirmedAlert(cursors, actions, (a, recipient));
  }

  // ---------------------------------------------------------------------------------------------
  // The historical scan

  /** One message the scan reads, with what each rule's matcher makes of its text. */
  datatype Scanned = Scanned(message: Message, rule: Rule, text: Text)

  function Scan(panel: Panel, db: Db, items: seq<Scanned>, candidates: seq<int>): Db
    decreases |items|
  {
    if items == [] then db
    else
      Scan(panel, HistoricalWrite(panel, db, items[0].message, items[0].rule, items[0].text, candidates),
           items[1..], candidates)
  }

  /** Every rule is tried on one message before the next message is looked at. */
  function PerRule(message: Message, rules: seq<Rule>, read: (Message, Rule) -> Text): seq<Scanned> {
    seq(|rules|, i requires 0 <= i < |rules| => Scanned(message, rules[i], read(message, rules[i])))
  }

  function PerMessage(messages: seq<Message>, rules: seq<Rule>, read: (Message, Rule) -> Text): seq<Scanned> {
    if messages == [] then [] else PerRule(messages[0], rules, read) + PerMessage(messages[1..], rules, read)
  }

  lemma {:induction false} ScanAppends(panel: Panel, db: Db, a: seq<Scanned>, b: seq<Scanned>, candidates: seq<int>)
    ensures Scan(panel, db, a + b, candidates) == Scan(panel, Scan(panel, db, a, candidates), b, candidates)
    decreases |a|
  {
    if a == [] {
      assert a + b == b;
    } else {
      assert (a + b)[1..] == a[1..] + b;
      ScanAppends(panel, HistoricalWrite(panel, db, a[0].message, a[0].rule, a[0].text, candidates), a[1..], b, candidates);
    }
  }

  /** The scan of one source, message by message and rule by rule, each in its own transaction. */
  method RunHistoricalScan(
      panel: Panel, before: Db, messages: seq<Message>, rules: seq<Rule>, read: (Message, Rule) -> Text,
      candidates: seq<int>) returns (db: Db)
    ensures db == Scan(panel, before, PerMessage(messages, rules, read), candidates)
  {
    db := before;
    var i := 0;
    assert messages[0..] == messages;
    while i < |messages|
      invariant 0 <= i <= |messages|
      invariant Scan(panel, before, PerMessage(messages, rules, read), candidates)
                == Scan(panel, db, PerMessage(messages[i..], rules, read), candidates)
    {
      var items := PerRule(messages[i], rules, read);
      assert messages[i..][1..] == messages[i + 1..];
      ScanAppends(panel, db, items, PerMessage(messages[i + 1..], rules, read), candidates);
      ghost var start := db;
      var j := 0;
      assert items[0..] == items;
      while j < |rules|
        invariant 0 <= j <= |rules| == |items|
        invariant Scan(panel, start, items, candidates) == Scan(panel, db, items[j..], candidates)
      {
        assert items[j..][1..] == items[j + 1..];
        db := HistoricalWrite(panel, db, messages[i], rules[j], read(messages[i], rules[j]), candidates);
        j := j + 1;
      }
      i := i + 1;
    }
  }

  /** Nothing is left to do for this item: discarded, suppressed, or stored already. */
  ghost predicate Settles(db: Db, item: Scanned) {
    || Evaluate(item.rule, item.text).Discarded?
    || PersistMatch(db, NewRow(item.message, item.rule, item.text.price)).None?
  }

  ghost predicate OnlyAdds(db: Db, db': Db) {
    && db'.cursors == db.cursors && db'.suppressed == db.suppressed && db'.nextMatchId >= db.nextMatchId
    && (forall id :: id in db.matches && id < db.nextMatchId ==> id in db'.matches && db'.matches[id] == db.matches[id])
    && (forall key :: key in db.deliveries && key.matchId < db.nextMatchId ==>
          key in db'.deliveries && db'.deliveries[key] == db.deliveries[key])
  }

  ghost predicate FreshIds(db: Db) {
    && (forall id :: id in db.matches ==> id < db.nextMatchId)
    && (forall key :: key in db.deliveries ==> key.matchId < db.nextMatchId)
  }

  lemma HistoricalWriteSettles(panel: Panel, db: Db, item: Scanned, candidates: seq<int>)
    requires FreshIds(db) && item.message.messageId.Some?
    ensures var db' := HistoricalWrite(panel, db, item.message, item.rule, item.text, candidates);
            FreshIds(db') && OnlyAdds(db, db') && Settles(db', item)
            && (forall other: Scanned :: Settles(db, other) ==> Settles(db', other))
  {
    HistoricalShape(panel, db, item.message, item.rule, item.text, candidates);
    var db' := HistoricalWrite(panel, db, item.message, item.rule, item.text, candidates);
    if db' != db {
      assert db.nextMatchId in db'.matches;
      assert SamePosting(db'.matches[db.nextMatchId], NewRow(item.message, item.rule, item.text.price));
      forall other: Scanned | Settles(db, other) ensures Settles(db', other) {
        var row := NewRow(other.message, other.rule, other.text.price);
        if !Evaluate(other.rule, other.text).Discarded? && !IsSuppressed(db, row) {
          var id :| id in db.matches && SamePosting(db.matches[id], row);
          assert id in db'.matches && SamePosting(db'.matches[id], row);
        }
      }
    }
  }

  lemma {:induction false} ScanSettlesAll(panel: Panel, db: Db, items: seq<Scanned>, candidates: seq<int>)
    requires FreshIds(db) && forall i :: 0 <= i < |items| ==> items[i].message.messageId.Some?
    ensures var db' := Scan(panel, db, items, candidates);
            && FreshIds(db') && OnlyAdds(db, db')
            && (forall i :: 0 <= i < |items| ==> Settles(db', items[i]))
            && (forall other: Scanned :: Settles(db, other) ==> Settles(db', other))
    decreases |items|
  {
    if items != [] {
      HistoricalWriteSettles(panel, db, items[0], candidates);
      var next := HistoricalWrite(panel, db, items[0].message, items[0].rule, items[0].text, candidates);
      ScanSettlesAll(panel, next, items[1..], candidates);
      var db' := Scan(panel, next, items[1..], candidates);
      forall i | 0 <= i < |items| ensures Settles(db', items[i]) {
        if i > 0 {
          assert items[i] == items[1..][i - 1];
        }
      }
    }
  }

  lemma {:induction false} SettledScanIsIdle(panel: Panel, db: Db, items: seq<Scanned>, candidates: seq<int>)
    requires forall i :: 0 <= i < |items| ==> Settles(db, items[i])
    ensures Scan(panel, db, items, candidates) == db
    decreases |items|
  {
    if items != [] {
      assert Settles(db, items[0]);
      SettledScanIsIdle(panel, db, items[1..], candidates);
    }
  }

  /** Repeating a scan changes nothing, whatever became of preferences and snoozes in between; the
      first one only ever added matches and rows, and moved no cursor. */
  lemma RescanChangesNothing(
      panel: Panel, later: Panel, db: Db, messages: seq<Message>, rules: seq<Rule>, read: (Message, Rule) -> Text,
      candidates: seq<int>, others: seq<int>)
    requires FreshIds(db) && forall m :: m in messages ==> m.messageId.Some?
    ensures var items := PerMessage(messages, rules, read);
            var scanned := Scan(panel, db, items, candidates);
            OnlyAdds(db, scanned) && Scan(later, scanned, items, others) == scanned
  {
    var items := PerMessage(messages, rules, read);
    PerMessageKeepsIds(messages, rules, read);
    ScanSettlesAll(panel, db, items, candidates);
    SettledScanIsIdle(later, Scan(panel, db, items, candidates), items, others);
  }

  lemma {:induction false} PerMessageKeepsIds(messages: seq<Message>, rules: seq<Rule>, read: (Message, Rule) -> Text)
    ensures forall item :: item in PerMessage(messages, rules, read) ==> item.message in messages
    decreases |messages|
  {
    if messages != [] {
      PerMessageKeepsIds(messages[1..], rules, read);
    }
  }
}
