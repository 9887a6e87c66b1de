/** One incoming message against one rule: price, dedupe, persistence, and who is alerted how.

    The short write phase of `process_message` is `WritePhase`, one atomic change of the database;
    the alerts it leaves to the network are handled step by step in `Alerts`. */
module Pipeline {
  import opened Chat
  import opened Options

  /** Fifteen minutes, in the microseconds a timestamp counts. */
  const GROUPING_WINDOW := 900_000_000

  const NOTIFY_ATTEMPTS := 3

  datatype Kind = Immediate | Target | ManualTarget | Digest

  datatype Status =
    | Sent | Failed | Grouped | Pending | Historical | NotConfigured | NotAllowlisted | Duplicate
    | DigestAttempted | DigestSkipped

  datatype Rule = Rule(id: int, maxPrice: Option<int>, targetPrice: Option<int>)

  /** `messageId` is absent only for inputs that do not come from a chat. */
  datatype Message = Message(source: int, messageId: Option<int>, receivedAt: int)

  datatype Match = Match(source: int, rule: int, messageId: Option<int>, price: Option<int>, matchedAt: int)

  datatype DeliveryKey = DeliveryKey(matchId: nat, recipient: int, kind: Kind)

  datatype Db = Db(
    matches: map<nat, Match>, nextMatchId: nat, suppressed: set<(int, int)>,
    deliveries: map<DeliveryKey, Status>, cursors: map<int, int>)

  // ---------------------------------------------------------------------------------------------
  // What a rule makes of a text

  /** What the term matcher, the price extractor and the product reader find in one message text. */
  datatype Text = Text(normalized: string, blocked: bool, hasTerm: bool, price: Option<int>, product: Option<string>)

  datatype Discard = Blocked | NoTerm | PriceAboveCeiling

  datatype Evaluation = Discarded(reason: Discard) | Accepted(price: Option<int>)

  function Evaluate(rule: Rule, text: Text): Evaluation {
    if text.blocked then Discarded(Blocked)
    else if !text.hasTerm then Discarded(NoTerm)
    else if rule.maxPrice.Some? && text.price.Some? && text.price.value > rule.maxPrice.value then
      Discarded(PriceAboveCeiling)
    else Accepted(text.price)
  }

  predicate TargetHit(price: Option<int>, target: Option<int>) {
    price.Some? && target.Some? && price.value <= target.value
  }

  function DecideKind(rule: Rule, price: Option<int>): Kind {
    if TargetHit(price, rule.targetPrice) then Target else Immediate
  }

  // ---------------------------------------------------------------------------------------------
  // The panel's settings

  datatype Preferences = Preferences(
    active: bool, allowlisted: bool, onlySelected: bool, notifyTarget: bool, notifyCommon: bool)

  datatype Snooze = RuleSnooze(rule: int, until: int) | ProductSnooze(product: string, until: int)

  datatype Panel = Panel(
    preferences: map<int, Preferences>, selected: set<(int, int)>, snoozes: seq<Snooze>, digestHolds: bool)

  predicate Receives(panel: Panel, recipient: int, rule: int, isTarget: bool) {
    && recipient in panel.preferences
    && var p := panel.preferences[recipient];
       && p.active && p.allowlisted
       && (p.onlySelected ==> (recipient, rule) in panel.selected)
       && (if isTarget then p.notifyTarget else p.notifyCommon)
  }

  /** The candidates the match goes to, each once. */
  function Eligible(panel: Panel, candidates: seq<int>, rule: int, isTarget: bool): (eligible: seq<int>)
    ensures forall r :: r in eligible <==> r in candidates && Receives(panel, r, rule, isTarget)
    ensures NoRepeats(eligible)
  {
    if candidates == [] then []
    else
      var rest := Eligible(panel, candidates[1..], rule, isTarget);
      if Receives(panel, candidates[0], rule, isTarget) && candidates[0] !in rest then [candidates[0]] + rest
      else rest
  }

  predicate NoRepeats(s: seq<int>) {
    forall i, j :: 0 <= i < j < |s| ==> s[i] != s[j]
  }

  predicate Snoozed(panel: Panel, rule: int, product: Option<string>, now: int) {
    exists i :: 0 <= i < |panel.snoozes| && panel.snoozes[i].until > now &&
      match panel.snoozes[i] {
        case RuleSnooze(r, _) => r == rule
        case ProductSnooze(p, _) => product == Some(p)
      }
  }

  // ---------------------------------------------------------------------------------------------
  // The database

  function AdvanceCursor(db: Db, source: int, messageId: int): Db {
    db.(cursors := Advance(db.cursors, source, messageId))
  }

  predicate SamePosting(a: Match, b: Match) {
    a.source == b.source && a.rule == b.rule && a.messageId == b.messageId && a.messageId.Some?
  }

  predicate IsSuppressed(db: Db, m: Match) {
    m.messageId.Some? && (m.source, m.messageId.value) in db.suppressed
  }

  /** The new database, or nothing when the posting is already stored or was deleted by the admin. */
  function PersistMatch(db: Db, m: Match): Option<Db> {
    if IsSuppressed(db, m) || exists id :: id in db.matches && SamePosting(db.matches[id], m) then None
    else Some(db.(matches := db.matches[db.nextMatchId := m], nextMatchId := db.nextMatchId + 1))
  }

  predicate InWindow(a: int, b: int) {
    a - GROUPING_WINDOW <= b <= a + GROUPING_WINDOW
  }

  /** Two matches of one rule at one price, close enough in time to be one promotion. */
  predicate SamePromotion(a: Match, b: Match) {
    a.rule == b.rule && a.price.Some? && a.price == b.price && InWindow(a.matchedAt, b.matchedAt)
  }

  predicate AlreadyDelivered(db: Db, m: Match, kind: Kind, statuses: set<Status>) {
    exists key :: key in db.deliveries && key.matchId in db.matches && key.kind == kind
                  && db.deliveries[key] in statuses && SamePromotion(m, db.matches[key.matchId])
  }

  function Rows(matchId: nat, recipients: seq<int>, kind: Kind, status: Status): map<DeliveryKey, Status> {
    map r | r in recipients :: DeliveryKey(matchId, r, kind) := status
  }

  // ---------------------------------------------------------------------------------------------
  // The write phase

  /** Two messages with the same signature are one promotion to the in-memory dedupe cache. */
  datatype Signature = Signature(source: int, text: string, price: Option<int>, rule: int)

  datatype Outcome = DiscardedMessage(reason: Discard) | DuplicateMessage | NewMatch(matchId: nat)

  datatype Written =
    | Finished(db: Db, seen: set<Signature>, outcome: Outcome)
    | ToSend(db: Db, seen: set<Signature>, matchId: nat, kind: Kind, recipients: seq<int>)

  function SignatureOf(message: Message, rule: Rule, text: Text): Signature {
    Signature(message.source, text.normalized, text.price, rule.id)
  }

  function NewRow(message: Message, rule: Rule, price: Option<int>): Match {
    Match(message.source, rule.id, message.messageId, price, message.receivedAt)
  }

  function WritePhase(
      panel: Panel, db: Db, seen: set<Signature>, message: Message, rule: Rule, text: Text,
      candidates: seq<int>): Written {
    var db0 := if message.messageId.Some? then AdvanceCursor(db, message.source, message.messageId.value) else db;
    match Evaluate(rule, text)
    case Discarded(reason) => Finished(db0, seen, DiscardedMessage(reason))
    case Accepted(price) =>
      var signature := SignatureOf(message, rule, text);
      if signature in seen then Finished(db0, seen, DuplicateMessage)
      else
        var row := NewRow(message, rule, price);
        var stored := PersistMatch(db0, row);
        if stored.None? then Finished(db0, seen + {signature}, DuplicateMessage)
        else Dispatch(panel, db0, stored.value, seen + {signature}, row, rule, text, candidates)
  }

  /** What happens to a match just stored: `before` is the database without it. */
  function Dispatch(
      panel: Panel, before: Db, stored: Db, seen: set<Signature>, row: Match, rule: Rule, text: Text,
      candidates: seq<int>): Written {
    var id := before.nextMatchId;
    var kind := DecideKind(rule, row.price);
    var isTarget := kind == Target;
    var recipients := Eligible(panel, candidates, rule.id, isTarget);
    var grouped := AlreadyDelivered(before, row, kind, {Sent});
    var groupedImmediate := isTarget && AlreadyDelivered(before, row, Immediate, {Sent});
    if !isTarget && Snoozed(panel, rule.id, text.product, row.matchedAt) then
      Finished(stored, seen, NewMatch(id))
    else if grouped then
      Finished(AddRows(stored, Rows(id, recipients, kind, Grouped)), seen, NewMatch(id))
    else
      var kept := if groupedImmediate then AddRows(stored, Rows(id, recipients, Immediate, Grouped)) else stored;
      if !isTarget && panel.digestHolds then
        var status := if AlreadyDelivered(before, row, Digest, {Pending, Sent}) then Grouped else Pending;
        Finished(AddRows(kept, Rows(id, recipients, Digest, status)), seen, NewMatch(id))
      else ToSend(kept, seen, id, kind, recipients)
  }

  function AddRows(db: Db, rows: map<DeliveryKey, Status>): Db {
    db.(deliveries := db.deliveries + rows)
  }

  /** The dedupe cache after a write phase that rolled back. */
  function SeenAfterRollback(seen: set<Signature>, message: Message, rule: Rule, text: Text): set<Signature> {
    var signature := SignatureOf(message, rule, text);
    if Evaluate(rule, text).Discarded? || signature in seen then seen else seen + {signature} - {signature}
  }

  /** A rolled-back attempt leaves nothing behind, so its retry does what the attempt would have done. */
  lemma RollbackIsInvisible(
      panel: Panel, db: Db, seen: set<Signature>, message: Message, rule: Rule, text: Text, candidates: seq<int>)
    ensures WritePhase(panel, db, SeenAfterRollback(seen, message, rule, text), message, rule, text, candidates)
            == WritePhase(panel, db, seen, message, rule, text, candidates)
  {
    assert SeenAfterRollback(seen, message, rule, text) == seen;
  }

  /** Rows were added for match `id` only, each with one of `statuses`. */
  ghost predicate AddsOnlyRowsOf(db: Db, db': Db, id: nat, kinds: set<Kind>, statuses: set<Status>) {
    && (forall key :: key in db'.deliveries && key !in db.deliveries ==>
          key.matchId == id && key.kind in kinds && db'.deliveries[key] in statuses)
    && (forall key :: key in db.deliveries && key.matchId != id ==>
          key in db'.deliveries && db'.deliveries[key] == db.deliveries[key])
  }

  /** The write phase stored `row` under a fresh id, and neither alerts nor queues a known promotion. */
  ghost predicate WritesNewMatch(db: Db, w: Written, row: Match) {
    var id := db.nextMatchId;
    && w.db.matches == db.matches[id := row] && w.db.nextMatchId == id + 1
    && !IsSuppressed(db, row) && (forall m :: m in db.matches ==> !SamePosting(db.matches[m], row))
    && (if w.ToSend? then
          && w.matchId == id && w.kind in {Immediate, Target}
          && AddsOnlyRowsOf(db, w.db, id, {Immediate} - {w.kind}, {Grouped})
          && !AlreadyDelivered(db, row, w.kind, {Sent})
        else
          && w.outcome == NewMatch(id)
          && AddsOnlyRowsOf(db, w.db, id, {Immediate, Target, Digest}, {Grouped, Pending}))
  }

  ghost predicate WritesNoMatch(db: Db, w: Written) {
    && w.db.matches == db.matches && w.db.nextMatchId == db.nextMatchId && w.db.deliveries == db.deliveries
    && w.Finished? && !w.outcome.NewMatch?
  }

  lemma AddRowsOnly(db: Db, id: nat, recipients: seq<int>, kind: Kind, status: Status)
    ensures AddsOnlyRowsOf(db, AddRows(db, Rows(id, recipients, kind, status)), id, {kind}, {status})
  {
  }

  /** The committed part of a write phase: at most one match is stored, and rows only for it. */
  lemma WritePhaseShape(
      panel: Panel, db: Db, seen: set<Signature>, message: Message, rule: Rule, text: Text, candidates: seq<int>)
    ensures var w := WritePhase(panel, db, seen, message, rule, text, candidates);
            && w.db.suppressed == db.suppressed
            && (WritesNoMatch(db, w) || WritesNewMatch(db, w, NewRow(message, rule, text.price)))
  {
    var db0 := if message.messageId.Some? then AdvanceCursor(db, message.source, message.messageId.value) else db;
    var row := NewRow(message, rule, text.price);
    if Evaluate(rule, text).Accepted? && SignatureOf(message, rule, text) !in seen && PersistMatch(db0, row).Some? {
      DispatchShape(panel, db0, seen + {SignatureOf(message, rule, text)}, row, rule, text, candidates);
      forall kind, statuses: set<Status>
        ensures AlreadyDelivered(db, row, kind, statuses) == AlreadyDelivered(db0, row, kind, statuses)
      {
      }
    }
  }

  lemma DispatchShape(
      panel: Panel, before: Db, seen: set<Signature>, row: Match, rule: Rule, text: Text, candidates: seq<int>)
    requires PersistMatch(before, row).Some?
    ensures var w := Dispatch(panel, before, PersistMatch(before, row).value, seen, row, rule, text, candidates);
            w.db.suppressed == before.suppressed && WritesNewMatch(before, w, row)
  {
    var stored := PersistMatch(before, row).value;
    var w := Dispatch(panel, before, stored, seen, row, rule, text, candidates);
    var id := before.nextMatchId;
    var kind := DecideKind(rule, row.price);
    var recipients := Eligible(panel, candidates, rule.id, kind == Target);
    if kind != Target && Snoozed(panel, rule.id, text.product, row.matchedAt) {
    } else if AlreadyDelivered(before, row, kind, {Sent}) {
      AddRowsOnly(stored, id, recipients, kind, Grouped);
    } else if kind == Target {
      AddRowsOnly(stored, id, recipients, Immediate, Grouped);
    } else if panel.digestHolds {
      var status := if AlreadyDelivered(before, row, Digest, {Pending, Sent}) then Grouped else Pending;
      AddRowsOnly(stored, id, recipients, Digest, status);
    }
  }

  /** A price target reached goes out through any snooze and any digest; only the same promotion
      already sent as a target alert, or a posting already known, keeps it back. */
  lemma TargetPiercesSnoozeAndDigest(
      panel: Panel, db: Db, seen: set<Signature>, message: Message, rule: Rule, text: Text, candidates: seq<int>)
    requires Evaluate(rule, text) == Accepted(text.price) && TargetHit(text.price, rule.targetPrice)
    requires SignatureOf(message, rule, text) !in seen
    requires PersistMatch(db, NewRow(message, rule, text.price)).Some?
    ensures var w := WritePhase(panel, db, seen, message, rule, text, candidates);
            var again := AlreadyDelivered(db, NewRow(message, rule, text.price), Target, {Sent});
            && (w.ToSend? <==> !again)
            && (w.ToSend? ==>
                  && w.kind == Target
                  && forall r :: r in w.recipients <==> r in candidates && Receives(panel, r, rule.id, true))
  {
  }

  lemma RecipientsAreDistinct(
      panel: Panel, db: Db, seen: set<Signature>, message: Message, rule: Rule, text: Text, candidates: seq<int>)
    ensures var w := WritePhase(panel, db, seen, message, rule, text, candidates);
            w.ToSend? ==> NoRepeats(w.recipients)
  {
  }

  /** The rows of a match say who was dealt with how. */
  ghost predicate HasRow(db: Db, id: nat, recipient: int) {
    exists key :: key in db.deliveries && key.matchId == id && key.recipient == recipient
  }

  /** Nobody is lost between the rules and the alert: of a match just stored, exactly the eligible
      recipients get something, a row of bookkeeping or an alert to come; unless the whole match is
      snoozed, and then nobody does. */
  lemma EveryRecipientIsAccountedFor(
      panel: Panel, before: Db, seen: set<Signature>, row: Match, rule: Rule, text: Text, candidates: seq<int>, r: int)
    requires PersistMatch(before, row).Some? && forall key :: key in before.deliveries ==> key.matchId < before.nextMatchId
    ensures var w := Dispatch(panel, before, PersistMatch(before, row).value, seen, row, rule, text, candidates);
            var isTarget := TargetHit(row.price, rule.targetPrice);
            var dealtWith := HasRow(w.db, before.nextMatchId, r) || (w.ToSend? && r in w.recipients);
            if !isTarget && Snoozed(panel, rule.id, text.product, row.matchedAt) then !dealtWith
            else dealtWith <==> r in candidates && Receives(panel, r, rule.id, isTarget)
  {
    var stored := PersistMatch(before, row).value;
    var id := before.nextMatchId;
    var kind := DecideKind(rule, row.price);
    var recipients := Eligible(panel, candidates, rule.id, kind == Target);
    assert !HasRow(stored, id, r);
    RowsReach(stored, id, recipients, kind, Grouped, r);
    RowsReach(stored, id, recipients, Digest, Pending, r);
  }

  lemma RowsReach(db: Db, id: nat, recipients: seq<int>, kind: Kind, status: Status, r: int)
    requires !HasRow(db, id, r)
    ensures HasRow(AddRows(db, Rows(id, recipients, kind, status)), id, r) <==> r in recipients
  {
    if r in recipients {
      assert DeliveryKey(id, r, kind) in AddRows(db, Rows(id, recipients, kind, status)).deliveries;
    }
  }

  // ---------------------------------------------------------------------------------------------
  // What becomes of a message, on the fields of message, rule and database

  /** Not blocked, with a term, and not above the rule's ceiling. */
  ghost predicate Passes(rule: Rule, text: Text) {
    && !text.blocked && text.hasTerm
    && (rule.maxPrice.Some? && text.price.Some? ==> text.price.value <= rule.maxPrice.value)
  }

  /** The same text of this source at this price was let through for this rule, or the chat message has its
      match already, or the admin deleted it. */
  ghost predicate Known(db: Db, seen: set<Signature>, message: Message, rule: Rule, text: Text) {
    || (exists s :: s in seen && s.source == message.source && s.text == text.normalized && s.price == text.price
                    && s.rule == rule.id)
    || Stored(db, message, rule)
  }

  ghost predicate Stored(db: Db, message: Message, rule: Rule) {
    && message.messageId.Some?
    && (|| (message.source, message.messageId.value) in db.suppressed
        || exists id :: id in db.matches && db.matches[id].source == message.source && db.matches[id].rule == rule.id
                        && db.matches[id].messageId == message.messageId)
  }

  ghost predicate DiscardedAs(w: Written, reason: Discard) {
    w.Finished? && w.outcome == DiscardedMessage(reason)
  }

  ghost predicate Stores(db: Db, db': Db, message: Message, rule: Rule, text: Text) {
    db'.matches == db.matches[db.nextMatchId := Match(message.source, rule.id, message.messageId, text.price, message.receivedAt)]
  }

  lemma StoredIsNotPersisted(db: Db, message: Message, rule: Rule, price: Option<int>)
    ensures PersistMatch(db, NewRow(message, rule, price)).None? <==> Stored(db, message, rule)
  {
    var row := NewRow(message, rule, price);
    if id :| id in db.matches && SamePosting(db.matches[id], row) {
      assert db.matches[id].source == message.source;
    }
  }

  /** A message is discarded for what its text lacks or its price exceeds, and for nothing else; dropped as a
      duplicate when it is known; and stored as it is otherwise. The cursor moves over it in every case. */
  lemma WhatBecomesOfAMessage(
      panel: Panel, db: Db, seen: set<Signature>, message: Message, rule: Rule, text: Text, candidates: seq<int>)
    ensures var w := WritePhase(panel, db, seen, message, rule, text, candidates);
            && (DiscardedAs(w, Blocked) <==> text.blocked)
            && (DiscardedAs(w, NoTerm) <==> !text.blocked && !text.hasTerm)
            && (DiscardedAs(w, PriceAboveCeiling) <==>
                  && !text.blocked && text.hasTerm && rule.maxPrice.Some? && text.price.Some?
                  && text.price.value > rule.maxPrice.value)
            && (w.Finished? && w.outcome == DuplicateMessage <==> Passes(rule, text) && Known(db, seen, message, rule, text))
            && (if Passes(rule, text) && !Known(db, seen, message, rule, text)
                then Stores(db, w.db, message, rule, text) else w.db.matches == db.matches && w.db.deliveries == db.deliveries)
            && (message.messageId.Some? ==>
                  && message.source in w.db.cursors && w.db.cursors[message.source] >= message.messageId.value
                  && w.db.cursors == db.cursors[message.source := w.db.cursors[message.source]])
  {
    var db0 := if message.messageId.Some? then AdvanceCursor(db, message.source, message.messageId.value) else db;
    StoredIsNotPersisted(db0, message, rule, text.price);
    assert Stored(db0, message, rule) <==> Stored(db, message, rule);
    if Evaluate(rule, text).Accepted? && SignatureOf(message, rule, text) in seen {
      assert Known(db, seen, message, rule, text);
    } else if Evaluate(rule, text).Accepted? && PersistMatch(db0, NewRow(message, rule, text.price)).Some? {
      DispatchShape(panel, db0, seen + {SignatureOf(message, rule, text)}, NewRow(message, rule, text.price), rule, text, candidates);
    }
  }

  /** A match of this rule at this price within fifteen minutes has a row of `kind` in one of `statuses`. */
  ghost predicate SentAround(db: Db, message: Message, rule: Rule, text: Text, kind: Kind, statuses: set<Status>) {
    text.price.Some? && exists key ::
      && key in db.deliveries && key.kind == kind && db.deliveries[key] in statuses && key.matchId in db.matches
      && db.matches[key.matchId].rule == rule.id && db.matches[key.matchId].price == text.price
      && -15 * 60 * 1_000_000 <= db.matches[key.matchId].matchedAt - message.receivedAt <= 15 * 60 * 1_000_000
  }

  lemma SentAroundIsDelivered(db: Db, message: Message, rule: Rule, text: Text, kind: Kind, statuses: set<Status>)
    ensures AlreadyDelivered(db, NewRow(message, rule, text.price), kind, statuses)
            <==> SentAround(db, message, rule, text, kind, statuses)
  {
    var row := NewRow(message, rule, text.price);
    if key :| key in db.deliveries && key.matchId in db.matches && key.kind == kind && db.deliveries[key] in statuses
              && SamePromotion(row, db.matches[key.matchId]) {
      assert db.matches[key.matchId].price == text.price;
    }
    if SentAround(db, message, rule, text, kind, statuses) {
      var key :| && key in db.deliveries && key.kind == kind && db.deliveries[key] in statuses && key.matchId in db.matches
                 && db.matches[key.matchId].rule == rule.id && db.matches[key.matchId].price == text.price
                 && -15 * 60 * 1_000_000 <= db.matches[key.matchId].matchedAt - message.receivedAt <= 15 * 60 * 1_000_000;
      assert SamePromotion(row, db.matches[key.matchId]);
    }
  }

  /** A snooze of the rule, or of the product, that runs on past the message. */
  ghost predicate Silenced(panel: Panel, message: Message, rule: Rule, text: Text) {
    exists snooze :: snooze in panel.snoozes && snooze.until > message.receivedAt
      && (snooze.RuleSnooze? ==> snooze.rule == rule.id) && (snooze.ProductSnooze? ==> text.product == Some(snooze.product))
  }

  lemma SilencedIsSnoozed(panel: Panel, message: Message, rule: Rule, text: Text)
    ensures Snoozed(panel, rule.id, text.product, message.receivedAt) <==> Silenced(panel, message, rule, text)
  {
    if Silenced(panel, message, rule, text) {
      var snooze :| && snooze in panel.snoozes && snooze.until > message.receivedAt
                    && (snooze.RuleSnooze? ==> snooze.rule == rule.id)
                    && (snooze.ProductSnooze? ==> text.product == Some(snooze.product));
      var i :| 0 <= i < |panel.snoozes| && panel.snoozes[i] == snooze;
    }
  }

  /** At or below the price the rule waits for. */
  ghost predicate AtTarget(rule: Rule, text: Text) {
    text.price.Some? && rule.targetPrice.Some? && text.price.value <= rule.targetPrice.value
  }

  /** What the panel holds of the recipient lets the match through: active, allowed, interested in the rule, and
      in this kind of alert. */
  ghost predicate Admits(panel: Panel, r: int, rule: Rule, target: bool) {
    && r in panel.preferences && panel.preferences[r].active && panel.preferences[r].allowlisted
    && (panel.preferences[r].onlySelected ==> (r, rule.id) in panel.selected)
    && (target ==> panel.preferences[r].notifyTarget) && (!target ==> panel.preferences[r].notifyCommon)
  }

  ghost predicate HasRowOf(db: Db, id: nat, r: int, kind: Kind, status: Status) {
    DeliveryKey(id, r, kind) in db.deliveries && db.deliveries[DeliveryKey(id, r, kind)] == status
  }

  /** Who hears of a new match, and how. A price at its target goes out at once unless a target alert of the
      promotion went out before; any other price goes out at once unless it is silenced, was sent before, or
      waits for the digest. In the last two cases exactly the recipients it is for get their row. */
  lemma WhoHearsOfAMessage(
      panel: Panel, db: Db, seen: set<Signature>, message: Message, rule: Rule, text: Text, candidates: seq<int>, r: int)
    requires Passes(rule, text) && !Known(db, seen, message, rule, text)
    requires forall key :: key in db.deliveries ==> key.matchId < db.nextMatchId
    ensures var w, id, target := WritePhase(panel, db, seen, message, rule, text, candidates), db.nextMatchId, AtTarget(rule, text);
            var kind := if target then Target else Immediate;
            var sent, silenced := SentAround(db, message, rule, text, kind, {Sent}), Silenced(panel, message, rule, text);
            var isFor := r in candidates && Admits(panel, r, rule, target);
            && (w.ToSend? <==> !sent && (target || (!silenced && !panel.digestHolds)))
            && (w.ToSend? ==> w.matchId == id && w.kind == kind && (r in w.recipients <==> isFor))
            && ((sent && (target || !silenced)) ==> (isFor <==> HasRowOf(w.db, id, r, kind, Grouped)))
            && ((!target && !silenced && !sent && panel.digestHolds) ==>
                  (isFor <==> HasRowOf(w.db, id, r, Digest,
                                       if SentAround(db, message, rule, text, Digest, {Pending, Sent}) then Grouped else Pending)))
            && ((!target && silenced) ==> !HasRow(w.db, id, r))
            && ((target && !sent && SentAround(db, message, rule, text, Immediate, {Sent})) ==>
                  (isFor <==> HasRowOf(w.db, id, r, Immediate, Grouped)))
  {
    var db0 := if message.messageId.Some? then AdvanceCursor(db, message.source, message.messageId.value) else db;
    var row := NewRow(message, rule, text.price);
    StoredIsNotPersisted(db0, message, rule, text.price);
    assert Stored(db0, message, rule) <==> Stored(db, message, rule);
    assert SignatureOf(message, rule, text) !in seen;
    SilencedIsSnoozed(panel, message, rule, text);
    SentAroundIsDelivered(db, message, rule, text, Immediate, {Sent});
    SentAroundIsDelivered(db, message, rule, text, Target, {Sent});
    SentAroundIsDelivered(db, message, rule, text, Digest, {Pending, Sent});
    forall kind, statuses: set<Status>
      ensures AlreadyDelivered(db, row, kind, statuses) == AlreadyDelivered(db0, row, kind, statuses)
    {
    }
    assert Receives(panel, r, rule.id, AtTarget(rule, text)) <==> Admits(panel, r, rule, AtTarget(rule, text));
    assert !HasRow(PersistMatch(db0, row).value, db.nextMatchId, r);
  }
}
