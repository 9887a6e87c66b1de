/** The code that alerts, in its own imperative form, shown to take the steps of `Alerts` and no others:
    the notifier, the in-place send retries, the processing of one message and the periodic resend.

    Each method keeps the machine state `system` in step with its fields and says which actions it took,
    for the runs in which nothing else happens in between. Network outcomes are left open. */
module Listener {
  import opened Options
  import opened Pipeline
  import opened Alerts

  datatype NotifyResult = Delivered | NotDelivered(reason: Status) | Raised

  /** Remembers every pair it delivered, so that a pair is sent at most once in its lifetime. */
  class BotNotifier {
    const configured: bool
    var allowlisted: set<string>
    var delivered: set<Pair>

    constructor (configured: bool, allowlisted: set<string>)
      ensures this.configured == configured && this.allowlisted == allowlisted && delivered == {}
    {
      this.configured := configured;
      this.allowlisted := allowlisted;
      delivered := {};
    }

    /** A reload replaces the list and keeps the memory. */
    method SetAllowlistedChatIds(chatIds: set<string>)
      modifies this`allowlisted
      ensures allowlisted == chatIds
    {
      allowlisted := chatIds;
    }

    function DeliveryBlockReason(chatId: string): Gate
      reads this
    {
      if !configured then Refused(NotConfigured)
      else if chatId !in allowlisted then Refused(NotAllowlisted)
      else Allowed
    }

    /** `Raised` is a call whose outcome is unknown; only a confirmed pair is remembered. */
    method Notify(matchId: nat, recipientId: int, chatId: string) returns (result: NotifyResult)
      modifies this`delivered
      ensures !configured ==> result == NotDelivered(NotConfigured)
      ensures configured && chatId !in allowlisted ==> result == NotDelivered(NotAllowlisted)
      ensures configured && chatId in allowlisted ==>
                if (matchId, recipientId) in old(delivered) then result == NotDelivered(Duplicate)
                else result in {Delivered, Raised}
      ensures delivered == old(delivered) + if result.Delivered? then {(matchId, recipientId)} else {}
    {
      var gate := DeliveryBlockReason(chatId);
      if gate.Refused? {
        return NotDelivered(gate.reason);
      }
      var key := (matchId, recipientId);
      if key in delivered {
        return NotDelivered(Duplicate);
      }
      var confirmed: bool := *;
      if !confirmed {
        return Raised;
      }
      delivered := delivered + {key};
      return Delivered;
    }
  }

  ghost predicate LinkedAt(states: seq<System>, actions: seq<Action>, i: nat)
    requires |states| == |actions| + 1 && i < |actions|
  {
    states[i + 1] == Step(states[i], actions[i])
  }

  /** The states a sequence of actions goes through. */
  ghost predicate Trace(states: seq<System>, actions: seq<Action>) {
    |states| == |actions| + 1 && forall i: nat :: i < |actions| ==> LinkedAt(states, actions, i)
  }

  lemma {:induction false} TraceIsARun(states: seq<System>, actions: seq<Action>)
    requires Trace(states, actions)
    ensures Run(states[0], actions) == states[|actions|]
    decreases |actions|
  {
    if actions != [] {
      assert LinkedAt(states, actions, 0);
      forall i: nat | i < |actions| - 1 ensures LinkedAt(states[1..], actions[1..], i) {
        assert LinkedAt(states, actions, i + 1);
      }
      TraceIsARun(states[1..], actions[1..]);
    }
  }

  lemma TraceGrows(states: seq<System>, actions: seq<Action>, a: Action)
    requires Trace(states, actions)
    ensures Trace(states + [Step(states[|actions|], a)], actions + [a])
  {
    var states', actions' := states + [Step(states[|actions|], a)], actions + [a];
    forall i: nat | i < |actions'| ensures LinkedAt(states', actions', i) {
      if i < |actions| {
        assert LinkedAt(states, actions, i);
      }
    }
  }

  /** What a live message leaves behind, seen from outside the write phase. */
  lemma LiveLeaves(s: System, panel: Panel, message: Message, rule: Rule, text: Text, candidates: seq<int>)
    ensures var w := WritePhase(panel, s.db, s.seen, message, rule, text, candidates);
            var s' := Step(s, Live(panel, message, rule, text, candidates));
            && s'.db == w.db && s'.seen == w.seen && s'.delivered == s.delivered && s'.confirmed == s.confirmed
            && (w.Finished? ==> s'.tasks == s.tasks)
            && (w.ToSend? ==> s'.tasks == s.tasks[w.matchId := Task(w.kind, w.recipients, 0, false, map[])])
            && (w.ToSend? ==> w.matchId == s.db.nextMatchId)
  {
    WritePhaseShape(panel, s.db, s.seen, message, rule, text, candidates);
  }

  lemma RecordLeaves(s: System, id: nat)
    requires id in s.tasks && s.tasks[id].todo == []
    ensures var s' := Step(s, Record(id));
            && s'.db == AddRows(s.db, OutcomeRows(id, s.tasks[id])) && s'.tasks == s.tasks - {id}
            && s'.seen == s.seen && s'.delivered == s.delivered && s'.confirmed == s.confirmed
  {
  }

  /** The task of match `id` is between calls, and `recipient` is next. */
  ghost predicate At(s: System, id: nat, recipient: int) {
    && id in s.tasks && s.tasks[id].todo != [] && s.tasks[id].todo[0] == recipient
    && !s.tasks[id].calling && s.tasks[id].attempts < NOTIFY_ATTEMPTS
  }

  ghost predicate OnlyCalls(actions: seq<Action>) {
    forall a :: a in actions ==> a.CallBegin? || a.CallReturned? || a.CallRaised?
  }

  ghost predicate OnlyResends(actions: seq<Action>) {
    forall a :: a in actions ==> a.ResendLoad? || a.ResendCall? || a.ResendReturned? || a.ResendRaised?
                                 || a.ResendMark? || a.ResendMarkLost?
  }

  /** Calls change no database, cache or resend. */
  ghost predicate Elsewhere(s: System, s': System) {
    s'.db == s.db && s'.seen == s.seen && s'.resend == s.resend
  }

  ghost predicate OnlyTaskAndMemory(s: System, s': System, id: nat, t: Task, fresh_: multiset<Pair>) {
    && Elsewhere(s, s') && s'.tasks == s.tasks[id := t] && s'.confirmed == s.confirmed + fresh_
  }

  /** A call that does not start, one that returns, and one that raises. */
  lemma RefusedLeaves(s: System, id: nat, recipient: int, gate: Gate, reason: Status)
    requires At(s, id, recipient)
    requires (gate == Refused(reason) && reason in {NotConfigured, NotAllowlisted})
          || (gate.Allowed? && (id, recipient) in s.delivered && reason == Duplicate)
    ensures var s' := Step(s, CallBegin(id, gate));
            OnlyTaskAndMemory(s, s', id, Settled(s.tasks[id], reason), multiset{}) && s'.delivered == s.delivered
  {
  }

  lemma ReturnedLeaves(s: System, id: nat, recipient: int)
    requires At(s, id, recipient) && (id, recipient) !in s.delivered
    ensures var s' := Step(Step(s, CallBegin(id, Allowed)), CallReturned(id));
            OnlyTaskAndMemory(s, s', id, Settled(s.tasks[id], Sent), multiset{(id, recipient)})
            && s'.delivered == s.delivered + {(id, recipient)}
  {
    assert Step(s, CallBegin(id, Allowed)).tasks[id] == s.tasks[id].(calling := true);
  }

  lemma RaisedLeaves(s: System, id: nat, recipient: int)
    requires At(s, id, recipient) && (id, recipient) !in s.delivered
    ensures var s' := Step(Step(s, CallBegin(id, Allowed)), CallRaised(id));
            OnlyTaskAndMemory(s, s', id, AfterAttempt(s.tasks[id], Raised), multiset{}) && s'.delivered == s.delivered
  {
    assert Step(s, CallBegin(id, Allowed)).tasks[id] == s.tasks[id].(calling := true);
  }

  lemma ResendLeaves(s: System, key: DeliveryKey, gate: Gate)
    requires s.resend.Pass? && s.resend.phase == Ready && s.resend.todo != [] && s.resend.todo[0] == key
    ensures var s' := Step(s, ResendCall(gate));
            && OnlyResendMoves(s, s'.(clock := s.clock)) && s'.confirmed == s.confirmed && s'.delivered == s.delivered
            && s'.resend == (if gate.Refused? then Pass(s.resend.todo[1..], Ready)
                             else s.resend.(phase := if PairOf(key) in s.delivered then Marking else Calling))
  {
  }

  lemma ResendEnds(s: System, key: DeliveryKey)
    requires s.resend.Pass? && s.resend.phase == Ready && s.resend.todo != [] && s.resend.todo[0] == key
    requires PairOf(key) !in s.delivered
    ensures var called := Step(s, ResendCall(Allowed));
            && Step(called, ResendRaised) == s.(resend := Pass(s.resend.todo[1..], Ready), clock := s.clock + 2)
            && Step(called, ResendReturned)
               == s.(resend := s.resend.(phase := Marking), confirmed := s.confirmed + multiset{PairOf(key)},
                     delivered := s.delivered + {PairOf(key)}, clock := s.clock + 2)
  {
    assert Step(s, ResendCall(Allowed)) == s.(resend := s.resend.(phase := Calling), clock := s.clock + 1);
  }

  ghost function AfterAttempt(t: Task, result: NotifyResult): Task
    requires t.todo != []
  {
    match result
    case Delivered => Settled(t, Sent)
    case NotDelivered(reason) => Settled(t, reason)
    case Raised => if t.attempts + 1 >= NOTIFY_ATTEMPTS then Settled(t, Failed) else t.(attempts := t.attempts + 1)
  }

  /** One listener process: the database it shares, its memory, and the machine states it went through. */
  class Process {
    var db: Db
    var seen: set<Signature>
    const notifier: BotNotifier
    const chats: map<int, string>
    ghost var states: seq<System>
    ghost var actions: seq<Action>

    /** The fields are those of the machine, and the machine got there by its own steps. */
    ghost predicate Valid()
      reads this, notifier
    {
      && Trace(states, actions)
      && Now().db == db && Now().seen == seen && Now().delivered == notifier.delivered
    }

    ghost function Now(): System
      requires states != []
      reads this
    {
      states[|states| - 1]
    }

    function ChatOf(recipient: int): string {
      if recipient in chats then chats[recipient] else ""
    }

    constructor (notifier: BotNotifier, chats: map<int, string>, cursors: map<int, int>)
      requires notifier.delivered == {}
      ensures Valid() && this.notifier == notifier && this.chats == chats
      ensures actions == [] && states == [Boot(cursors)]
    {
      this.notifier := notifier;
      this.chats := chats;
      db := Db(map[], 0, {}, map[], cursors);
      seen := {};
      states, actions := [Boot(cursors)], [];
    }

    ghost method Take(a: Action)
      requires Trace(states, actions)
      modifies this`states, this`actions
      ensures Trace(states, actions) && Now() == Step(old(Now()), a) && actions == old(actions) + [a]
      ensures states[0] == old(states)[0]
    {
      TraceGrows(states, actions, a);
      states, actions := states + [Step(Now(), a)], actions + [a];
    }

    /** One call of the notifier for the recipient a task is at. */
    method Attempt(id: nat, recipient: int) returns (result: NotifyResult)
      requires Valid() && At(Now(), id, recipient)
      modifies this`states, this`actions, notifier`delivered
      ensures Valid() && states[0] == old(states)[0]
      ensures old(actions) <= actions && OnlyCalls(actions[|old(actions)|..])
      ensures Now().tasks == old(Now()).tasks[id := AfterAttempt(old(Now()).tasks[id], result)]
      ensures Elsewhere(old(Now()), Now())
      ensures |Now().confirmed| == |old(Now()).confirmed| + if result.Delivered? then 1 else 0
      ensures result != NotDelivered(Sent)
    {
      ghost var gate := notifier.DeliveryBlockReason(ChatOf(recipient));
      result := notifier.Notify(id, recipient, ChatOf(recipient));
      ghost var s := Now();
      match result {
        case NotDelivered(reason) => RefusedLeaves(s, id, recipient, gate, reason);
        case Delivered => ReturnedLeaves(s, id, recipient);
        case Raised => RaisedLeaves(s, id, recipient);
      }
      Take(CallBegin(id, gate));
      if result.Delivered? {
        Take(CallReturned(id));
      } else if result.Raised? {
        Take(CallRaised(id));
      }
    }

    /** Sends one alert, up to three times, until something other than an exception comes back. */
    method NotifyWithRetry(id: nat, recipient: int) returns (status: Status)
      requires Valid() && At(Now(), id, recipient) && Now().tasks[id].attempts == 0
      modifies this`states, this`actions, notifier`delivered
      ensures Valid() && states[0] == old(states)[0]
      ensures old(actions) <= actions && OnlyCalls(actions[|old(actions)|..])
      ensures Now().tasks == old(Now()).tasks[id := Settled(old(Now()).tasks[id], status)]
      ensures Elsewhere(old(Now()), Now())
      ensures |Now().confirmed| == |old(Now()).confirmed| + if status == Sent then 1 else 0
    {
      ghost var t := Now().tasks[id];
      var attempt := 0;
      while true
        invariant 0 <= attempt < NOTIFY_ATTEMPTS
        invariant Valid() && states[0] == old(states)[0]
        invariant old(actions) <= actions && OnlyCalls(actions[|old(actions)|..])
        invariant Now().tasks == old(Now()).tasks[id := t.(attempts := attempt)]
        invariant Elsewhere(old(Now()), Now()) && |Now().confirmed| == |old(Now()).confirmed|
        decreases NOTIFY_ATTEMPTS - attempt
      {
        ghost var before := actions;
        attempt := attempt + 1;
        var result := Attempt(id, recipient);
        assert actions[|old(actions)|..] == before[|old(actions)|..] + actions[|before|..];
        match result {
          case NotDelivered(reason) => return reason;
          case Delivered => return Sent;
          case Raised =>
            if attempt >= NOTIFY_ATTEMPTS {
              return Failed;
            }
        }
      }
    }

    /** One message against one rule: the write phase, then the alerts, then their outcomes. `recorded`
        is whether the outcome write got through a locked database in the end. */
    method ProcessMessage(panel: Panel, message: Message, rule: Rule, text: Text, candidates: seq<int>, recorded: bool)
      returns (sent: nat, ghost outcomes: map<int, Status>)
      requires Valid() && Now().db.nextMatchId !in Now().tasks
      modifies this, notifier`delivered
      ensures Valid() && states[0] == old(states)[0]
      ensures old(actions) + [Live(panel, message, rule, text, candidates)] <= actions
      ensures forall i :: |old(actions)| < i < |actions| ==>
                actions[i].CallBegin? || actions[i].CallReturned? || actions[i].CallRaised?
                || actions[i].Record? || actions[i].Abandon?
      ensures Now().tasks == old(Now()).tasks
      ensures |Now().confirmed| == |old(Now()).confirmed| + sent && sent == |SentTo(outcomes)|
      ensures var w := WritePhase(panel, old(db), old(seen), message, rule, text, candidates);
              && seen == w.seen
              && outcomes.Keys == (if w.ToSend? then (set r | r in w.recipients) else {})
              && db == (if w.ToSend? && recorded
                        then AddRows(w.db, OutcomeRows(w.matchId, Task(w.kind, [], 0, false, outcomes))) else w.db)
    {
      var written := WritePhase(panel, db, seen, message, rule, text, candidates);
      sent, outcomes := 0, map[];
      RecipientsAreDistinct(panel, db, seen, message, rule, text, candidates);
      LiveLeaves(Now(), panel, message, rule, text, candidates);
      Take(Live(panel, message, rule, text, candidates));
      db, seen := written.db, written.seen;
      if written.ToSend? {
        sent, outcomes := Alert(written.matchId, written.kind, written.recipients, recorded);
      }
    }

    method Finish(id: nat, t: Task, recorded: bool)
      requires Valid() && id in Now().tasks && Now().tasks[id] == t && t.todo == []
      modifies this
      ensures Valid() && states[0] == old(states)[0]
      ensures actions == old(actions) + [if recorded then Record(id) else Abandon(id)]
      ensures Now().tasks == old(Now()).tasks - {id} && Now().confirmed == old(Now()).confirmed
      ensures db == (if recorded then AddRows(old(db), OutcomeRows(id, t)) else old(db)) && seen == old(seen)
    {
      if recorded {
        db := AddRows(db, OutcomeRows(id, t));
        RecordLeaves(Now(), id);
        Take(Record(id));
      } else {
        Take(Abandon(id));
      }
    }

    /** The network phase of one match and the write of its outcomes: one row for every recipient, as many
        of them `sent` as sends were confirmed. */
    method Alert(id: nat, kind: Kind, recipients: seq<int>, recorded: bool)
      returns (sent: nat, ghost outcomes: map<int, Status>)
      requires Valid() && id in Now().tasks && Now().tasks[id] == Task(kind, recipients, 0, false, map[])
      requires NoRepeats(recipients)
      modifies this, notifier`delivered
      ensures Valid() && states[0] == old(states)[0] && old(actions) <= actions
      ensures forall i :: |old(actions)| <= i < |actions| ==>
                actions[i].CallBegin? || actions[i].CallReturned? || actions[i].CallRaised?
                || actions[i].Record? || actions[i].Abandon?
      ensures Now().tasks == old(Now()).tasks - {id}
      ensures |Now().confirmed| == |old(Now()).confirmed| + sent
      ensures outcomes.Keys == (set r | r in recipients) && sent == |SentTo(outcomes)|
      ensures db == (if recorded then AddRows(old(db), OutcomeRows(id, Task(kind, [], 0, false, outcomes))) else old(db))
      ensures seen == old(seen)
    {
      var collected: map<int, Status> := map[];
      sent := 0;
      var i := 0;
      while i < |recipients|
        invariant 0 <= i <= |recipients|
        invariant Valid() && states[0] == old(states)[0] && db == old(db) && seen == old(seen)
        invariant old(actions) <= actions && OnlyCalls(actions[|old(actions)|..])
        invariant Now().tasks == old(Now()).tasks[id := Task(kind, recipients[i..], 0, false, collected)]
        invariant Elsewhere(old(Now()), Now()) && |Now().confirmed| == |old(Now()).confirmed| + sent
        invariant collected.Keys == (set r | r in recipients[..i]) && sent == |SentTo(collected)|
      {
        ghost var before := actions;
        var status := NotifyWithRetry(id, recipients[i]);
        MoreCalls(old(actions), before, actions);
        OneMoreAlerted(recipients, i, i + 1, collected, status);
        if status == Sent {
          sent := sent + 1;
        }
        collected := collected[recipients[i] := status];
        i := i + 1;
      }
      assert recipients[..i] == recipients;
      assert forall k :: |old(actions)| <= k < |actions| ==> actions[k] == actions[|old(actions)|..][k - |old(actions)|];
      Finish(id, Task(kind, [], 0, false, collected), recorded);
      outcomes := collected;
    }

    /** Tries the candidate at the head of the pass once; `completed` is false when its status write
        was given up, which ends the pass. */
    method ResendOne(key: DeliveryKey) returns (sent: bool, completed: bool)
      requires Valid() && Now().resend.Pass? && Now().resend.phase == Ready
      requires Now().resend.todo != [] && Now().resend.todo[0] == key
      modifies this, notifier`delivered
      ensures Valid() && states[0] == old(states)[0]
      ensures old(actions) <= actions && OnlyResends(actions[|old(actions)|..])
      ensures if completed then Now().resend == Pass(old(Now()).resend.todo[1..], Ready) else Now().resend.NoPass?
      ensures Now().tasks == old(Now()).tasks
      ensures |Now().confirmed| == |old(Now()).confirmed| + if sent then 1 else 0
      ensures OnlyFlips(old(db), db, [key])
      ensures sent && completed && key in db.deliveries ==> db.deliveries[key] != Failed
    {
      ghost var gate := notifier.DeliveryBlockReason(ChatOf(key.recipient));
      ghost var s := Now();
      ghost var known := PairOf(key) in s.delivered;
      var result := notifier.Notify(key.matchId, key.recipient, ChatOf(key.recipient));
      sent, completed := result.Delivered?, true;
      ResendLeaves(s, key, gate);
      if gate.Allowed? && !known {
        ResendEnds(s, key);
      }
      Take(ResendCall(gate));
      if result.Raised? {
        Take(ResendRaised);
      } else if result.Delivered? || result == NotDelivered(Duplicate) {
        if result.Delivered? {
          Take(ResendReturned);
        }
        completed := MarkSent(key);
      }
    }

    /** The short status write after a confirmed send; it only flips a row that is still `failed`. */
    method MarkSent(key: DeliveryKey) returns (written: bool)
      requires Valid() && Now().resend.Pass? && Now().resend.phase == Marking
      requires Now().resend.todo != [] && Now().resend.todo[0] == key
      modifies this
      ensures Valid() && states[0] == old(states)[0]
      ensures old(actions) <= actions && OnlyResends(actions[|old(actions)|..])
      ensures if written then Now().resend == Pass(old(Now()).resend.todo[1..], Ready) else Now().resend.NoPass?
      ensures Now().tasks == old(Now()).tasks && Now().confirmed == old(Now()).confirmed
      ensures OnlyFlips(old(db), db, [key]) && (!written ==> db == old(db))
      ensures written && key in db.deliveries ==> db.deliveries[key] != Failed
    {
      written := *;
      if written {
        if key in db.deliveries && db.deliveries[key] == Failed {
          db := db.(deliveries := db.deliveries[key := Sent]);
        }
        Take(ResendMark);
      } else {
        Take(ResendMarkLost);
      }
    }

    /** One pass over the failed alerts that were due; returns how many went out. */
    method ResendFailedDeliveries(keys: seq<DeliveryKey>) returns (resent: nat)
      requires Valid() && Idle(Now()) && forall key :: key in keys ==> Resendable(Now(), key)
      modifies this, notifier`delivered
      ensures Valid() && states[0] == old(states)[0] && Idle(Now())
      ensures old(actions) <= actions && OnlyResends(actions[|old(actions)|..])
      ensures Now().tasks == old(Now()).tasks
      ensures |Now().confirmed| == |old(Now()).confirmed| + resent
      ensures OnlyFlips(old(db), db, keys)
    {
      Take(ResendLoad(keys));
      resent := 0;
      var i := 0;
      while i < |keys|
        invariant 0 <= i <= |keys|
        invariant Valid() && states[0] == old(states)[0]
        invariant old(actions) <= actions && OnlyResends(actions[|old(actions)|..])
        invariant Now().resend == Pass(keys[i..], Ready) && Now().tasks == old(Now()).tasks
        invariant |Now().confirmed| == |old(Now()).confirmed| + resent
        invariant OnlyFlips(old(db), db, keys)
      {
        ghost var before := actions;
        var sent, completed := ResendOne(keys[i]);
        assert actions[|old(actions)|..] == before[|old(actions)|..] + actions[|before|..];
        assert keys[i..][1..] == keys[i + 1..];
        if sent {
          resent := resent + 1;
        }
        if !completed {
          return;
        }
        i := i + 1;
      }
    }
  }

  /** The recipients an outcome says got the alert. */
  function SentTo(outcomes: map<int, Status>): set<int> {
    set r | r in outcomes && outcomes[r] == Sent
  }

  lemma MoreCalls(start: seq<Action>, before: seq<Action>, actions: seq<Action>)
    requires start <= before <= actions && OnlyCalls(before[|start|..]) && OnlyCalls(actions[|before|..])
    ensures OnlyCalls(actions[|start|..])
  {
    assert actions[|start|..] == before[|start|..] + actions[|before|..];
  }

  lemma OneMoreAlerted(recipients: seq<int>, i: nat, next: nat, outcomes: map<int, Status>, status: Status)
    requires i < |recipients| && next == i + 1 && NoRepeats(recipients) && outcomes.Keys == set r | r in recipients[..i]
    ensures recipients[i..][1..] == recipients[next..]
    ensures outcomes[recipients[i] := status].Keys == set r | r in recipients[..next]
    ensures |SentTo(outcomes[recipients[i] := status])| == |SentTo(outcomes)| + if status == Sent then 1 else 0
  {
    assert recipients[..next] == recipients[..i] + [recipients[i]];
    OneMoreOutcome(outcomes, recipients[i], status);
  }

  lemma OneMoreOutcome(outcomes: map<int, Status>, r: int, status: Status)
    requires r !in outcomes
    ensures SentTo(outcomes[r := status]) == SentTo(outcomes) + (if status == Sent then {r} else {})
    ensures |SentTo(outcomes[r := status])| == |SentTo(outcomes)| + if status == Sent then 1 else 0
  {
  }

  /** Some of these rows went from `failed` to `sent`; nothing else changed. */
  ghost predicate OnlyFlips(db: Db, db': Db, keys: seq<DeliveryKey>) {
    && db' == db.(deliveries := db'.deliveries) && db'.deliveries.Keys == db.deliveries.Keys
    && forall key :: key in db.deliveries && db'.deliveries[key] != db.deliveries[key] ==>
         key in keys && db.deliveries[key] == Failed && db'.deliveries[key] == Sent
  }

  /** Whatever this process did since boot, no recipient got the same match's alert confirmed twice. */
  lemma ProcessAlertsAtMostOnce(p: Process, cursors: map<int, int>, pair: Pair)
    requires p.Valid() && p.states[0] == Boot(cursors) && CrashesSafely(Boot(cursors), p.actions)
    ensures p.Now().confirmed[pair] <= 1
  {
    TraceIsARun(p.states, p.actions);
    AtMostOneConfirmedAlert(cursors, p.actions, pair);
  }

  // ---------------------------------------------------------------------------------------------
  // The dedupe cache

  predicate Accepts(seen: map<Signature, int>, window: Option<int>, signature: Signature, now: int) {
    signature in seen ==> window.Some? && now - seen[signature] >= window.value
  }

  /** Remembers when a signature was last let through; without a window, forever. */
  class DedupeCache {
    const window: Option<int>
    var seen: map<Signature, int>

    constructor (window: Option<int>)
      ensures this.window == window && seen == map[]
    {
      this.window := window;
      seen := map[];
    }

    method ShouldProcess(signature: Signature, now: int) returns (process: bool)
      modifies this
      ensures process <==> signature !in old(seen) || (window.Some? && now - old(seen)[signature] >= window.value)
      ensures seen == if process then old(seen)[signature := now] else old(seen)
    {
      if signature in seen {
        var withinWindow := window.None? || now - seen[signature] < window.value;
        if withinWindow {
          return false;
        }
      }
      seen := seen[signature := now];
      process := true;
    }

    method Forget(signature: Signature)
      modifies this
      ensures seen == old(seen) - {signature}
    {
      seen := seen - {signature};
    }

    /** An attempt whose write phase rolls back, then its retry: what the attempt was let through for, the retry
        is let through for, and the cache ends as if only the retry had been made. */
    method RetryAfterRollback(signature: Signature, now: int, later: int) returns (first: bool, second: bool)
      modifies this
      ensures first == Accepts(old(seen), window, signature, now)
      ensures second == (first || Accepts(old(seen), window, signature, later))
      ensures seen == if second then old(seen)[signature := later] else old(seen)
    {
      first := ShouldProcess(signature, now);
      if first {
        Forget(signature);
      }
      second := ShouldProcess(signature, later);
    }
  }
}
