/** Cursors, catch-up and configuration swaps of one listener process.

    A live message may fail after later ones moved the cursor past it; the process remembers the lowest
    such id per source and the next catch-up starts below it. Live messages, catch-ups and swaps
    interleave at every wait; only a catch-up and a swap exclude each other, by one lock. */
module CatchUp {
  import opened Chat
  import opened Options

  datatype ChatMessage = ChatMessage(id: int, date: int)

  type Chats = map<int, seq<ChatMessage>>

  type Owed = set<(int, int)>

  // ---------------------------------------------------------------------------------------------
  // Cursors and one read of the chat

  function MessagesOf(chats: Chats, source: int): seq<ChatMessage> {
    if source in chats then chats[source] else []
  }

  /** The id of the newest message, 0 for an empty chat: every real id is above it. */
  function Head(chat: seq<ChatMessage>): int {
    if chat == [] then 0 else chat[|chat| - 1].id
  }

  ghost predicate Increasing(chat: seq<ChatMessage>) {
    && (forall i, j :: 0 <= i < j < |chat| ==> chat[i].id < chat[j].id)
    && (forall i :: 0 <= i < |chat| ==> chat[i].id > 0)
  }

  /** Where a read starts: at the cursor, or just below the remembered floor. */
  function StartOf(cursor: int, floor: Option<int>): int {
    if floor.Some? && floor.value - 1 < cursor then floor.value - 1 else cursor
  }

  /** What the chat answers: the newest messages above `minId`, newest first, at most `limit`. */
  function Newest(chat: seq<ChatMessage>, minId: int, limit: nat): seq<ChatMessage> {
    if chat == [] || limit == 0 || chat[|chat| - 1].id <= minId then []
    else [chat[|chat| - 1]] + Newest(chat[..|chat| - 1], minId, limit - 1)
  }

  predicate Kept(m: ChatMessage, lastId: int, cutoff: Option<int>) {
    m.id > lastId && (cutoff.Some? ==> m.date >= cutoff.value)
  }

  /** What a read keeps of a page: new and recent enough messages, cut once `limit` are collected. */
  function Collected(page: seq<ChatMessage>, lastId: int, cutoff: Option<int>, limit: nat, have: nat): seq<ChatMessage> {
    if page == [] then []
    else if !Kept(page[0], lastId, cutoff) then Collected(page[1..], lastId, cutoff, limit, have)
    else if have + 1 >= limit then [page[0]]
    else [page[0]] + Collected(page[1..], lastId, cutoff, limit, have + 1)
  }

  function Backfill(chat: seq<ChatMessage>, cursor: int, floor: Option<int>, cutoff: Option<int>, limit: nat): seq<ChatMessage> {
    var lastId := StartOf(cursor, floor);
    Collected(Newest(chat, lastId, limit), lastId, cutoff, limit, 0)
  }

  function MaxId(batch: seq<ChatMessage>): int
    requires batch != []
  {
    if |batch| == 1 then batch[0].id
    else
      var rest := MaxId(batch[1..]);
      if batch[0].id > rest then batch[0].id else rest
  }

  function AdvanceOver(cursors: map<int, int>, source: int, batch: seq<ChatMessage>): map<int, int> {
    if batch == [] then cursors else Advance(cursors, source, MaxId(batch))
  }

  lemma CollectedFromHere(page: seq<ChatMessage>, i: nat, lastId: int, cutoff: Option<int>, limit: nat, have: nat)
    requires i < |page|
    ensures Collected(page[i..], lastId, cutoff, limit, have) ==
            if !Kept(page[i], lastId, cutoff) then Collected(page[i + 1..], lastId, cutoff, limit, have)
            else if have + 1 >= limit then [page[i]]
            else [page[i]] + Collected(page[i + 1..], lastId, cutoff, limit, have + 1)
  {
    assert page[i..][0] == page[i] && page[i..][1..] == page[i + 1..];
  }

  /** Half way through a page: what is collected, and what the rest of the page adds unless that is enough. */
  ghost predicate CollectedUpTo(
      page: seq<ChatMessage>, i: nat, lastId: int, cutoff: Option<int>, limit: nat, collected: seq<ChatMessage>, full: bool)
    requires i <= |page|
  {
    Collected(page, lastId, cutoff, limit, 0)
      == if full then collected else collected + Collected(page[i..], lastId, cutoff, limit, |collected|)
  }

  lemma OneMoreCollected(
      page: seq<ChatMessage>, i: nat, lastId: int, cutoff: Option<int>, limit: nat, collected: seq<ChatMessage>)
    requires i < |page| && CollectedUpTo(page, i, lastId, cutoff, limit, collected, false)
    ensures !Kept(page[i], lastId, cutoff) ==> CollectedUpTo(page, i + 1, lastId, cutoff, limit, collected, false)
    ensures Kept(page[i], lastId, cutoff) ==>
      CollectedUpTo(page, i + 1, lastId, cutoff, limit, collected + [page[i]], |collected| + 1 >= limit)
  {
    CollectedFromHere(page, i, lastId, cutoff, limit, |collected|);
  }

  /** The loop over a page: what is new and recent enough is collected, until it is enough. */
  method CollectFrom(page: seq<ChatMessage>, lastId: int, cutoff: Option<int>, limit: nat)
    returns (collected: seq<ChatMessage>)
    ensures collected == Collected(page, lastId, cutoff, limit, 0)
  {
    collected := [];
    var i := 0;
    var full := false;
    assert page[0..] == page;
    while i < |page| && !full
      invariant 0 <= i <= |page| && CollectedUpTo(page, i, lastId, cutoff, limit, collected, full)
      decreases |page| - i, !full
    {
      var message := page[i];
      OneMoreCollected(page, i, lastId, cutoff, limit, collected);
      if message.id > lastId && (cutoff.None? || message.date >= cutoff.value) {
        collected := collected + [message];
        full := |collected| >= limit;
      }
      i := i + 1;
    }
    assert !full ==> page[i..] == [];
  }

  /** The persisted cursors, and the loop that reads a chat past one of them. */
  class CursorTable {
    var rows: map<int, int>

    constructor (rows: map<int, int>)
      ensures this.rows == rows
    {
      this.rows := rows;
    }

    method AdvanceCursor(source: int, id: int)
      modifies this
      ensures rows == Advance(old(rows), source, id)
      ensures NeverBack(old(rows), rows) && source in rows && rows[source] >= id
    {
      if source !in rows {
        rows := rows[source := id];
      } else if id > rows[source] {
        rows := rows[source := id];
      }
    }

    /** Reads whatever page the chat gives for the start of this read. */
    method BackfillSinceCursor(
        page: seq<ChatMessage>, source: int, limit: nat, cutoff: Option<int>, floor: Option<int>)
      returns (collected: seq<ChatMessage>)
      modifies this
      ensures collected == Collected(page, StartOf(CursorOf(old(rows), source), floor), cutoff, limit, 0)
      ensures rows == AdvanceOver(old(rows), source, collected)
      ensures forall m :: m in collected ==> m in page && m.id <= CursorOf(rows, source)
      ensures forall m :: m in collected ==> IsNew(m, CursorOf(old(rows), source), floor) && RecentEnough(m, cutoff)
      ensures |page| <= limit ==> forall m ::
        m in page && IsNew(m, CursorOf(old(rows), source), floor) && RecentEnough(m, cutoff) ==> m in collected
      ensures NeverBack(old(rows), rows)
    {
      var lastId := CursorOf(rows, source);
      if floor.Some? && floor.value - 1 < lastId {
        lastId := floor.value - 1;
      }
      collected := CollectFrom(page, lastId, cutoff, limit);
      CollectedAreKept(page, lastId, cutoff, limit, 0);
      CollectedAreNewAndRecent(page, CursorOf(rows, source), floor, cutoff, limit, 0);
      if collected != [] {
        MaxIdIsMax(collected);
        AdvanceCursor(source, MaxId(collected));
      }
    }
  }

  lemma {:induction false} MaxIdIsMax(batch: seq<ChatMessage>)
    requires batch != []
    ensures forall m :: m in batch ==> m.id <= MaxId(batch)
    ensures exists m :: m in batch && m.id == MaxId(batch)
  {
    if |batch| == 1 {
      assert batch[0] in batch;
    } else {
      MaxIdIsMax(batch[1..]);
      assert batch[0] in batch;
      assert forall m :: m in batch <==> m == batch[0] || m in batch[1..];
    }
  }

  /** Past the cursor, or at the remembered floor or past it. */
  ghost predicate IsNew(m: ChatMessage, cursor: int, floor: Option<int>) {
    m.id > cursor || (floor.Some? && m.id >= floor.value)
  }

  ghost predicate RecentEnough(m: ChatMessage, cutoff: Option<int>) {
    cutoff.Some? ==> cutoff.value <= m.date
  }

  /** The chat's `k`-th message comes back in a read exactly when it is new, recent enough, and no more than
      `limit` messages of the chat are as new. */
  ghost predicate Covered(chat: seq<ChatMessage>, k: nat, cursor: int, floor: Option<int>, cutoff: Option<int>, limit: nat) {
    && k < |chat| && IsNew(chat[k], cursor, floor) && RecentEnough(chat[k], cutoff) && |chat| - k <= limit
  }

  lemma {:induction false} CollectedAreKept(page: seq<ChatMessage>, lastId: int, cutoff: Option<int>, limit: nat, have: nat)
    ensures forall m :: m in Collected(page, lastId, cutoff, limit, have) ==> m in page && Kept(m, lastId, cutoff)
  {
    if page != [] {
      assert forall m :: m in page <==> m == page[0] || m in page[1..];
      if !Kept(page[0], lastId, cutoff) {
        CollectedAreKept(page[1..], lastId, cutoff, limit, have);
      } else if have + 1 < limit {
        CollectedAreKept(page[1..], lastId, cutoff, limit, have + 1);
      }
    }
  }

  lemma CollectedAreNewAndRecent(
      page: seq<ChatMessage>, cursor: int, floor: Option<int>, cutoff: Option<int>, limit: nat, have: nat)
    ensures forall m :: m in Collected(page, StartOf(cursor, floor), cutoff, limit, have) ==>
      IsNew(m, cursor, floor) && RecentEnough(m, cutoff)
    ensures have + |page| <= limit ==> forall m :: m in page && IsNew(m, cursor, floor) && RecentEnough(m, cutoff) ==>
      m in Collected(page, StartOf(cursor, floor), cutoff, limit, have)
  {
    CollectedAreKept(page, StartOf(cursor, floor), cutoff, limit, have);
    if have + |page| <= limit {
      forall m | m in page && IsNew(m, cursor, floor) && RecentEnough(m, cutoff)
        ensures m in Collected(page, StartOf(cursor, floor), cutoff, limit, have)
      {
        CollectedKeepsAShortPage(page, StartOf(cursor, floor), cutoff, limit, have, m);
      }
    }
  }

  lemma {:induction false} NewestHasTheNewest(chat: seq<ChatMessage>, minId: int, limit: nat, m: ChatMessage)
    requires Increasing(chat)
    ensures |Newest(chat, minId, limit)| <= limit
    ensures m in Newest(chat, minId, limit) <==>
      exists k :: 0 <= k < |chat| && chat[k] == m && m.id > minId && |chat| - k <= limit
  {
    if chat == [] || limit == 0 {
    } else if chat[|chat| - 1].id <= minId {
      assert forall k :: 0 <= k < |chat| ==> chat[k].id <= minId;
    } else {
      var init := chat[..|chat| - 1];
      var last := chat[|chat| - 1];
      NewestHasTheNewest(init, minId, limit - 1, m);
      if m in Newest(init, minId, limit - 1) {
        var k :| 0 <= k < |init| && init[k] == m && m.id > minId && |init| - k <= limit - 1;
        assert chat[k] == m;
      }
      if m == last {
        assert chat[|chat| - 1] == m;
      }
      if k :| 0 <= k < |chat| && chat[k] == m && m.id > minId && |chat| - k <= limit {
        if k < |init| {
          assert init[k] == m;
        }
      }
    }
  }

  lemma {:induction false} CollectedKeepsAShortPage(
      page: seq<ChatMessage>, lastId: int, cutoff: Option<int>, limit: nat, have: nat, m: ChatMessage)
    requires have + |page| <= limit
    ensures m in Collected(page, lastId, cutoff, limit, have) <==> m in page && Kept(m, lastId, cutoff)
  {
    if page != [] {
      assert m in page <==> m == page[0] || m in page[1..];
      if !Kept(page[0], lastId, cutoff) {
        CollectedKeepsAShortPage(page[1..], lastId, cutoff, limit, have, m);
      } else if have + 1 >= limit {
        assert page[1..] == [];
      } else {
        CollectedKeepsAShortPage(page[1..], lastId, cutoff, limit, have + 1, m);
      }
    }
  }

  /** One read returns exactly the messages above its start that the two bounds cover. */
  lemma BackfillReturnsTheCovered(
      chat: seq<ChatMessage>, cursor: int, floor: Option<int>, cutoff: Option<int>, limit: nat, m: ChatMessage)
    requires Increasing(chat)
    ensures m in Backfill(chat, cursor, floor, cutoff, limit) <==>
      exists k :: 0 <= k < |chat| && chat[k] == m && Covered(chat, k, cursor, floor, cutoff, limit)
  {
    var lastId := StartOf(cursor, floor);
    NewestHasTheNewest(chat, lastId, limit, m);
    CollectedKeepsAShortPage(Newest(chat, lastId, limit), lastId, cutoff, limit, 0, m);
    assert Kept(m, lastId, cutoff) <==> IsNew(m, cursor, floor) && RecentEnough(m, cutoff);
    if k :| 0 <= k < |chat| && chat[k] == m && m.id > lastId && |chat| - k <= limit {
      assert Kept(m, lastId, cutoff) ==> Covered(chat, k, cursor, floor, cutoff, limit);
    }
  }

  // ---------------------------------------------------------------------------------------------
  // The process

  /** What holds the catch-up lock. A running pass has read its batch; one at boot does not remember
      failures but gives up. A swap under way knows the head each source it initialised had. */
  datatype Work =
    | Free
    | Reading(source: int, floor: Option<int>)
    | Rerunning(source: int, todo: seq<ChatMessage>, remembering: bool)
    | Applying(heads: map<int, int>)

  /** `owed` holds the live messages whose processing failed and that were not run through again since;
      `skipped` those of them a read's bounds left out; `notified` every message handed to the notifying
      pipeline. */
  datatype Process = Process(
    chats: Chats, cursors: map<int, int>, started: bool, live: set<int>, floors: map<int, int>,
    inFlight: Owed, work: Work, bootHeads: map<int, int>, owed: Owed, skipped: Owed, notified: seq<(int, int)>)

  datatype Action =
    | Post(source: int, m: ChatMessage, delivered: bool)
    | LiveWrite(source: int, id: int)
    | LiveFailed(source: int, id: int)
    | LiveDone(source: int, id: int)
    | BootInit(source: int)
    | BootRead(source: int, cutoff: Option<int>, limit: nat)
    | Register(sources: set<int>)
    | PassBegin(source: int)
    | PassRead(cutoff: Option<int>, limit: nat)
    | PassAborted
    | PassRun(failed: bool)
    | PassEnd
    | ApplyBegin
    | ApplyInit(source: int)
    | ApplyFailed
    | Swap(sources: set<int>)

  function Remember(floors: map<int, int>, source: int, id: int): map<int, int> {
    if source in floors && floors[source] <= id then floors else floors[source := id]
  }

  /** A message appears in its chat; the live handler takes it at once, unless the update is lost. */
  function DoPost(p: Process, source: int, m: ChatMessage, delivered: bool): Process {
    if m.id <= Head(MessagesOf(p.chats, source)) then p
    else
      var q := p.(chats := p.chats[source := MessagesOf(p.chats, source) + [m]]);
      if delivered && source in p.live then
        q.(inFlight := q.inFlight + {(source, m.id)}, notified := q.notified + [(source, m.id)])
      else q
  }

  function DoLiveFailed(p: Process, source: int, id: int): Process {
    if (source, id) !in p.inFlight then p
    else p.(floors := Remember(p.floors, source, id), owed := p.owed + {(source, id)}, skipped := p.skipped - {(source, id)})
  }

  function Initialised(p: Process, source: int): map<int, int> {
    var chat := MessagesOf(p.chats, source);
    if chat == [] then p.cursors else Advance(p.cursors, source, Head(chat))
  }

  function DoBootInit(p: Process, source: int): Process {
    if p.started || !p.work.Free? || source in p.cursors then p
    else p.(cursors := Initialised(p, source), bootHeads := p.bootHeads[source := Head(MessagesOf(p.chats, source))])
  }

  function DoBootRead(p: Process, source: int, cutoff: Option<int>, limit: nat): Process {
    if p.started || !p.work.Free? || source !in p.cursors then p
    else
      var batch := Backfill(MessagesOf(p.chats, source), CursorOf(p.cursors, source), None, cutoff, limit);
      p.(cursors := AdvanceOver(p.cursors, source, batch), work := Rerunning(source, batch, false))
  }

  function DoPassBegin(p: Process, source: int): Process {
    if !p.started || !p.work.Free? || source !in p.live then p
    else p.(work := Reading(source, if source in p.floors then Some(p.floors[source]) else None), floors := p.floors - {source})
  }

  predicate InBatch(batch: seq<ChatMessage>, id: int) {
    exists i :: 0 <= i < |batch| && batch[i].id == id
  }

  function DoPassRead(p: Process, cutoff: Option<int>, limit: nat): Process {
    if !p.work.Reading? then p
    else
      var source, floor := p.work.source, p.work.floor;
      var batch := Backfill(MessagesOf(p.chats, source), CursorOf(p.cursors, source), floor, cutoff, limit);
      p.(cursors := AdvanceOver(p.cursors, source, batch), work := Rerunning(source, batch, true),
         skipped := p.skipped + set owed | owed in p.owed && owed.0 == source && !InBatch(batch, owed.1)
                                            && !(source in p.floors && p.floors[source] <= owed.1))
  }

  /** The read itself failed: the floor taken out up front is put back. */
  function DoPassAborted(p: Process): Process {
    if !p.work.Reading? then p
    else p.(work := Free, floors := if p.work.floor.Some? then Remember(p.floors, p.work.source, p.work.floor.value) else p.floors)
  }

  /** One message of the batch goes through every rule again. Its cursor is already past it. */
  function DoPassRun(p: Process, failed: bool): Process {
    if !p.work.Rerunning? || p.work.todo == [] then p
    else
      var source, id := p.work.source, p.work.todo[0].id;
      var q := p.(work := p.work.(todo := p.work.todo[1..]), notified := p.notified + [(source, id)]);
      if !failed then q.(owed := q.owed - {(source, id)}, skipped := q.skipped - {(source, id)})
      else if p.work.remembering then
        q.(floors := Remember(q.floors, source, id), owed := q.owed + {(source, id)}, skipped := q.skipped - {(source, id)})
      else q.(work := Free)
  }

  function DoApplyInit(p: Process, source: int): Process {
    if !p.work.Applying? || source in p.live then p
    else p.(cursors := Initialised(p, source),
            work := Applying(p.work.heads[source := Head(MessagesOf(p.chats, source))]))
  }

  /** Only when every source that was not listened to so far has its cursor at the head. */
  predicate CanSwap(p: Process, sources: set<int>) {
    p.work.Applying? && sources - p.live <= p.work.heads.Keys
  }

  predicate CanRegister(p: Process, sources: set<int>) {
    !p.started && p.work.Free? && sources <= p.cursors.Keys + p.bootHeads.Keys
  }

  function Step(p: Process, a: Action): Process {
    match a
    case Post(source, m, delivered) => DoPost(p, source, m, delivered)
    case LiveWrite(source, id) =>
      if (source, id) in p.inFlight then p.(cursors := Advance(p.cursors, source, id)) else p
    case LiveFailed(source, id) => DoLiveFailed(p, source, id)
    case LiveDone(source, id) => p.(inFlight := p.inFlight - {(source, id)})
    case BootInit(source) => DoBootInit(p, source)
    case BootRead(source, cutoff, limit) => DoBootRead(p, source, cutoff, limit)
    case Register(sources) => if CanRegister(p, sources) then p.(started := true, live := sources) else p
    case PassBegin(source) => DoPassBegin(p, source)
    case PassRead(cutoff, limit) => DoPassRead(p, cutoff, limit)
    case PassAborted => DoPassAborted(p)
    case PassRun(failed) => DoPassRun(p, failed)
    case PassEnd => if p.work.Rerunning? && p.work.todo == [] then p.(work := Free) else p
    case ApplyBegin => if p.started && p.work.Free? then p.(work := Applying(map[])) else p
    case ApplyInit(source) => DoApplyInit(p, source)
    case ApplyFailed => if p.work.Applying? then p.(work := Free) else p
    case Swap(sources) => if CanSwap(p, sources) then p.(live := sources, work := Free) else p
  }

  function Run(p: Process, actions: seq<Action>): Process
    decreases |actions|
  {
    if actions == [] then p else Run(Step(p, actions[0]), actions[1..])
  }

  /** A process that just started, over whatever the chats and the database hold. */
  function Boot(chats: Chats, cursors: map<int, int>): Process {
    Process(chats, cursors, false, {}, map[], {}, Free, map[], {}, {}, [])
  }

  ghost predicate ChatsOrdered(chats: Chats) {
    forall source :: source in chats ==> Increasing(chats[source])
  }

  // ---------------------------------------------------------------------------------------------
  // Cursors only move forward

  lemma CursorsNeverGoBack(p: Process, a: Action)
    ensures NeverBack(p.cursors, Step(p, a).cursors)
  {
  }

  lemma {:induction false} RunNeverMovesCursorsBack(p: Process, actions: seq<Action>)
    ensures NeverBack(p.cursors, Run(p, actions).cursors)
    decreases |actions|
  {
    if actions != [] {
      CursorsNeverGoBack(p, actions[0]);
      RunNeverMovesCursorsBack(Step(p, actions[0]), actions[1..]);
    }
  }

  // ---------------------------------------------------------------------------------------------
  // A failed live message is never forgotten

  ghost predicate Remembered(floors: map<int, int>, source: int, id: int) {
    source in floors && floors[source] <= id
  }

  ghost predicate BeingReread(work: Work, source: int, id: int) {
    match work
    case Reading(s, floor) => s == source && floor.Some? && floor.value <= id
    case Rerunning(s, todo, _) => s == source && InBatch(todo, id)
    case _ => false
  }

  ghost predicate NotForgotten(p: Process) {
    && (forall owed :: owed in p.owed ==>
          Remembered(p.floors, owed.0, owed.1) || BeingReread(p.work, owed.0, owed.1) || owed in p.skipped)
    && (p.work.Rerunning? && !p.work.remembering ==> !p.started)
    && (p.work.Rerunning? && p.work.remembering ==> p.started)
    && (p.work.Reading? || p.work.Applying? ==> p.started)
    && (!p.started ==> p.owed == {} && p.live == {} && p.inFlight == {} && p.floors == map[])
  }

  lemma RestOfBatch(todo: seq<ChatMessage>, id: int)
    requires InBatch(todo, id) && id != todo[0].id
    ensures InBatch(todo[1..], id)
  {
    var i :| 0 <= i < |todo| && todo[i].id == id;
    assert todo[1..][i - 1].id == id;
  }

  lemma PassRunForgetsNothing(p: Process, failed: bool)
    requires NotForgotten(p)
    ensures NotForgotten(DoPassRun(p, failed))
  {
    if p.work.Rerunning? && p.work.todo != [] {
      var source, todo := p.work.source, p.work.todo;
      var q := DoPassRun(p, failed);
      forall owed | owed in q.owed
        ensures Remembered(q.floors, owed.0, owed.1) || BeingReread(q.work, owed.0, owed.1) || owed in q.skipped
      {
        if owed != (source, todo[0].id) && BeingReread(p.work, owed.0, owed.1) {
          RestOfBatch(todo, owed.1);
        }
      }
    }
  }

  lemma LiveFailedForgetsNothing(p: Process, source: int, id: int)
    requires NotForgotten(p)
    ensures NotForgotten(DoLiveFailed(p, source, id))
  {
  }

  lemma PassReadForgetsNothing(p: Process, cutoff: Option<int>, limit: nat)
    requires NotForgotten(p)
    ensures NotForgotten(DoPassRead(p, cutoff, limit))
  {
    var q := DoPassRead(p, cutoff, limit);
    forall owed | owed in q.owed
      ensures Remembered(q.floors, owed.0, owed.1) || BeingReread(q.work, owed.0, owed.1) || owed in q.skipped
    {
    }
  }

  lemma PassAbortedForgetsNothing(p: Process)
    requires NotForgotten(p)
    ensures NotForgotten(DoPassAborted(p))
  {
  }

  lemma OtherStepForgetsNothing(p: Process, a: Action)
    requires NotForgotten(p) && !a.LiveFailed? && !a.PassRead? && !a.PassAborted? && !a.PassRun?
    ensures NotForgotten(Step(p, a))
  {
  }

  lemma StepForgetsNothing(p: Process, a: Action)
    requires NotForgotten(p)
    ensures NotForgotten(Step(p, a))
  {
    if a.PassRun? {
      PassRunForgetsNothing(p, a.failed);
    } else if a.PassRead? {
      PassReadForgetsNothing(p, a.cutoff, a.limit);
    } else if a.LiveFailed? {
      LiveFailedForgetsNothing(p, a.source, a.id);
    } else if a.PassAborted? {
      PassAbortedForgetsNothing(p);
    } else {
      OtherStepForgetsNothing(p, a);
    }
  }

  lemma {:induction false} RunForgetsNothing(p: Process, actions: seq<Action>)
    requires NotForgotten(p)
    ensures NotForgotten(Run(p, actions))
    decreases |actions|
  {
    if actions != [] {
      StepForgetsNothing(p, actions[0]);
      RunForgetsNothing(Step(p, actions[0]), actions[1..]);
    }
  }

  /** What a read's two bounds say about the message `id` of a chat, without its cursor. */
  ghost predicate WithinBounds(chat: seq<ChatMessage>, id: int, cutoff: Option<int>, limit: nat) {
    exists k :: 0 <= k < |chat| && chat[k].id == id && |chat| - k <= limit && (cutoff.Some? ==> chat[k].date >= cutoff.value)
  }

  /** The next catch-up whose bounds cover a remembered message runs it again. */
  lemma CatchUpRerunsTheRemembered(p: Process, cutoff: Option<int>, limit: nat, id: int)
    requires ChatsOrdered(p.chats) && p.work.Reading? && p.work.floor.Some? && p.work.floor.value <= id
    requires WithinBounds(MessagesOf(p.chats, p.work.source), id, cutoff, limit)
    ensures var q := Step(p, PassRead(cutoff, limit)); q.work.Rerunning? && InBatch(q.work.todo, id)
  {
    var source, floor := p.work.source, p.work.floor;
    var chat, cursor := MessagesOf(p.chats, source), CursorOf(p.cursors, source);
    var k :| 0 <= k < |chat| && chat[k].id == id && |chat| - k <= limit && (cutoff.Some? ==> chat[k].date >= cutoff.value);
    assert Covered(chat, k, cursor, floor, cutoff, limit);
    BackfillReturnsTheCovered(chat, cursor, floor, cutoff, limit, chat[k]);
  }

  /** Every read's bounds cover the failed messages of its source. */
  ghost predicate BoundsSuffice(p: Process, actions: seq<Action>)
    decreases |actions|
  {
    actions != [] ==>
      && (actions[0].PassRead? && p.work.Reading? ==>
            forall owed :: owed in p.owed && owed.0 == p.work.source ==>
              WithinBounds(MessagesOf(p.chats, owed.0), owed.1, actions[0].cutoff, actions[0].limit))
      && BoundsSuffice(Step(p, actions[0]), actions[1..])
  }

  lemma SufficientReadSkipsNothing(p: Process, cutoff: Option<int>, limit: nat)
    requires NotForgotten(p) && ChatsOrdered(p.chats) && p.skipped == {} && p.work.Reading?
    requires forall owed :: owed in p.owed && owed.0 == p.work.source ==>
      WithinBounds(MessagesOf(p.chats, owed.0), owed.1, cutoff, limit)
    ensures DoPassRead(p, cutoff, limit).skipped == {}
  {
    var q := Step(p, PassRead(cutoff, limit));
    forall owed | owed in p.owed && owed.0 == p.work.source && !Remembered(p.floors, owed.0, owed.1)
      ensures InBatch(q.work.todo, owed.1)
    {
      CatchUpRerunsTheRemembered(p, cutoff, limit, owed.1);
    }
  }

  lemma PostKeepsChatsOrdered(p: Process, source: int, m: ChatMessage, delivered: bool)
    requires ChatsOrdered(p.chats)
    ensures ChatsOrdered(DoPost(p, source, m, delivered).chats)
  {
  }

  lemma StepKeepsChatsOrdered(p: Process, a: Action)
    requires ChatsOrdered(p.chats)
    ensures ChatsOrdered(Step(p, a).chats)
  {
    if a.Post? {
      PostKeepsChatsOrdered(p, a.source, a.m, a.delivered);
    }
  }

  lemma SkippedOnlyByReads(p: Process, a: Action)
    requires p.skipped == {} && !a.PassRead?
    ensures Step(p, a).skipped == {}
  {
  }

  lemma {:induction false} SufficientRunSkipsNothing(p: Process, actions: seq<Action>)
    requires NotForgotten(p) && ChatsOrdered(p.chats) && p.skipped == {} && BoundsSuffice(p, actions)
    ensures Run(p, actions).skipped == {}
    decreases |actions|
  {
    if actions != [] {
      var a := actions[0];
      if a.PassRead? && p.work.Reading? {
        SufficientReadSkipsNothing(p, a.cutoff, a.limit);
      } else if !a.PassRead? {
        SkippedOnlyByReads(p, a);
      }
      StepForgetsNothing(p, a);
      StepKeepsChatsOrdered(p, a);
      SufficientRunSkipsNothing(Step(p, a), actions[1..]);
    }
  }

  /** The step runs the message through the pipeline out of a batch. */
  ghost predicate Reruns(p: Process, a: Action, source: int, id: int) {
    && a.PassRun? && p.work.Rerunning? && p.work.source == source && p.work.todo != [] && p.work.todo[0].id == id
  }

  /** Whether the last time the message was processed failed, after one more step. A pass at boot is given up at its
      first failure and counts for nothing. */
  ghost predicate FailedNow(p: Process, sofar: bool, a: Action, source: int, id: int) {
    if a == LiveFailed(source, id) && (source, id) in p.inFlight then true
    else if Reruns(p, a, source, id) then a.failed && (p.work.remembering || sofar)
    else sofar
  }

  ghost predicate FailedLast(p: Process, sofar: bool, actions: seq<Action>, source: int, id: int)
    decreases |actions|
  {
    if actions == [] then sofar
    else FailedLast(Step(p, actions[0]), FailedNow(p, sofar, actions[0], source, id), actions[1..], source, id)
  }

  lemma StepOwesWhatFailed(p: Process, a: Action, source: int, id: int)
    ensures (source, id) in Step(p, a).owed <==> FailedNow(p, (source, id) in p.owed, a, source, id)
  {
  }

  lemma {:induction false} OwedIsWhatFailedLast(p: Process, actions: seq<Action>, source: int, id: int)
    ensures (source, id) in Run(p, actions).owed <==> FailedLast(p, (source, id) in p.owed, actions, source, id)
    decreases |actions|
  {
    if actions != [] {
      StepOwesWhatFailed(p, actions[0], source, id);
      OwedIsWhatFailedLast(Step(p, actions[0]), actions[1..], source, id);
    }
  }

  /** A message whose processing failed the last time, live or in a catch-up, is at or above its source's floor, or
      in the pass that took the floor out; unless a read's bounds left it out. */
  lemma FailedMessagesAreNeverForgotten(chats: Chats, cursors: map<int, int>, actions: seq<Action>, source: int, id: int)
    requires ChatsOrdered(chats)
    ensures var p := Run(Boot(chats, cursors), actions);
            FailedLast(Boot(chats, cursors), false, actions, source, id) ==>
              Remembered(p.floors, source, id) || BeingReread(p.work, source, id) || (source, id) in p.skipped
    ensures BoundsSuffice(Boot(chats, cursors), actions) ==> (source, id) !in Run(Boot(chats, cursors), actions).skipped
  {
    var p := Boot(chats, cursors);
    RunForgetsNothing(p, actions);
    OwedIsWhatFailedLast(p, actions, source, id);
    if BoundsSuffice(p, actions) {
      SufficientRunSkipsNothing(p, actions);
    }
  }

  // ---------------------------------------------------------------------------------------------
  // Nothing too old is run again

  /** The age bound of the read whose batch is running: that of the last read that took place. */
  function BoundAfter(p: Process, bound: Option<int>, a: Action): Option<int> {
    if a.PassRead? && p.work.Reading? then a.cutoff
    else if a.BootRead? && !p.started && p.work.Free? && a.source in p.cursors then a.cutoff
    else bound
  }

  /** Every message a run passes to the notifying path out of a batch is as recent as the read's bound asks. */
  ghost predicate NotifiesOnlyRecent(p: Process, bound: Option<int>, actions: seq<Action>)
    decreases |actions|
  {
    actions != [] ==>
      && (actions[0].PassRun? && p.work.Rerunning? && p.work.todo != [] && bound.Some? ==> bound.value <= p.work.todo[0].date)
      && NotifiesOnlyRecent(Step(p, actions[0]), BoundAfter(p, bound, actions[0]), actions[1..])
  }

  ghost predicate BatchIsRecent(p: Process, bound: Option<int>) {
    p.work.Rerunning? && bound.Some? ==> forall m :: m in p.work.todo ==> bound.value <= m.date
  }

  lemma StepKeepsBatchRecent(p: Process, bound: Option<int>, a: Action)
    requires BatchIsRecent(p, bound)
    ensures BatchIsRecent(Step(p, a), BoundAfter(p, bound, a))
  {
    if a.PassRead? {
      if p.work.Reading? {
        var chat, cursor := MessagesOf(p.chats, p.work.source), CursorOf(p.cursors, p.work.source);
        CollectedAreNewAndRecent(Newest(chat, StartOf(cursor, p.work.floor), a.limit), cursor, p.work.floor, a.cutoff, a.limit, 0);
      }
    } else if a.BootRead? {
      var chat, cursor := MessagesOf(p.chats, a.source), CursorOf(p.cursors, a.source);
      CollectedAreNewAndRecent(Newest(chat, StartOf(cursor, None), a.limit), cursor, None, a.cutoff, a.limit, 0);
    } else if a.Post? {
      assert DoPost(p, a.source, a.m, a.delivered).work == p.work;
    }
  }

  lemma {:induction false} RunNotifiesOnlyRecent(p: Process, bound: Option<int>, actions: seq<Action>)
    requires BatchIsRecent(p, bound)
    ensures NotifiesOnlyRecent(p, bound, actions)
    decreases |actions|
  {
    if actions != [] {
      StepKeepsBatchRecent(p, bound, actions[0]);
      RunNotifiesOnlyRecent(Step(p, actions[0]), BoundAfter(p, bound, actions[0]), actions[1..]);
    }
  }

  /** So over any run from boot no catch-up alerts a message older than its own age bound. */
  lemma CatchUpsNeverAlertTooOld(chats: Chats, cursors: map<int, int>, actions: seq<Action>)
    ensures NotifiesOnlyRecent(Boot(chats, cursors), None, actions)
  {
    RunNotifiesOnlyRecent(Boot(chats, cursors), None, actions);
  }

  // ---------------------------------------------------------------------------------------------
  // No retroactive alert

  /** Nothing this process holds about the source reaches back to `h` or below. */
  ghost predicate Clean(p: Process, source: int, h: int) {
    && h <= CursorOf(p.cursors, source) && h <= Head(MessagesOf(p.chats, source))
    && (source in p.floors ==> p.floors[source] > h)
    && (forall id :: (source, id) in p.inFlight ==> id > h)
    && (p.work.Reading? && p.work.source == source && p.work.floor.Some? ==> p.work.floor.value > h)
    && (p.work.Rerunning? && p.work.source == source ==>
          forall i :: 0 <= i < |p.work.todo| ==> p.work.todo[i].id > h)
  }

  ghost predicate AllAbove(notified: seq<(int, int)>, from: nat, source: int, h: int) {
    forall i :: from <= i < |notified| && notified[i].0 == source ==> notified[i].1 > h
  }

  lemma BackfillStaysAbove(chat: seq<ChatMessage>, cursor: int, floor: Option<int>, cutoff: Option<int>, limit: nat, h: int)
    requires Increasing(chat) && h <= cursor && (floor.Some? ==> floor.value > h)
    ensures forall m :: m in Backfill(chat, cursor, floor, cutoff, limit) ==> m.id > h
  {
    forall m | m in Backfill(chat, cursor, floor, cutoff, limit) ensures m.id > h {
      BackfillReturnsTheCovered(chat, cursor, floor, cutoff, limit, m);
    }
  }

  lemma ReadStaysClean(p: Process, a: Action, source: int, h: int)
    requires Clean(p, source, h) && ChatsOrdered(p.chats) && (a.PassRead? || a.BootRead?)
    ensures Clean(Step(p, a), source, h)
  {
    CursorsNeverGoBack(p, a);
    var chat, cursor := MessagesOf(p.chats, source), CursorOf(p.cursors, source);
    if a.PassRead? && p.work.Reading? && p.work.source == source {
      BackfillStaysAbove(chat, cursor, p.work.floor, a.cutoff, a.limit, h);
    } else if a.BootRead? && a.source == source {
      BackfillStaysAbove(chat, cursor, None, a.cutoff, a.limit, h);
    }
  }

  lemma PostStaysClean(p: Process, source: int, m: ChatMessage, delivered: bool, other: int, h: int)
    requires Clean(p, other, h)
    ensures Clean(DoPost(p, source, m, delivered), other, h)
  {
  }

  lemma LiveStaysClean(p: Process, a: Action, source: int, h: int)
    requires Clean(p, source, h) && (a.LiveWrite? || a.LiveFailed? || a.LiveDone?)
    ensures Clean(Step(p, a), source, h)
  {
    CursorsNeverGoBack(p, a);
  }

  lemma PassRunStaysClean(p: Process, failed: bool, source: int, h: int)
    requires Clean(p, source, h)
    ensures Clean(DoPassRun(p, failed), source, h)
  {
  }

  lemma PassAbortedStaysClean(p: Process, source: int, h: int)
    requires Clean(p, source, h)
    ensures Clean(DoPassAborted(p), source, h)
  {
  }

  lemma OtherStepStaysClean(p: Process, a: Action, source: int, h: int)
    requires Clean(p, source, h) && !a.PassRead? && !a.BootRead? && !a.Post? && !a.LiveWrite? && !a.LiveFailed?
    requires !a.LiveDone? && !a.PassRun? && !a.PassAborted?
    ensures Clean(Step(p, a), source, h)
  {
    CursorsNeverGoBack(p, a);
  }

  lemma StepStaysClean(p: Process, a: Action, source: int, h: int)
    requires Clean(p, source, h) && ChatsOrdered(p.chats)
    ensures Clean(Step(p, a), source, h)
  {
    if a.PassRead? || a.BootRead? {
      ReadStaysClean(p, a, source, h);
    } else if a.Post? {
      PostStaysClean(p, a.source, a.m, a.delivered, source, h);
    } else if a.LiveWrite? || a.LiveFailed? || a.LiveDone? {
      LiveStaysClean(p, a, source, h);
    } else if a.PassRun? {
      PassRunStaysClean(p, a.failed, source, h);
    } else if a.PassAborted? {
      PassAbortedStaysClean(p, source, h);
    } else {
      OtherStepStaysClean(p, a, source, h);
    }
  }

  lemma StepNotifiesAbove(p: Process, a: Action, source: int, h: int)
    requires Clean(p, source, h)
    ensures p.notified <= Step(p, a).notified && AllAbove(Step(p, a).notified, |p.notified|, source, h)
  {
  }

  lemma {:induction false} CleanRunNotifiesAbove(p: Process, actions: seq<Action>, source: int, h: int)
    requires Clean(p, source, h) && ChatsOrdered(p.chats)
    ensures p.notified <= Run(p, actions).notified && AllAbove(Run(p, actions).notified, |p.notified|, source, h)
    decreases |actions|
  {
    if actions != [] {
      var a := actions[0];
      StepStaysClean(p, a, source, h);
      StepNotifiesAbove(p, a, source, h);
      StepKeepsChatsOrdered(p, a);
      CleanRunNotifiesAbove(Step(p, a), actions[1..], source, h);
    }
  }

  /** The heads a swap or a boot recorded are behind the cursors it left. */
  ghost predicate HeadsBehind(heads: map<int, int>, cursors: map<int, int>, chats: Chats) {
    forall s :: s in heads ==> heads[s] <= CursorOf(cursors, s) && heads[s] <= Head(MessagesOf(chats, s))
  }

  lemma HeadsStayBehind(heads: map<int, int>, p: Process, a: Action)
    requires HeadsBehind(heads, p.cursors, p.chats) && Natural(Step(p, a).cursors)
    ensures HeadsBehind(heads, Step(p, a).cursors, Step(p, a).chats)
  {
    CursorsNeverGoBack(p, a);
    HeadsOnlyGrow(p, a);
  }

  lemma HeadsOnlyGrow(p: Process, a: Action)
    ensures forall s :: Head(MessagesOf(Step(p, a).chats, s)) >= Head(MessagesOf(p.chats, s))
  {
  }

  lemma HeadIsNatural(chat: seq<ChatMessage>)
    requires Increasing(chat)
    ensures Head(chat) >= 0 && (chat != [] ==> Head(chat) > 0)
  {
  }

  lemma ChatIdsArePositive(chat: seq<ChatMessage>, id: int)
    requires Increasing(chat) && InBatch(chat, id)
    ensures id > 0
  {
  }

  ghost predicate Natural(cursors: map<int, int>) {
    forall s :: s in cursors ==> cursors[s] >= 0
  }

  lemma AdvanceOverStaysNatural(cursors: map<int, int>, source: int, batch: seq<ChatMessage>)
    requires Natural(cursors) && forall m :: m in batch ==> m.id > 0
    ensures Natural(AdvanceOver(cursors, source, batch))
  {
    if batch != [] {
      MaxIdIsMax(batch);
    }
  }

  lemma BackfillComesFromTheChat(
      chat: seq<ChatMessage>, cursor: int, floor: Option<int>, cutoff: Option<int>, limit: nat)
    requires Increasing(chat)
    ensures forall m :: m in Backfill(chat, cursor, floor, cutoff, limit) ==> InBatch(chat, m.id) && m.id > 0
  {
    forall m | m in Backfill(chat, cursor, floor, cutoff, limit) ensures InBatch(chat, m.id) && m.id > 0 {
      BackfillReturnsTheCovered(chat, cursor, floor, cutoff, limit, m);
    }
  }

  /** Right after a source's cursor was initialised. */
  lemma InitialisedIsAtTheHead(p: Process, source: int)
    requires Natural(p.cursors) && ChatsOrdered(p.chats)
    ensures Head(MessagesOf(p.chats, source)) <= CursorOf(Initialised(p, source), source)
    ensures NeverBack(p.cursors, Initialised(p, source)) && Natural(Initialised(p, source))
  {
    HeadIsNatural(MessagesOf(p.chats, source));
  }

  lemma ReadStaysNatural(p: Process, source: int, floor: Option<int>, cutoff: Option<int>, limit: nat)
    requires Natural(p.cursors) && ChatsOrdered(p.chats)
    ensures var batch := Backfill(MessagesOf(p.chats, source), CursorOf(p.cursors, source), floor, cutoff, limit);
            Natural(AdvanceOver(p.cursors, source, batch))
  {
    var batch := Backfill(MessagesOf(p.chats, source), CursorOf(p.cursors, source), floor, cutoff, limit);
    BackfillComesFromTheChat(MessagesOf(p.chats, source), CursorOf(p.cursors, source), floor, cutoff, limit);
    AdvanceOverStaysNatural(p.cursors, source, batch);
  }

  lemma CursorsStayNatural(p: Process, a: Action)
    requires Natural(p.cursors) && ChatsOrdered(p.chats) && InChats(p)
    ensures Natural(Step(p, a).cursors)
  {
    if a.PassRead? {
      if p.work.Reading? {
        ReadStaysNatural(p, p.work.source, p.work.floor, a.cutoff, a.limit);
      }
    } else if a.BootRead? {
      ReadStaysNatural(p, a.source, None, a.cutoff, a.limit);
    } else if a.BootInit? {
      InitialisedIsAtTheHead(p, a.source);
    } else if a.ApplyInit? {
      InitialisedIsAtTheHead(p, a.source);
    } else if a.LiveWrite? {
      if (a.source, a.id) in p.inFlight {
        ChatIdsArePositive(MessagesOf(p.chats, a.source), a.id);
      }
    }
  }

  /** Every id the process holds is of a message of its chat. */
  ghost predicate InChats(p: Process) {
    && (forall s :: s in p.floors ==> InBatch(MessagesOf(p.chats, s), p.floors[s]))
    && (forall pair :: pair in p.inFlight ==> InBatch(MessagesOf(p.chats, pair.0), pair.1))
    && (p.work.Reading? && p.work.floor.Some? ==> InBatch(MessagesOf(p.chats, p.work.source), p.work.floor.value))
    && (p.work.Rerunning? ==> forall m :: m in p.work.todo ==> InBatch(MessagesOf(p.chats, p.work.source), m.id))
  }

  lemma LongerChat(chat: seq<ChatMessage>, m: ChatMessage)
    ensures forall id :: InBatch(chat, id) ==> InBatch(chat + [m], id)
    ensures InBatch(chat + [m], m.id)
  {
    assert (chat + [m])[|chat|] == m;
    forall id | InBatch(chat, id) ensures InBatch(chat + [m], id) {
      var i :| 0 <= i < |chat| && chat[i].id == id;
      assert (chat + [m])[i].id == id;
    }
  }

  lemma PostStaysInChats(p: Process, source: int, m: ChatMessage, delivered: bool)
    requires InChats(p)
    ensures InChats(DoPost(p, source, m, delivered))
  {
    LongerChat(MessagesOf(p.chats, source), m);
  }

  lemma ReadStaysInChats(p: Process, a: Action)
    requires InChats(p) && ChatsOrdered(p.chats) && (a.PassRead? || a.BootRead?)
    ensures InChats(Step(p, a))
  {
    if a.BootRead? {
      BackfillComesFromTheChat(MessagesOf(p.chats, a.source), CursorOf(p.cursors, a.source), None, a.cutoff, a.limit);
    } else if p.work.Reading? {
      BackfillComesFromTheChat(MessagesOf(p.chats, p.work.source), CursorOf(p.cursors, p.work.source), p.work.floor,
                               a.cutoff, a.limit);
    }
  }

  lemma StepStaysInChats(p: Process, a: Action)
    requires InChats(p) && ChatsOrdered(p.chats)
    ensures InChats(Step(p, a))
  {
    if a.Post? {
      PostStaysInChats(p, a.source, a.m, a.delivered);
    } else if a.PassRead? || a.BootRead? {
      ReadStaysInChats(p, a);
    } else if a.PassRun? {
      PassRunStaysInChats(p, a.failed);
    } else {
      assert Step(p, a).chats == p.chats;
    }
  }

  lemma PassRunStaysInChats(p: Process, failed: bool)
    requires InChats(p)
    ensures InChats(DoPassRun(p, failed))
  {
    if p.work.Rerunning? && p.work.todo != [] {
      assert p.work.todo[0] in p.work.todo;
    }
  }

  /** Facts of every state a started process reaches. */
  ghost predicate Reachable(p: Process) {
    && ChatsOrdered(p.chats) && Natural(p.cursors) && InChats(p) && NotForgotten(p)
    && HeadsBehind(p.bootHeads, p.cursors, p.chats)
    && (p.work.Applying? ==> HeadsBehind(p.work.heads, p.cursors, p.chats))
  }

  lemma StepKeepsHeads(p: Process, a: Action)
    requires Reachable(p)
    ensures var q := Step(p, a);
            && HeadsBehind(q.bootHeads, q.cursors, q.chats)
            && (q.work.Applying? ==> HeadsBehind(q.work.heads, q.cursors, q.chats))
  {
    CursorsStayNatural(p, a);
    HeadsStayBehind(p.bootHeads, p, a);
    if p.work.Applying? {
      HeadsStayBehind(p.work.heads, p, a);
    }
    if a.BootInit? {
      InitialisedIsAtTheHead(p, a.source);
    } else if a.ApplyInit? {
      InitialisedIsAtTheHead(p, a.source);
    }
  }

  lemma {:induction false} RunStaysReachable(p: Process, actions: seq<Action>)
    requires Reachable(p)
    ensures Reachable(Run(p, actions))
    decreases |actions|
  {
    if actions != [] {
      StepKeepsChatsOrdered(p, actions[0]);
      CursorsStayNatural(p, actions[0]);
      StepStaysInChats(p, actions[0]);
      StepForgetsNothing(p, actions[0]);
      StepKeepsHeads(p, actions[0]);
      RunStaysReachable(Step(p, actions[0]), actions[1..]);
    }
  }

  /** Nothing the process holds about the source is of a message at `h` or below. */
  ghost predicate NoLeftover(p: Process, source: int, h: int) {
    && (source in p.floors ==> p.floors[source] > h)
    && (forall pair :: pair in p.inFlight && pair.0 == source ==> pair.1 > h)
  }

  /** Whatever happens next, no message at `h` or below reaches the notifying path. */
  ghost predicate NeverRetroactive(p: Process, source: int, h: int) {
    forall after :: AllAbove(Run(p, after).notified, |p.notified|, source, h)
  }

  lemma CleanIsNeverRetroactive(p: Process, source: int, h: int)
    requires Clean(p, source, h) && ChatsOrdered(p.chats)
    ensures NeverRetroactive(p, source, h)
  {
    forall after ensures AllAbove(Run(p, after).notified, |p.notified|, source, h) {
      CleanRunNotifiesAbove(p, after, source, h);
    }
  }

  /** Until the boot is over, a source has a cursor only from before or from its initialisation. */
  ghost predicate BootCursors(p: Process, cursors: map<int, int>) {
    !p.started ==> forall s :: s in p.cursors ==> s in cursors || s in p.bootHeads
  }

  lemma StepKeepsBootCursors(p: Process, a: Action, cursors: map<int, int>)
    requires NotForgotten(p) && BootCursors(p, cursors)
    ensures BootCursors(Step(p, a), cursors)
  {
  }

  lemma {:induction false} RunKeepsBootCursors(p: Process, actions: seq<Action>, cursors: map<int, int>)
    requires NotForgotten(p) && BootCursors(p, cursors)
    ensures BootCursors(Run(p, actions), cursors)
    decreases |actions|
  {
    if actions != [] {
      StepForgetsNothing(p, actions[0]);
      StepKeepsBootCursors(p, actions[0], cursors);
      RunKeepsBootCursors(Step(p, actions[0]), actions[1..], cursors);
    }
  }

  /** No head is below a message that was there at `old`. */
  ghost predicate HeadsCover(heads: map<int, int>, posted: Chats) {
    forall s, m :: s in heads && m in MessagesOf(posted, s) ==> m.id <= heads[s]
  }

  ghost predicate OnlyGrew(posted: Chats, chats: Chats) {
    forall s, m :: m in MessagesOf(posted, s) ==> m in MessagesOf(chats, s)
  }

  lemma HeadIsTheNewest(chat: seq<ChatMessage>)
    requires Increasing(chat)
    ensures forall m :: m in chat ==> m.id <= Head(chat)
    ensures chat != [] ==> exists m :: m in chat && m.id == Head(chat)
  {
    if chat != [] {
      assert chat[|chat| - 1] in chat;
    }
  }

  lemma StepOnlyGrows(p: Process, a: Action, posted: Chats)
    requires OnlyGrew(posted, p.chats)
    ensures OnlyGrew(posted, Step(p, a).chats)
  {
    if a.Post? {
      forall s, m | m in MessagesOf(p.chats, s) ensures m in MessagesOf(DoPost(p, a.source, a.m, a.delivered).chats, s) {
      }
    } else {
      assert Step(p, a).chats == p.chats;
    }
  }

  lemma OneMoreHeadCovers(heads: map<int, int>, p: Process, source: int, posted: Chats)
    requires ChatsOrdered(p.chats) && OnlyGrew(posted, p.chats) && HeadsCover(heads, posted)
    ensures HeadsCover(heads[source := Head(MessagesOf(p.chats, source))], posted)
  {
    HeadIsTheNewest(MessagesOf(p.chats, source));
  }

  lemma OtherStepsKeepBootHeads(p: Process, a: Action)
    requires !a.BootInit?
    ensures Step(p, a).bootHeads == p.bootHeads
  {
  }

  lemma OtherStepsKeepSwapHeads(p: Process, a: Action)
    requires !a.ApplyInit? && Step(p, a).work.Applying?
    ensures Step(p, a).work.heads == map[] || (p.work.Applying? && Step(p, a).work.heads == p.work.heads)
  {
  }

  lemma StepKeepsBootHeadsCovering(p: Process, a: Action, posted: Chats)
    requires ChatsOrdered(p.chats) && OnlyGrew(posted, p.chats) && HeadsCover(p.bootHeads, posted)
    ensures HeadsCover(Step(p, a).bootHeads, posted)
  {
    if a.BootInit? {
      OneMoreHeadCovers(p.bootHeads, p, a.source, posted);
    } else {
      OtherStepsKeepBootHeads(p, a);
    }
  }

  lemma StepKeepsSwapHeadsCovering(p: Process, a: Action, posted: Chats)
    requires ChatsOrdered(p.chats) && OnlyGrew(posted, p.chats) && (p.work.Applying? ==> HeadsCover(p.work.heads, posted))
    ensures Step(p, a).work.Applying? ==> HeadsCover(Step(p, a).work.heads, posted)
  {
    if Step(p, a).work.Applying? {
      if a.ApplyInit? {
        OneMoreHeadCovers(p.work.heads, p, a.source, posted);
      } else {
        OtherStepsKeepSwapHeads(p, a);
      }
    }
  }

  lemma {:induction false} RunKeepsHeadsCovering(p: Process, actions: seq<Action>, posted: Chats)
    requires ChatsOrdered(p.chats) && OnlyGrew(posted, p.chats)
    ensures HeadsCover(p.bootHeads, posted) ==> HeadsCover(Run(p, actions).bootHeads, posted)
    ensures (p.work.Applying? ==> HeadsCover(p.work.heads, posted)) ==>
      (Run(p, actions).work.Applying? ==> HeadsCover(Run(p, actions).work.heads, posted))
    decreases |actions|
  {
    if actions != [] {
      StepOnlyGrows(p, actions[0], posted);
      if HeadsCover(p.bootHeads, posted) {
        StepKeepsBootHeadsCovering(p, actions[0], posted);
      }
      if p.work.Applying? ==> HeadsCover(p.work.heads, posted) {
        StepKeepsSwapHeadsCovering(p, actions[0], posted);
      }
      StepKeepsChatsOrdered(p, actions[0]);
      RunKeepsHeadsCovering(Step(p, actions[0]), actions[1..], posted);
    }
  }

  lemma {:induction false} RunKeepsChatsOrdered(p: Process, actions: seq<Action>)
    requires ChatsOrdered(p.chats)
    ensures ChatsOrdered(Run(p, actions).chats)
    decreases |actions|
  {
    if actions != [] {
      StepKeepsChatsOrdered(p, actions[0]);
      RunKeepsChatsOrdered(Step(p, actions[0]), actions[1..]);
    }
  }

  /** Any source a boot registers that had no cursor before it: its head was read, no message of the chat the boot
      found is above that head, and nothing at or below it is ever alerted. */
  lemma BootNeverAlertsRetroactively(
      chats: Chats, cursors: map<int, int>, before: seq<Action>, sources: set<int>, source: int)
    requires ChatsOrdered(chats) && Natural(cursors) && source in sources && source !in cursors
    requires CanRegister(Run(Boot(chats, cursors), before), sources)
    ensures var p := Run(Boot(chats, cursors), before);
            && source in p.bootHeads && NeverRetroactive(Step(p, Register(sources)), source, p.bootHeads[source])
            && forall m :: m in MessagesOf(chats, source) ==> m.id <= p.bootHeads[source]
  {
    RunStaysReachable(Boot(chats, cursors), before);
    RunKeepsBootCursors(Boot(chats, cursors), before, cursors);
    RunKeepsHeadsCovering(Boot(chats, cursors), before, chats);
    var p := Run(Boot(chats, cursors), before);
    CleanIsNeverRetroactive(Step(p, Register(sources)), source, p.bootHeads[source]);
  }

  /** The whole batch of a pass, nothing failing. */
  function RunAll(n: nat): seq<Action> {
    if n == 0 then [] else [PassRun(false)] + RunAll(n - 1)
  }

  lemma {:induction false} RunAllNotifiesTheBatch(p: Process, id: int)
    requires p.work.Rerunning? && InBatch(p.work.todo, id)
    ensures var notified := Run(p, RunAll(|p.work.todo|)).notified;
            && p.notified <= notified
            && exists i :: |p.notified| <= i < |notified| && notified[i] == (p.work.source, id)
    decreases |p.work.todo|
  {
    var q := Step(p, PassRun(false));
    var notified := Run(p, RunAll(|p.work.todo|)).notified;
    RunOnlyAddsNotified(q, RunAll(|q.work.todo|));
    if p.work.todo[0].id == id {
      assert notified[|p.notified|] == (p.work.source, id);
    } else {
      RestOfBatch(p.work.todo, id);
      RunAllNotifiesTheBatch(q, id);
      var i :| |q.notified| <= i < |notified| && notified[i] == (p.work.source, id);
    }
  }

  lemma StepOnlyAddsNotified(p: Process, a: Action)
    ensures p.notified <= Step(p, a).notified
  {
    if a.Post? {
      assert p.notified <= DoPost(p, a.source, a.m, a.delivered).notified;
    } else if a.PassRun? {
      assert p.notified <= DoPassRun(p, a.failed).notified;
    } else {
      assert Step(p, a).notified == p.notified;
    }
  }

  lemma {:induction false} RunOnlyAddsNotified(p: Process, actions: seq<Action>)
    ensures p.notified <= Run(p, actions).notified
    decreases |actions|
  {
    if actions != [] {
      StepOnlyAddsNotified(p, actions[0]);
      RunOnlyAddsNotified(Step(p, actions[0]), actions[1..]);
    }
  }

  lemma ReadWithinBoundsHasIt(p: Process, id: int, cutoff: Option<int>, limit: nat)
    requires ChatsOrdered(p.chats) && p.work.Reading? && p.work.floor == Some(id)
    requires WithinBounds(MessagesOf(p.chats, p.work.source), id, cutoff, limit)
    ensures var q := Step(p, PassRead(cutoff, limit));
            q.work.Rerunning? && q.work.source == p.work.source && InBatch(q.work.todo, id) && q.notified == p.notified
  {
    CatchUpRerunsTheRemembered(p, cutoff, limit, id);
  }

  /** The next catch-up of a source with a floor, under the two bounds given. */
  function NextCatchUp(p: Process, source: int, cutoff: Option<int>, limit: nat): seq<Action> {
    var floor := if source in p.floors then Some(p.floors[source]) else None;
    var batch := Backfill(MessagesOf(p.chats, source), CursorOf(p.cursors, source), floor, cutoff, limit);
    [PassBegin(source), PassRead(cutoff, limit)] + RunAll(|batch|)
  }

  /** A floor left behind at `h` or below makes the next catch-up read from there: under any bounds that
      reach the message, it goes through the notifying path. */
  lemma LeftoverFloorIsReadAgain(p: Process, source: int, h: int, cutoff: Option<int>, limit: nat)
    requires Reachable(p) && p.started && p.work.Free? && source in p.live
    requires source in p.floors && p.floors[source] <= h
    requires WithinBounds(MessagesOf(p.chats, source), p.floors[source], cutoff, limit)
    ensures !AllAbove(Run(p, NextCatchUp(p, source, cutoff, limit)).notified, |p.notified|, source, h)
  {
    var f := p.floors[source];
    var begin := Step(p, PassBegin(source));
    assert begin.work == Reading(source, Some(f));
    var read := PassRead(cutoff, limit);
    ReadWithinBoundsHasIt(begin, f, cutoff, limit);
    var q := Step(begin, read);
    RunAllNotifiesTheBatch(q, f);
    var rest := RunAll(|q.work.todo|);
    RunFromStep(p, PassBegin(source), [read] + rest);
    RunFromStep(begin, read, rest);
    assert NextCatchUp(p, source, cutoff, limit) == [PassBegin(source)] + ([read] + rest);
  }

  lemma LeftoverFloorIsRetroactive(p: Process, source: int, h: int)
    requires Reachable(p) && p.started && p.work.Free? && source in p.live
    requires source in p.floors && p.floors[source] <= h
    ensures !NeverRetroactive(p, source, h)
  {
    var chat := MessagesOf(p.chats, source);
    assert WithinBounds(chat, p.floors[source], None, |chat|);
    LeftoverFloorIsReadAgain(p, source, h, None, |chat|);
  }

  lemma LeftoverInFlightIsRetroactive(p: Process, source: int, id: int, h: int)
    requires Reachable(p) && p.started && p.work.Free? && source in p.live
    requires (source, id) in p.inFlight && id <= h
    ensures !NeverRetroactive(p, source, h)
  {
    var q := Step(p, LiveFailed(source, id));
    RunStaysReachable(p, [LiveFailed(source, id)]);
    assert Run(p, [LiveFailed(source, id)]) == q by {
      assert [LiveFailed(source, id)][1..] == [];
    }
    LeftoverFloorIsRetroactive(q, source, h);
    var after :| !AllAbove(Run(q, after).notified, |q.notified|, source, h);
    assert ([LiveFailed(source, id)] + after)[1..] == after;
    assert Run(p, [LiveFailed(source, id)] + after) == Run(q, after);
  }

  /** A source a swap makes live can be alerted at or below its head of that moment exactly when the
      process still holds a failed or unfinished message of it from before: removing a source does not
      drop what was remembered of it. */
  lemma SwapIsRetroactiveIffSomethingIsLeftOver(
      chats: Chats, cursors: map<int, int>, before: seq<Action>, sources: set<int>, source: int)
    requires ChatsOrdered(chats) && Natural(cursors)
    requires var p := Run(Boot(chats, cursors), before); CanSwap(p, sources) && source in sources && source !in p.live
    ensures var p := Run(Boot(chats, cursors), before);
            var h := p.work.heads[source];
            NeverRetroactive(Step(p, Swap(sources)), source, h) <==> NoLeftover(p, source, h)
  {
    RunStaysReachable(Boot(chats, cursors), before);
    var p := Run(Boot(chats, cursors), before);
    var h := p.work.heads[source];
    var q := Step(p, Swap(sources));
    if NoLeftover(p, source, h) {
      CleanIsNeverRetroactive(q, source, h);
    } else if source in p.floors && p.floors[source] <= h {
      LeftoverFloorIsRetroactive(q, source, h);
    } else {
      var pair :| pair in p.inFlight && pair.0 == source && pair.1 <= h;
      LeftoverInFlightIsRetroactive(q, source, pair.1, h);
    }
  }

  /** On the messages themselves: a swap with nothing left over never alerts a message that was posted before the swap
      began to read the heads. */
  lemma SwapNeverAlertsWhatWasThere(
      chats: Chats, cursors: map<int, int>, earlier: seq<Action>, since: seq<Action>, sources: set<int>, source: int,
      m: ChatMessage)
    requires ChatsOrdered(chats) && Natural(cursors) && !Run(Boot(chats, cursors), earlier).work.Applying?
    requires m in MessagesOf(Run(Boot(chats, cursors), earlier).chats, source)
    requires var p := Run(Boot(chats, cursors), earlier + since);
             CanSwap(p, sources) && source in sources && source !in p.live && NoLeftover(p, source, p.work.heads[source])
    ensures NeverRetroactive(Step(Run(Boot(chats, cursors), earlier + since), Swap(sources)), source, m.id)
  {
    var q, p := Run(Boot(chats, cursors), earlier), Run(Boot(chats, cursors), earlier + since);
    RunInTwo(Boot(chats, cursors), earlier, since);
    RunKeepsChatsOrdered(Boot(chats, cursors), earlier);
    RunKeepsHeadsCovering(q, since, q.chats);
    SwapIsRetroactiveIffSomethingIsLeftOver(chats, cursors, earlier + since, sources, source);
    var h, s := p.work.heads[source], Step(p, Swap(sources));
    forall after ensures AllAbove(Run(s, after).notified, |s.notified|, source, m.id) {
      assert AllAbove(Run(s, after).notified, |s.notified|, source, h);
    }
  }

  // ---------------------------------------------------------------------------------------------
  // A run with something left over

  lemma RunFromStep(p: Process, a: Action, rest: seq<Action>)
    ensures Run(p, [a] + rest) == Run(Step(p, a), rest)
  {
    assert ([a] + rest)[1..] == rest;
  }

  lemma {:induction false} RunInTwo(p: Process, first: seq<Action>, second: seq<Action>)
    ensures Run(p, first + second) == Run(Run(p, first), second)
    decreases |first|
  {
    if first == [] {
      assert [] + second == second;
    } else {
      assert (first + second)[1..] == first[1..] + second;
      RunInTwo(Step(p, first[0]), first[1..], second);
    }
  }

  /** A source is initialised at boot and listened to; one message of it fails. */
  function FailedMessage(source: int, m: ChatMessage): seq<Action> {
    [BootInit(source)] + ([Register({source})] + ([Post(source, m, true)] + ([LiveFailed(source, m.id)] + ([LiveDone(source, m.id)] + []))))
  }

  /** A swap takes the source out, and the next one is about to add it again. */
  function RemovedAndAdded(source: int): seq<Action> {
    [ApplyBegin] + ([Swap({})] + ([ApplyBegin] + ([ApplyInit(source)] + [])))
  }

  /** The failed message is remembered. */
  function AfterFailure(source: int, m: ChatMessage, live: set<int>, work: Work, cursors: map<int, int>): Process {
    Process(map[source := [m]], cursors, true, live, map[source := m.id], {}, work, map[source := 0], {(source, m.id)}, {},
            [(source, m.id)])
  }

  lemma FailedMessageIsRemembered(source: int, m: ChatMessage)
    requires m.id > 0
    ensures Run(Boot(map[], map[]), FailedMessage(source, m)) == AfterFailure(source, m, {source}, Free, map[])
  {
    var p0 := Boot(map[], map[]);
    var p1 := p0.(bootHeads := map[source := 0]);
    var p2 := p1.(started := true, live := {source});
    var p3 := p2.(chats := map[source := [m]], inFlight := {(source, m.id)}, notified := [(source, m.id)]);
    var p4 := p3.(floors := map[source := m.id], owed := {(source, m.id)});
    assert Step(p0, BootInit(source)) == p1;
    assert Step(p1, Register({source})) == p2;
    assert MessagesOf(p2.chats, source) + [m] == [m] && p2.notified + [(source, m.id)] == [(source, m.id)];
    assert p2.chats[source := [m]] == map[source := [m]] && p2.inFlight + {(source, m.id)} == {(source, m.id)};
    assert Step(p2, Post(source, m, true)) == p3;
    assert Step(p3, LiveFailed(source, m.id)) == p4;
    RunFromStep(p0, BootInit(source), [Register({source})] + ([Post(source, m, true)] + ([LiveFailed(source, m.id)] + ([LiveDone(source, m.id)] + []))));
    RunFromStep(p1, Register({source}), [Post(source, m, true)] + ([LiveFailed(source, m.id)] + ([LiveDone(source, m.id)] + [])));
    RunFromStep(p2, Post(source, m, true), [LiveFailed(source, m.id)] + ([LiveDone(source, m.id)] + []));
    RunFromStep(p3, LiveFailed(source, m.id), [LiveDone(source, m.id)] + []);
    RunFromStep(p4, LiveDone(source, m.id), []);
  }

  lemma RemovedSourceKeepsItsFloor(source: int, m: ChatMessage)
    requires m.id > 0
    ensures Run(AfterFailure(source, m, {source}, Free, map[]), RemovedAndAdded(source))
            == AfterFailure(source, m, {}, Applying(map[source := m.id]), map[source := m.id])
  {
    var q0 := AfterFailure(source, m, {source}, Free, map[]);
    var q1 := q0.(work := Applying(map[]));
    var q2 := q0.(live := {}, work := Free);
    var q3 := q2.(work := Applying(map[]));
    assert Step(q0, ApplyBegin) == q1;
    assert CanSwap(q1, {}) by {
      assert {} - q1.live == {};
    }
    assert Step(q1, Swap({})) == q2;
    assert Step(q2, ApplyBegin) == q3;
    RunFromStep(q0, ApplyBegin, [Swap({})] + ([ApplyBegin] + ([ApplyInit(source)] + [])));
    RunFromStep(q1, Swap({}), [ApplyBegin] + ([ApplyInit(source)] + []));
    RunFromStep(q2, ApplyBegin, [ApplyInit(source)] + []);
    RunFromStep(q3, ApplyInit(source), []);
    assert Initialised(q3, source) == map[source := m.id];
  }

  /** The failing half does arise: a source is removed while a failed message of it is remembered, and added
      again at a later head. The swap is allowed, the message is left over, and the next catch-up alerts it:
      with the program's own bounds too, if they reach the one message of the chat. */
  lemma RemovedSourceIsAlertedAgain(source: int, m: ChatMessage, cutoff: Option<int>, limit: nat)
    requires m.id > 0 && limit >= 1 && (cutoff.Some? ==> m.date >= cutoff.value)
    ensures var p := Run(Boot(map[], map[]), FailedMessage(source, m) + RemovedAndAdded(source));
            && CanSwap(p, {source}) && source !in p.live && p.work.heads[source] == m.id && !NoLeftover(p, source, m.id)
            && var q := Step(p, Swap({source}));
               !AllAbove(Run(q, NextCatchUp(q, source, cutoff, limit)).notified, |q.notified|, source, m.id)
  {
    RunInTwo(Boot(map[], map[]), FailedMessage(source, m), RemovedAndAdded(source));
    FailedMessageIsRemembered(source, m);
    RemovedSourceKeepsItsFloor(source, m);
    RunStaysReachable(Boot(map[], map[]), FailedMessage(source, m) + RemovedAndAdded(source));
    var p := Run(Boot(map[], map[]), FailedMessage(source, m) + RemovedAndAdded(source));
    var q := Step(p, Swap({source}));
    assert q.floors == map[source := m.id] && q.chats == map[source := [m]];
    assert WithinBounds([m], m.id, cutoff, limit) by {
      assert [m][0].id == m.id;
    }
    LeftoverFloorIsReadAgain(q, source, m.id, cutoff, limit);
  }

  // ---------------------------------------------------------------------------------------------
  // The methods of the lifecycle

  lemma RunAppend(p: Process, actions: seq<Action>, a: Action)
    ensures Run(p, actions + [a]) == Step(Run(p, actions), a)
  {
    RunInTwo(p, actions, [a]);
    assert [a] == [a] + [];
    RunFromStep(Run(p, actions), a, []);
  }

  /** The floors after the messages of `batch` named in `failing` failed, in order. */
  function RememberAll(floors: map<int, int>, source: int, batch: seq<ChatMessage>, failing: set<int>): map<int, int>
    decreases |batch|
  {
    if batch == [] then floors
    else
      var rest := if batch[0].id in failing then Remember(floors, source, batch[0].id) else floors;
      RememberAll(rest, source, batch[1..], failing)
  }

  /** A floor is the least of the old one and the ids that failed. */
  lemma {:induction false} RememberAllKeepsTheLeast(floors: map<int, int>, source: int, batch: seq<ChatMessage>, failing: set<int>)
    ensures var floors' := RememberAll(floors, source, batch, failing);
            && floors' == (if source in floors' then floors[source := floors'[source]] else floors)
            && (source in floors ==> Remembered(floors', source, floors[source]))
            && (forall m :: m in batch && m.id in failing ==> Remembered(floors', source, m.id))
            && (source in floors' ==>
                  || (source in floors && floors'[source] == floors[source])
                  || (floors'[source] in failing && InBatch(batch, floors'[source])))
    decreases |batch|
  {
    if batch != [] {
      var rest := if batch[0].id in failing then Remember(floors, source, batch[0].id) else floors;
      RememberAllKeepsTheLeast(rest, source, batch[1..], failing);
      var floors' := RememberAll(floors, source, batch, failing);
      assert forall m :: m in batch <==> m == batch[0] || m in batch[1..];
      if source in floors' && InBatch(batch[1..], floors'[source]) {
        var i :| 0 <= i < |batch[1..]| && batch[1..][i].id == floors'[source];
        assert batch[i + 1].id == floors'[source];
      }
    }
  }

  lemma OneMoreFlag(flags: seq<bool>, i: nat)
    requires i < |flags|
    ensures forall b :: b in flags[..i + 1] <==> b in flags[..i] || b == flags[i]
  {
    assert flags[..i + 1] == flags[..i] + [flags[i]];
  }

  class ListenerLifecycle {
    var process: Process
    ghost var start: Process
    ghost var actions: seq<Action>

    ghost predicate Valid()
      reads this
    {
      process == Run(start, actions) && ChatsOrdered(process.chats)
    }

    constructor (chats: Chats, cursors: map<int, int>)
      requires ChatsOrdered(chats)
      ensures Valid() && process == start == Boot(chats, cursors)
    {
      process := Boot(chats, cursors);
      start := Boot(chats, cursors);
      actions := [];
    }

    method Take(a: Action)
      requires Valid()
      modifies this
      ensures Valid() && process == Step(old(process), a) && start == old(start) && actions == old(actions) + [a]
    {
      RunAppend(start, actions, a);
      StepKeepsChatsOrdered(process, a);
      process := Step(process, a);
      actions := actions + [a];
    }

    /** The rules of a message in flight, one after the other. */
    method ApplyRules(source: int, id: int, failures: seq<bool>)
      requires Valid() && (source, id) in process.inFlight
      modifies this
      ensures Valid() && start == old(start)
      ensures process == old(process).(floors := process.floors, owed := process.owed, skipped := process.skipped,
                                       cursors := process.cursors)
      ensures process.floors == (if true in failures then Remember(old(process).floors, source, id) else old(process).floors)
      ensures process.owed == (if true in failures then old(process).owed + {(source, id)} else old(process).owed)
      ensures process.cursors == (if false in failures then Advance(old(process).cursors, source, id) else old(process).cursors)
    {
      ghost var accepted := process;
      var i := 0;
      while i < |failures|
        invariant 0 <= i <= |failures| && Valid() && start == old(start)
        invariant process == accepted.(floors := process.floors, owed := process.owed, skipped := process.skipped,
                                       cursors := process.cursors)
        invariant process.floors == (if true in failures[..i] then Remember(accepted.floors, source, id) else accepted.floors)
        invariant process.owed == (if true in failures[..i] then accepted.owed + {(source, id)} else accepted.owed)
        invariant process.cursors == (if false in failures[..i] then Advance(accepted.cursors, source, id) else accepted.cursors)
      {
        OneMoreFlag(failures, i);
        if failures[i] {
          Take(LiveFailed(source, id));
        } else {
          Take(LiveWrite(source, id));
        }
        i := i + 1;
      }
      assert failures[..i] == failures;
    }

    /** A live message through every rule; `failures` says which of them never got the database. One
        rule's failure does not keep the others from running. */
    method HandleLiveMessage(source: int, m: ChatMessage, failures: seq<bool>)
      requires Valid() && m.id > Head(MessagesOf(process.chats, source))
      modifies this
      ensures Valid() && start == old(start)
      ensures process.live == old(process).live && process.work == old(process).work
      ensures source !in old(process).live ==> process == old(process).(chats := process.chats)
      ensures source in old(process).live ==>
        && process.inFlight == old(process).inFlight + {(source, m.id)} - {(source, m.id)}
        && process.notified == old(process).notified + [(source, m.id)]
        && process.floors == (if true in failures then Remember(old(process).floors, source, m.id) else old(process).floors)
        && process.owed == (if true in failures then old(process).owed + {(source, m.id)} else old(process).owed)
        && process.cursors == (if false in failures then Advance(old(process).cursors, source, m.id) else old(process).cursors)
    {
      Take(Post(source, m, true));
      if source !in process.live {
        return;
      }
      ApplyRules(source, m.id, failures);
      Take(LiveDone(source, m.id));
    }

    /** Every message of a batch through the pipeline again, in the order it was read. */
    method RerunBatch(failing: set<int>)
      requires Valid() && process.started && process.work.Rerunning? && process.work.remembering
      modifies this
      ensures Valid() && start == old(start)
      ensures process.work.Free? && process.cursors == old(process).cursors
      ensures process.floors == RememberAll(old(process).floors, old(process).work.source, old(process).work.todo, failing)
      ensures |process.notified| == |old(process).notified| + |old(process).work.todo|
      ensures forall i :: 0 <= i < |old(process).work.todo| ==>
        process.notified[|old(process).notified| + i] == (old(process).work.source, old(process).work.todo[i].id)
    {
      ghost var before := process;
      ghost var source, batch := process.work.source, process.work.todo;
      ghost var k := 0;
      while process.work.todo != []
        invariant 0 <= k <= |batch| && Valid() && start == old(start)
        invariant process.work == Rerunning(source, batch[k..], true) && process.cursors == before.cursors
        invariant RememberAll(process.floors, source, batch[k..], failing) == RememberAll(before.floors, source, batch, failing)
        invariant |process.notified| == |before.notified| + k
        invariant forall i :: 0 <= i < k ==> process.notified[|before.notified| + i] == (source, batch[i].id)
        decreases |process.work.todo|
      {
        Take(PassRun(process.work.todo[0].id in failing));
        k := k + 1;
      }
      Take(PassEnd);
    }

    /** One source's catch-up. A read that raises puts the floor back; otherwise every message of the
        batch runs, and the floor left behind is the least id that failed. */
    method CatchUpSource(source: int, cutoff: Option<int>, limit: nat, readRaises: bool, failing: set<int>)
      requires Valid() && process.started && process.work.Free? && source in process.live
      modifies this
      ensures Valid() && start == old(start) && process.work.Free?
      ensures readRaises ==> process == old(process)
      ensures !readRaises ==>
        var floor := if source in old(process).floors then Some(old(process).floors[source]) else None;
        var batch := Backfill(MessagesOf(old(process).chats, source), CursorOf(old(process).cursors, source), floor, cutoff, limit);
        && process.cursors == AdvanceOver(old(process).cursors, source, batch)
        && process.floors == RememberAll(old(process).floors - {source}, source, batch, failing)
        && |process.notified| == |old(process).notified| + |batch|
        && (forall i :: 0 <= i < |batch| ==> process.notified[|old(process).notified| + i] == (source, batch[i].id))
    {
      Take(PassBegin(source));
      if readRaises {
        Take(PassAborted);
        assert process.floors == old(process).floors;
      } else {
        Take(PassRead(cutoff, limit));
        RerunBatch(failing);
      }
    }

    /** The head of every source not listened to so far, in turn; a fetch that raises, at the `failAt`-th,
        leaves the rest. */
    method InitialiseCursors(sources: seq<int>, failAt: Option<nat>) returns (prepared: bool)
      requires Valid() && process.work.Applying?
      modifies this
      ensures Valid() && start == old(start) && process.work.Applying?
      ensures process == old(process).(cursors := process.cursors, work := process.work)
      ensures prepared <==> failAt.None? || failAt.value >= |sources|
      ensures prepared ==> forall s :: s in sources && s !in process.live ==> AtItsHead(process, s)
      ensures NeverBack(old(process).cursors, process.cursors)
      ensures forall s :: s in process.live ==> CursorOf(process.cursors, s) == CursorOf(old(process).cursors, s)
    {
      var i := 0;
      while i < |sources|
        invariant 0 <= i <= |sources| && Valid() && start == old(start) && process.work.Applying?
        invariant process == old(process).(cursors := process.cursors, work := process.work)
        invariant forall s :: s in sources[..i] && s !in process.live ==> AtItsHead(process, s)
        invariant NeverBack(old(process).cursors, process.cursors)
        invariant forall s :: s in process.live ==> CursorOf(process.cursors, s) == CursorOf(old(process).cursors, s)
        invariant failAt.None? || failAt.value >= i
      {
        if failAt == Some(i) {
          return false;
        }
        assert sources[..i + 1] == sources[..i] + [sources[i]];
        ApplyInitReachesTheHead(process, sources[i]);
        Take(ApplyInit(sources[i]));
        i := i + 1;
      }
      assert sources[..i] == sources;
      return true;
    }

    /** A swap. Only sources not listened to so far get their cursor moved to the head; a fetch that
        raises leaves the old configuration live. */
    method ApplyConfig(sources: seq<int>, failAt: Option<nat>) returns (swapped: bool)
      requires Valid() && process.started && process.work.Free?
      modifies this
      ensures Valid() && start == old(start) && process.work.Free?
      ensures process == old(process).(cursors := process.cursors, live := process.live)
      ensures process.live == if swapped then (set s | s in sources) else old(process).live
      ensures swapped <==> failAt.None? || failAt.value >= |sources|
      ensures NeverBack(old(process).cursors, process.cursors)
      ensures forall s :: s in old(process).live ==> CursorOf(process.cursors, s) == CursorOf(old(process).cursors, s)
      ensures swapped ==> forall s :: s in sources && s !in old(process).live && MessagesOf(process.chats, s) != [] ==>
        CursorOf(process.cursors, s) >= Head(MessagesOf(process.chats, s))
    {
      Take(ApplyBegin);
      swapped := InitialiseCursors(sources, failAt);
      if swapped {
        assert CanSwap(process, set s | s in sources) by {
          forall s | s in sources && s !in process.live ensures s in process.work.heads {
            assert AtItsHead(process, s);
          }
        }
        Take(Swap(set s | s in sources));
      } else {
        Take(ApplyFailed);
      }
    }
  }

  /** The source's cursor was moved to the head of its chat, if the chat has one. */
  ghost predicate AtItsHead(p: Process, s: int) {
    && p.work.Applying? && s in p.work.heads
    && (MessagesOf(p.chats, s) != [] ==> CursorOf(p.cursors, s) >= Head(MessagesOf(p.chats, s)))
  }

  lemma ApplyInitReachesTheHead(p: Process, source: int)
    requires p.work.Applying?
    ensures var q := DoApplyInit(p, source);
            && (source !in p.live ==> AtItsHead(q, source)) && NeverBack(p.cursors, q.cursors)
            && (forall s :: s !in p.live && AtItsHead(p, s) ==> AtItsHead(q, s))
            && (forall s :: s != source || s in p.live ==> CursorOf(q.cursors, s) == CursorOf(p.cursors, s))
            && q == p.(cursors := q.cursors, work := q.work) && q.work.Applying?
  {
  }
}
