/** The live feed: a bounded publish/subscribe broker and the stream one browser sees through it.

    `EventBroker` is the in-process object, its queues updated in place. `World` is the same broker
    seen by a single client that connects, reads, loses its connection and reconnects with the id of
    the last event it received. Both are written with the same functions on queues and history. */
module Broker {
  import opened Options

  datatype Event = Event(id: nat, kind: string, data: string)

  /** What a subscriber queue holds; `None` tells the stream to close. */
  type Item = Option<Event>

  // ---------------------------------------------------------------------------------------------
  // Queues and history as values

  /** A queue created with a size of zero or less is never full. */
  predicate Full(items: seq<Item>, size: int) {
    0 < size <= |items|
  }

  /** What is left of a full queue once the closing mark has been forced into it. */
  function Evicted(items: seq<Item>, size: int): seq<Item> {
    if Full(items, size) then Evicted(items[1..], size) else items + [None]
  }

  /** A subscriber's queue after one more event was published. */
  function Offered(items: seq<Item>, event: Event, size: int): seq<Item> {
    if Full(items, size) then Evicted(items, size) else items + [Some(event)]
  }

  /** Appending to a history that keeps at most `size` events, oldest out first. */
  function Remember(history: seq<Event>, event: Event, size: nat): seq<Event> {
    LastOf(history + [event], size)
  }

  function LastOf(events: seq<Event>, size: nat): seq<Event> {
    if |events| <= size then events else events[|events| - size..]
  }

  /** A gap that can no longer be replayed: something between `last` and the history is gone. */
  predicate NeedsResync(history: seq<Event>, last: Option<int>) {
    last.Some? && history != [] && history[0].id > last.value + 1
  }

  function After(history: seq<Event>, last: int): seq<Event> {
    if history == [] then []
    else (if history[0].id > last then [history[0]] else []) + After(history[1..], last)
  }

  function Backlog(history: seq<Event>, last: Option<int>): seq<Event> {
    if last.None? || NeedsResync(history, last) then [] else After(history, last.value)
  }

  /** The events a broker issues are numbered 1, 2, 3, ... */
  ghost predicate Numbered(events: seq<Event>) {
    forall i :: 0 <= i < |events| ==> events[i].id == i + 1
  }

  /** Forcing the closing mark into a queue that is exactly full costs the oldest item, nothing else. */
  lemma EvictionDropsOldest(items: seq<Item>, size: int)
    requires 0 < size == |items|
    ensures Evicted(items, size) == items[1..] + [None]
  {
    assert !Full(items[1..], size);
  }

  lemma {:induction false} AfterNumbered(events: seq<Event>, from: nat, last: nat)
    requires Numbered(events) && from <= last <= |events|
    ensures After(events[from..], last) == events[last..]
    decreases |events| - from
  {
    if from < |events| {
      assert events[from..][1..] == events[from + 1..];
      if from < last {
        AfterNumbered(events, from + 1, last);
      } else {
        AfterAll(events, from);
      }
    }
  }

  lemma {:induction false} AfterAll(events: seq<Event>, from: nat)
    requires Numbered(events) && from <= |events|
    ensures forall last: nat :: last <= from ==> After(events[from..], last) == events[from..]
    decreases |events| - from
  {
    if from < |events| {
      assert events[from..][1..] == events[from + 1..];
      AfterAll(events, from + 1);
    }
  }

  /** For an id this broker issued, the replay is exactly every later event, or a resync is due. */
  lemma BacklogIsTheTail(published: seq<Event>, size: nat, last: nat)
    requires Numbered(published) && size >= 1 && 1 <= last <= |published|
    ensures var history := LastOf(published, size);
            && (NeedsResync(history, Some(last)) <==> last < |published| - size)
            && (!NeedsResync(history, Some(last)) ==> Backlog(history, Some(last)) == published[last..])
  {
    var history := LastOf(published, size);
    if |published| <= size {
      assert history == published[0..];
      AfterNumbered(published, 0, last);
    } else if last >= |published| - size {
      AfterNumbered(published, |published| - size, last);
    }
  }

  // ---------------------------------------------------------------------------------------------
  // The broker object

  /** A bounded queue; `maxsize <= 0` means unbounded. */
  class EventQueue {
    const maxsize: int
    var items: seq<Item>

    constructor (maxsize: int)
      ensures this.maxsize == maxsize && items == []
    {
      this.maxsize := maxsize;
      items := [];
    }

    /** `false` is the queue-full exception: nothing was stored. */
    method PutNowait(item: Item) returns (stored: bool)
      modifies this
      ensures stored == !Full(old(items), maxsize)
      ensures items == if stored then old(items) + [item] else old(items)
    {
      stored := !Full(items, maxsize);
      if stored {
        items := items + [item];
      }
    }

    /** `false` is the queue-empty exception. */
    method GetNowait() returns (taken: bool)
      modifies this
      ensures taken == (old(items) != [])
      ensures items == if taken then old(items)[1..] else []
    {
      taken := items != [];
      if taken {
        items := items[1..];
      }
    }
  }

  /** The list of remembered events newer than `last`, in order. */
  method Replay(history: seq<Event>, last: int) returns (backlog: seq<Event>)
    ensures backlog == After(history, last)
  {
    backlog := [];
    var i := 0;
    assert history[0..] == history;
    while i < |history|
      invariant 0 <= i <= |history|
      invariant After(history, last) == backlog + After(history[i..], last)
    {
      AfterHead(history, i, last);
      if history[i].id > last {
        backlog := backlog + [history[i]];
      }
      i := i + 1;
    }
  }

  lemma AfterHead(history: seq<Event>, i: nat, last: int)
    requires i < |history|
    ensures After(history[i..], last)
            == (if history[i].id > last then [history[i]] else []) + After(history[i + 1..], last)
  {
    assert history[i..][1..] == history[i + 1..];
  }

  datatype Subscription = Subscription(id: nat, queue: EventQueue, backlog: seq<Event>, resyncRequired: bool)

  class EventBroker {
    const historySize: nat
    const queueSize: int
    var history: seq<Event>
    var subscribers: map<nat, EventQueue>
    var nextEventId: nat
    var nextSubscriberId: nat
    ghost var published: seq<Event>

    /** Ids count up from 1, the history is the newest published events, and no queue is shared. */
    ghost predicate Valid()
      reads this
    {
      && Numbered(published) && nextEventId == |published|
      && history == LastOf(published, historySize)
      && (forall s :: s in subscribers ==> s < nextSubscriberId)
      && QueuesAreOwn()
    }

    /** Every queue has the configured size, and no two subscribers share one. */
    ghost predicate QueuesAreOwn()
      reads this
    {
      && (forall s :: s in subscribers ==> subscribers[s].maxsize == queueSize)
      && (forall s, t :: s in subscribers && t in subscribers && s != t ==> subscribers[s] != subscribers[t])
    }

    constructor (historySize: nat, queueSize: int)
      ensures Valid() && published == [] && subscribers == map[]
      ensures this.historySize == historySize && this.queueSize == queueSize
    {
      this.historySize := historySize;
      this.queueSize := queueSize;
      history, subscribers, nextEventId, nextSubscriberId, published := [], map[], 0, 0, [];
    }

    method Subscribe(lastEventId: Option<int>) returns (subscription: Subscription)
      requires Valid()
      modifies this
      ensures Valid() && published == old(published) && history == old(history) && nextEventId == old(nextEventId)
      ensures subscription.id == old(nextSubscriberId) && subscription.id !in old(subscribers)
      ensures fresh(subscription.queue) && subscription.queue.items == []
      ensures subscribers == old(subscribers)[subscription.id := subscription.queue]
      ensures subscription.resyncRequired == NeedsResync(history, lastEventId)
      ensures subscription.backlog == Backlog(history, lastEventId)
    {
      var subscriberId := nextSubscriberId;
      nextSubscriberId := nextSubscriberId + 1;
      var queue := new EventQueue(queueSize);
      var backlog, resyncRequired := [], false;
      if lastEventId.Some? && history != [] {
        if history[0].id > lastEventId.value + 1 {
          resyncRequired := true;
        } else {
          backlog := Replay(history, lastEventId.value);
        }
      }
      subscribers := subscribers[subscriberId := queue];
      subscription := Subscription(subscriberId, queue, backlog, resyncRequired);
    }

    method Unsubscribe(subscriberId: nat)
      requires Valid()
      modifies this
      ensures Valid() && published == old(published) && history == old(history) && nextEventId == old(nextEventId)
      ensures nextSubscriberId == old(nextSubscriberId)
      ensures subscribers == old(subscribers) - {subscriberId}
    {
      subscribers := subscribers - {subscriberId};
    }

    /** A full queue removes its subscriber; every other subscriber gets the event and stays. */
    method Publish(kind: string, data: string) returns (event: Event)
      requires Valid()
      modifies this, subscribers.Values
      ensures Valid() && event == Event(old(nextEventId) + 1, kind, data)
      ensures published == old(published) + [event]
      ensures history == Remember(old(history), event, historySize)
      ensures nextSubscriberId == old(nextSubscriberId)
      ensures subscribers.Keys == set s | s in old(subscribers) && !Full(old(subscribers[s].items), queueSize)
      ensures forall s :: s in subscribers ==> subscribers[s] == old(subscribers)[s]
      ensures forall s :: s in old(subscribers) ==>
                old(subscribers)[s].items == Offered(old(subscribers[s].items), event, queueSize)
    {
      nextEventId := nextEventId + 1;
      event := Event(nextEventId, kind, data);
      RememberKeepsTheTail(published, event, historySize);
      history := Remember(history, event, historySize);
      published := published + [event];
      var stuck := OfferAll(event);
      EvictAll(stuck);
    }

    /** Puts the event into every queue with room, and names the subscribers whose queue was full. */
    method OfferAll(event: Event) returns (stuck: set<nat>)
      requires QueuesAreOwn()
      modifies subscribers.Values
      ensures stuck == set s | s in subscribers && Full(old(subscribers[s].items), queueSize)
      ensures forall s :: s in subscribers ==>
                subscribers[s].items == (if s in stuck then old(subscribers[s].items) else old(subscribers[s].items) + [Some(event)])
    {
      stuck := {};
      var todo := subscribers.Keys;
      while todo != {}
        invariant todo <= subscribers.Keys
        invariant stuck == set s | s in subscribers && s !in todo && Full(old(subscribers[s].items), queueSize)
        invariant forall s :: s in subscribers ==>
                    subscribers[s].items == (if s in todo || s in stuck then old(subscribers[s].items)
                     else old(subscribers[s].items) + [Some(event)])
      {
        var s :| s in todo;
        var stored := subscribers[s].PutNowait(Some(event));
        if !stored {
          stuck := stuck + {s};
        }
        todo := todo - {s};
      }
    }

    method EvictAll(stuck: set<nat>)
      requires QueuesAreOwn() && stuck <= subscribers.Keys
      modifies this`subscribers, subscribers.Values
      ensures subscribers == old(subscribers) - stuck
      ensures forall s :: s in old(subscribers) ==>
                old(subscribers)[s].items == (if s in stuck then Evicted(old(subscribers[s].items), queueSize) else old(subscribers[s].items))
    {
      var todo := stuck;
      while todo != {}
        invariant todo <= stuck
        invariant subscribers == old(subscribers) - (stuck - todo)
        invariant forall s :: s in old(subscribers) ==>
                    old(subscribers)[s].items == (if s in stuck - todo then Evicted(old(subscribers[s].items), queueSize)
                     else old(subscribers[s].items))
      {
        var s :| s in todo;
        Evict(s);
        todo := todo - {s};
      }
    }

    /** Drops a subscriber and forces the closing mark into its queue. */
    method Evict(subscriberId: nat)
      requires forall s :: s in subscribers ==> subscribers[s].maxsize == queueSize
      modifies this`subscribers, if subscriberId in subscribers then {subscribers[subscriberId]} else {}
      ensures subscribers == old(subscribers) - {subscriberId}
      ensures subscriberId in old(subscribers) ==>
                old(subscribers)[subscriberId].items == Evicted(old(subscribers[subscriberId].items), queueSize)
    {
      if subscriberId !in subscribers {
        return;
      }
      var queue := subscribers[subscriberId];
      subscribers := subscribers - {subscriberId};
      while true
        invariant subscribers == old(subscribers) - {subscriberId}
        invariant Evicted(queue.items, queueSize) == Evicted(old(queue.items), queueSize)
        decreases |queue.items|
      {
        var stored := queue.PutNowait(None);
        if stored {
          return;
        }
        var taken := queue.GetNowait();
        if !taken {
          return;
        }
      }
    }
  }

  lemma RememberKeepsTheTail(published: seq<Event>, event: Event, size: nat)
    ensures Remember(LastOf(published, size), event, size) == LastOf(published + [event], size)
  {
  }

  // ---------------------------------------------------------------------------------------------
  // One client of that broker

  datatype Sizes = Sizes(history: nat, queue: int)

  /** `resync` holds the newest id at subscription time while the resync notice is still unsent. */
  datatype Connection =
    | Closed
    | Open(resync: Option<nat>, backlog: seq<Event>, queue: seq<Item>, subscribed: bool)

  /** What the client has gone through, in order. `Fresh` is a first subscription without an id. */
  datatype Entry = Fresh(head: nat) | Resync(head: nat) | Got(event: Event)

  /** `dropped` collects the ids evictions removed from this client's queues. */
  datatype World = World(
    published: seq<Event>, history: seq<Event>, last: Option<nat>, conn: Connection,
    log: seq<Entry>, dropped: set<nat>)

  datatype Action = Publish(kind: string, data: string) | Connect | Read | Disconnect

  function Position(entry: Entry): nat {
    match entry
    case Fresh(head) => head
    case Resync(head) => head
    case Got(event) => event.id
  }

  function DoPublish(sizes: Sizes, w: World, kind: string, data: string): World {
    var event := Event(|w.published| + 1, kind, data);
    var w' := w.(published := w.published + [event], history := Remember(w.history, event, sizes.history));
    if w.conn.Open? && w.conn.subscribed then
      var queue' := Offered(w.conn.queue, event, sizes.queue);
      if Full(w.conn.queue, sizes.queue) then
        w'.(conn := w.conn.(queue := queue', subscribed := false),
            dropped := w.dropped + (if w.conn.queue[0].Some? then {w.conn.queue[0].value.id} else {}))
      else
        w'.(conn := w.conn.(queue := queue'))
    else w'
  }

  function DoConnect(w: World): World {
    if w.conn.Open? then w
    else
      var head := |w.published|;
      var resync := if NeedsResync(w.history, w.last) then Some(head) else None;
      w.(conn := Open(resync, Backlog(w.history, w.last), [], true),
         log := w.log + if w.last.None? then [Fresh(head)] else [])
  }

  /** One thing the stream yields: the resync notice, then the backlog, then the queue. */
  function DoRead(w: World): World {
    match w.conn
    case Closed => w
    case Open(resync, backlog, queue, subscribed) =>
      if resync.Some? then
        w.(conn := w.conn.(resync := None), log := w.log + [Resync(resync.value)])
      else if backlog != [] then
        w.(conn := w.conn.(backlog := backlog[1..]), last := Some(backlog[0].id), log := w.log + [Got(backlog[0])])
      else if queue == [] then w
      else if queue[0].None? then w.(conn := Closed)
      else
        w.(conn := w.conn.(queue := queue[1..]), last := Some(queue[0].value.id),
           log := w.log + [Got(queue[0].value)])
  }

  function Step(sizes: Sizes, w: World, action: Action): World {
    match action
    case Publish(kind, data) => DoPublish(sizes, w, kind, data)
    case Connect => DoConnect(w)
    case Read => DoRead(w)
    case Disconnect => w.(conn := Closed)
  }

  function Run(sizes: Sizes, w: World, actions: seq<Action>): World
    decreases |actions|
  {
    if actions == [] then w else Run(sizes, Step(sizes, w, actions[0]), actions[1..])
  }

  /** A broker that has published `published`, and a client whose last id that broker issued. */
  function Start(sizes: Sizes, published: seq<Event>, last: Option<nat>): World
    requires last.Some? ==> 1 <= last.value <= |published|
  {
    World(published, LastOf(published, sizes.history), last, Closed,
          if last.Some? then [Got(published[last.value - 1])] else [], {})
  }

  /** The promise about the client's log: an event follows its predecessor directly, or skips the
      one id an eviction dropped, which takes a queue that holds more than one event. */
  ghost predicate Follows(sizes: Sizes, dropped: set<nat>, before: Entry, next: Entry) {
    if next.Got? then
      || next.event.id == Position(before) + 1
      || (next.event.id == Position(before) + 2 && Position(before) + 1 in dropped && sizes.queue > 1)
    else Position(next) >= Position(before)
  }

  ghost predicate Gapless(sizes: Sizes, w: World) {
    && (forall i :: 0 < i < |w.log| ==> Follows(sizes, w.dropped, w.log[i - 1], w.log[i]))
    && (forall i :: 0 <= i < |w.log| && w.log[i].Got? ==>
          1 <= w.log[i].event.id <= |w.published| && w.log[i].event == w.published[w.log[i].event.id - 1])
  }

  /** `queue` holds published events from `from` on, and ends with the closing mark once evicted. */
  ghost predicate Queued(size: int, published: seq<Event>, from: nat, queue: seq<Item>, subscribed: bool) {
    var events := if subscribed || queue == [] then queue else queue[..|queue| - 1];
    && (size > 0 ==> |queue| <= size)
    && (subscribed ==> from + |queue| == |published|)
    && (!subscribed ==> size > 0 && queue != [] && queue[|queue| - 1] == None)
    && from + |events| <= |published|
    && forall i :: 0 <= i < |events| ==> events[i] == Some(published[from + i])
  }

  /** Backlog and queue continue the published events after `base`, but for one dropped event. */
  ghost predicate Streams(
      size: int, published: seq<Event>, dropped: set<nat>, base: nat, backlog: seq<Event>,
      queue: seq<Item>, subscribed: bool) {
    var from := base + |backlog|;
    && from <= |published| && backlog == published[base..from]
    && (|| Queued(size, published, from, queue, subscribed)
        || (!subscribed && from + 1 in dropped && Queued(size, published, from + 1, queue, subscribed)))
  }

  lemma OfferKeepsQueued(size: int, published: seq<Event>, event: Event, from: nat, queue: seq<Item>)
    requires Queued(size, published, from, queue, true)
    ensures !Full(queue, size) ==> Queued(size, published + [event], from, Offered(queue, event, size), true)
    ensures Full(queue, size) ==>
              && queue[0] == Some(published[from])
              && Queued(size, published + [event], from + 1, Offered(queue, event, size), false)
  {
    if Full(queue, size) {
      EvictionDropsOldest(queue, size);
    }
  }

  lemma EvictedQueueStays(size: int, published: seq<Event>, event: Event, from: nat, queue: seq<Item>)
    requires Queued(size, published, from, queue, false)
    ensures Queued(size, published + [event], from, queue, false)
  {
    var events, grown := queue[..|queue| - 1], published + [event];
    forall i | 0 <= i < |events| ensures events[i] == Some(grown[from + i]) {
      assert grown[from + i] == published[from + i];
    }
  }

  lemma GrownKeepsBacklog(published: seq<Event>, event: Event, base: nat, backlog: seq<Event>)
    requires base + |backlog| <= |published| && backlog == published[base..base + |backlog|]
    ensures backlog == (published + [event])[base..base + |backlog|]
  {
  }

  lemma PublishToEvicted(
      size: int, published: seq<Event>, event: Event, dropped: set<nat>, base: nat, backlog: seq<Event>, queue: seq<Item>)
    requires Streams(size, published, dropped, base, backlog, queue, false)
    ensures Streams(size, published + [event], dropped, base, backlog, queue, false)
  {
    var from := base + |backlog|;
    GrownKeepsBacklog(published, event, base, backlog);
    if Queued(size, published, from, queue, false) {
      EvictedQueueStays(size, published, event, from, queue);
    } else {
      EvictedQueueStays(size, published, event, from + 1, queue);
    }
  }

  lemma PublishWithRoom(
      size: int, published: seq<Event>, event: Event, dropped: set<nat>, base: nat, backlog: seq<Event>, queue: seq<Item>)
    requires Streams(size, published, dropped, base, backlog, queue, true) && !Full(queue, size)
    ensures Streams(size, published + [event], dropped, base, backlog, Offered(queue, event, size), true)
  {
    GrownKeepsBacklog(published, event, base, backlog);
    OfferKeepsQueued(size, published, event, base + |backlog|, queue);
  }

  lemma PublishWithoutRoom(
      size: int, published: seq<Event>, event: Event, dropped: set<nat>, base: nat, backlog: seq<Event>, queue: seq<Item>)
    requires Numbered(published) && Streams(size, published, dropped, base, backlog, queue, true) && Full(queue, size)
    ensures queue[0].Some?
    ensures Streams(size, published + [event], dropped + {queue[0].value.id}, base, backlog, Offered(queue, event, size), false)
  {
    var from := base + |backlog|;
    GrownKeepsBacklog(published, event, base, backlog);
    OfferKeepsQueued(size, published, event, from, queue);
    assert published[from].id == from + 1;
  }

  lemma PublishKeepsStream(
      size: int, published: seq<Event>, event: Event, dropped: set<nat>, base: nat, backlog: seq<Event>,
      queue: seq<Item>, subscribed: bool)
    requires Numbered(published) && Streams(size, published, dropped, base, backlog, queue, subscribed)
    ensures !subscribed ==> Streams(size, published + [event], dropped, base, backlog, queue, false)
    ensures subscribed && !Full(queue, size) ==>
              Streams(size, published + [event], dropped, base, backlog, Offered(queue, event, size), true)
    ensures subscribed && Full(queue, size) ==>
              && queue[0].Some?
              && Streams(size, published + [event], dropped + {queue[0].value.id}, base, backlog,
                         Offered(queue, event, size), false)
  {
    if subscribed {
      if Full(queue, size) {
        PublishWithoutRoom(size, published, event, dropped, base, backlog, queue);
      } else {
        PublishWithRoom(size, published, event, dropped, base, backlog, queue);
      }
    } else {
      PublishToEvicted(size, published, event, dropped, base, backlog, queue);
    }
  }

  lemma TakeKeepsQueued(size: int, published: seq<Event>, from: nat, queue: seq<Item>, subscribed: bool)
    requires Queued(size, published, from, queue, subscribed) && queue != [] && queue[0].Some?
    ensures from < |published| && queue[0].value == published[from]
    ensures Queued(size, published, from + 1, queue[1..], subscribed)
  {
    var events := if subscribed then queue else queue[..|queue| - 1];
    assert events[0] == queue[0];
    assert !subscribed ==> queue[1..][..|queue| - 2] == events[1..];
  }

  /** The id the client's next event follows. */
  ghost function Base(w: World): nat
    requires w.log != []
  {
    if w.conn.Open? && w.conn.resync.Some? then w.conn.resync.value else Position(w.log[|w.log| - 1])
  }

  /** The last id the client would send is the newest event it got, or too old to be replayed. */
  ghost predicate LastIsHonest(sizes: Sizes, w: World) {
    if w.last.None? then w.log == [] || w.log[|w.log| - 1].Fresh?
    else
      && w.log != [] && 1 <= w.last.value <= |w.published|
      && var top := w.log[|w.log| - 1];
         || (top.Got? && top.event.id == w.last.value)
         || (top.Resync? && w.last.value < |w.published| - sizes.history)
  }

  ghost predicate ConnectionInvariant(sizes: Sizes, w: World) {
    match w.conn
    case Closed => true
    case Open(resync, backlog, queue, subscribed) =>
      && w.log != []
      && (resync.Some? ==>
            && backlog == [] && w.last.Some? && w.last.value < |w.published| - sizes.history
            && Position(w.log[|w.log| - 1]) <= resync.value <= |w.published|)
      && Streams(sizes.queue, w.published, w.dropped, Base(w), backlog, queue, subscribed)
  }

  ghost predicate Invariant(sizes: Sizes, w: World) {
    && sizes.history >= 1
    && Numbered(w.published) && w.history == LastOf(w.published, sizes.history)
    && Gapless(sizes, w)
    && (forall i :: 0 <= i < |w.log| ==> Position(w.log[i]) <= |w.published|)
    && LastIsHonest(sizes, w)
    && ConnectionInvariant(sizes, w)
  }

  lemma PublishKeepsLog(sizes: Sizes, w: World, w': World)
    requires Invariant(sizes, w)
    requires w'.log == w.log && w.dropped <= w'.dropped && w.published <= w'.published
    ensures Gapless(sizes, w')
  {
    forall i | 0 < i < |w.log| ensures Follows(sizes, w'.dropped, w.log[i - 1], w.log[i]) {
      assert Follows(sizes, w.dropped, w.log[i - 1], w.log[i]);
    }
  }

  lemma PublishKeepsConnection(sizes: Sizes, w: World, kind: string, data: string)
    requires Invariant(sizes, w)
    ensures ConnectionInvariant(sizes, DoPublish(sizes, w, kind, data))
  {
    if w.conn.Open? {
      var w' := DoPublish(sizes, w, kind, data);
      assert w'.log == w.log && w'.last == w.last && w'.conn.Open? && Base(w') == Base(w);
      PublishKeepsStream(sizes.queue, w.published, Event(|w.published| + 1, kind, data), w.dropped, Base(w),
                         w.conn.backlog, w.conn.queue, w.conn.subscribed);
    }
  }

  lemma PublishKeepsLast(sizes: Sizes, w: World, w': World)
    requires LastIsHonest(sizes, w) && w'.log == w.log && w'.last == w.last && w.published <= w'.published
    ensures LastIsHonest(sizes, w')
  {
  }

  lemma PublishKeepsInvariant(sizes: Sizes, w: World, kind: string, data: string)
    requires Invariant(sizes, w)
    ensures Invariant(sizes, DoPublish(sizes, w, kind, data))
  {
    var w' := DoPublish(sizes, w, kind, data);
    var event := Event(|w.published| + 1, kind, data);
    assert w'.published == w.published + [event] && w'.history == Remember(w.history, event, sizes.history);
    assert w'.log == w.log && w'.last == w.last && w.dropped <= w'.dropped;
    RememberKeepsTheTail(w.published, event, sizes.history);
    PublishKeepsLog(sizes, w, w');
    PublishKeepsLast(sizes, w, w');
    PublishKeepsConnection(sizes, w, kind, data);
  }

  lemma ConnectKeepsInvariant(sizes: Sizes, w: World)
    requires Invariant(sizes, w)
    ensures Invariant(sizes, DoConnect(w))
  {
    if w.conn.Closed? {
      ConnectKeepsLog(sizes, w);
      ConnectStreams(sizes, w);
    }
  }

  lemma ConnectKeepsLog(sizes: Sizes, w: World)
    requires Invariant(sizes, w) && w.conn.Closed?
    ensures Gapless(sizes, DoConnect(w)) && LastIsHonest(sizes, DoConnect(w))
  {
    var w' := DoConnect(w);
    forall i | 0 < i < |w'.log| ensures Follows(sizes, w'.dropped, w'.log[i - 1], w'.log[i]) {
      if i < |w.log| {
        assert Follows(sizes, w.dropped, w.log[i - 1], w.log[i]);
      }
    }
  }

  lemma ConnectStreams(sizes: Sizes, w: World)
    requires Invariant(sizes, w) && w.conn.Closed?
    ensures ConnectionInvariant(sizes, DoConnect(w))
  {
    var n := |w.published|;
    TailStreams(sizes.queue, w.published, w.dropped, n);
    assert w.published[n..] == [];
    if w.last.Some? {
      BacklogIsTheTail(w.published, sizes.history, w.last.value);
      TailStreams(sizes.queue, w.published, w.dropped, w.last.value);
    }
  }

  lemma TailStreams(size: int, published: seq<Event>, dropped: set<nat>, base: nat)
    requires base <= |published|
    ensures Streams(size, published, dropped, base, published[base..], [], true)
  {
    assert Queued(size, published, |published|, [], true);
    assert published[base..|published|] == published[base..];
  }

  /** Logging the event after `Base(w)`, or after the one dropped event, keeps the promise. */
  lemma ReceiveKeepsGapless(sizes: Sizes, w: World, w': World, event: Event)
    requires Invariant(sizes, w) && w.log != [] && (w.conn.Open? ==> w.conn.resync.None?)
    requires w'.published == w.published && w'.dropped == w.dropped && w'.log == w.log + [Got(event)]
    requires 1 <= event.id <= |w.published| && event == w.published[event.id - 1]
    requires event.id == Base(w) + 1
          || (event.id == Base(w) + 2 && Base(w) + 1 in w.dropped && sizes.queue > 1)
    ensures Gapless(sizes, w')
  {
    forall i | 0 < i < |w'.log| ensures Follows(sizes, w'.dropped, w'.log[i - 1], w'.log[i]) {
      if i < |w.log| {
        assert Follows(sizes, w.dropped, w.log[i - 1], w.log[i]);
      }
    }
  }

  lemma ReadKeepsInvariant(sizes: Sizes, w: World)
    requires Invariant(sizes, w)
    ensures Invariant(sizes, DoRead(w))
  {
    if w.conn.Open? {
      if w.conn.resync.Some? {
        NoticeKeepsInvariant(sizes, w);
      } else if w.conn.backlog != [] {
        BacklogReadKeepsInvariant(sizes, w);
      } else if w.conn.queue != [] && w.conn.queue[0].Some? {
        QueueReadKeepsInvariant(sizes, w);
      }
    }
  }

  lemma NoticeKeepsInvariant(sizes: Sizes, w: World)
    requires Invariant(sizes, w) && w.conn.Open? && w.conn.resync.Some?
    ensures Invariant(sizes, DoRead(w))
  {
    var w' := DoRead(w);
    assert Gapless(sizes, w') by {
      forall i | 0 < i < |w'.log| ensures Follows(sizes, w'.dropped, w'.log[i - 1], w'.log[i]) {
        if i < |w.log| {
          assert Follows(sizes, w.dropped, w.log[i - 1], w.log[i]);
        }
      }
    }
  }

  lemma BacklogReadKeepsInvariant(sizes: Sizes, w: World)
    requires Invariant(sizes, w) && w.conn.Open? && w.conn.resync.None? && w.conn.backlog != []
    ensures Invariant(sizes, DoRead(w))
  {
    var w' := DoRead(w);
    var base := Base(w);
    assert w.conn.backlog[0] == w.published[base];
    assert w'.conn.backlog == w.published[base + 1..base + |w.conn.backlog|];
    ReceiveKeepsGapless(sizes, w, w', w.conn.backlog[0]);
  }

  lemma QueueReadKeepsStream(sizes: Sizes, w: World)
    requires Invariant(sizes, w) && w.conn.Open? && w.conn.resync.None? && w.conn.backlog == []
    requires w.conn.queue != [] && w.conn.queue[0].Some?
    ensures var event := w.conn.queue[0].value;
            && 1 <= event.id <= |w.published| && event == w.published[event.id - 1]
            && (event.id == Base(w) + 1 || (event.id == Base(w) + 2 && Base(w) + 1 in w.dropped && sizes.queue > 1))
            && Streams(sizes.queue, w.published, w.dropped, event.id, [], w.conn.queue[1..], w.conn.subscribed)
  {
    var base := Base(w);
    if Queued(sizes.queue, w.published, base, w.conn.queue, w.conn.subscribed) {
      TakeKeepsStream(sizes.queue, w.published, w.dropped, base, w.conn.queue, w.conn.subscribed);
    } else {
      TakeKeepsStream(sizes.queue, w.published, w.dropped, base + 1, w.conn.queue, w.conn.subscribed);
    }
  }

  lemma TakeKeepsStream(
      size: int, published: seq<Event>, dropped: set<nat>, from: nat, queue: seq<Item>, subscribed: bool)
    requires Numbered(published) && Queued(size, published, from, queue, subscribed)
    requires queue != [] && queue[0].Some?
    ensures from < |published| && queue[0].value == published[from] && published[from].id == from + 1
    ensures Streams(size, published, dropped, from + 1, [], queue[1..], subscribed)
  {
    TakeKeepsQueued(size, published, from, queue, subscribed);
    assert published[from + 1..from + 1] == [];
  }

  lemma QueueReadKeepsInvariant(sizes: Sizes, w: World)
    requires Invariant(sizes, w) && w.conn.Open? && w.conn.resync.None? && w.conn.backlog == []
    requires w.conn.queue != [] && w.conn.queue[0].Some?
    ensures Invariant(sizes, DoRead(w))
  {
    var w' := DoRead(w);
    var event := w.conn.queue[0].value;
    QueueReadKeepsStream(sizes, w);
    assert w' == w.(conn := w.conn.(queue := w.conn.queue[1..]), last := Some(event.id), log := w.log + [Got(event)]);
    ReceiveKeepsGapless(sizes, w, w', event);
    assert Base(w') == event.id;
  }

  lemma {:induction false} RunKeepsInvariant(sizes: Sizes, w: World, actions: seq<Action>)
    requires Invariant(sizes, w)
    ensures Invariant(sizes, Run(sizes, w, actions))
    decreases |actions|
  {
    if actions != [] {
      match actions[0] {
        case Publish(kind, data) => PublishKeepsInvariant(sizes, w, kind, data);
        case Connect => ConnectKeepsInvariant(sizes, w);
        case Read => ReadKeepsInvariant(sizes, w);
        case Disconnect =>
      }
      RunKeepsInvariant(sizes, Step(sizes, w, actions[0]), actions[1..]);
    }
  }

  /** Over every run of publishes, connects, reads and disconnects the client's events follow one
      another without gap, duplicate or reordering; only a resync notice or the single event an
      eviction dropped may interrupt them, and each event arrives as it was published. */
  lemma StreamIsGapless(sizes: Sizes, published: seq<Event>, last: Option<nat>, actions: seq<Action>)
    requires sizes.history >= 1 && Numbered(published)
    requires last.Some? ==> 1 <= last.value <= |published|
    ensures Gapless(sizes, Run(sizes, Start(sizes, published, last), actions))
  {
    RunKeepsInvariant(sizes, Start(sizes, published, last), actions);
  }

  lemma {:induction false} PositionsGrow(sizes: Sizes, w: World, i: nat, j: nat)
    requires Gapless(sizes, w) && i <= j < |w.log|
    ensures Position(w.log[i]) <= Position(w.log[j])
    ensures i < j && w.log[j].Got? ==> Position(w.log[i]) < Position(w.log[j])
    decreases j - i
  {
    if i < j {
      PositionsGrow(sizes, w, i, j - 1);
      assert Follows(sizes, w.dropped, w.log[j - 1], w.log[j]);
    }
  }

  /** Received ids only ever grow, across reconnects, evictions and resyncs alike. */
  lemma ReceivedIdsIncrease(
      sizes: Sizes, published: seq<Event>, last: Option<nat>, actions: seq<Action>, i: nat, j: nat)
    requires sizes.history >= 1 && Numbered(published)
    requires last.Some? ==> 1 <= last.value <= |published|
    requires i < j < |Run(sizes, Start(sizes, published, last), actions).log|
    ensures var log := Run(sizes, Start(sizes, published, last), actions).log;
            log[i].Got? && log[j].Got? ==> log[i].event.id < log[j].event.id
  {
    StreamIsGapless(sizes, published, last, actions);
    PositionsGrow(sizes, Run(sizes, Start(sizes, published, last), actions), i, j);
  }

  /** With queues of a single event, or without a bound, an eviction costs the client nothing. */
  lemma SmallOrUnboundedQueuesLoseNothing(
      sizes: Sizes, published: seq<Event>, last: Option<nat>, actions: seq<Action>, i: nat)
    requires sizes.history >= 1 && sizes.queue <= 1 && Numbered(published)
    requires last.Some? ==> 1 <= last.value <= |published|
    requires 0 < i < |Run(sizes, Start(sizes, published, last), actions).log|
    ensures var log := Run(sizes, Start(sizes, published, last), actions).log;
            log[i].Got? ==> log[i].event.id == Position(log[i - 1]) + 1
  {
    StreamIsGapless(sizes, published, last, actions);
    var w := Run(sizes, Start(sizes, published, last), actions);
    assert Follows(sizes, w.dropped, w.log[i - 1], w.log[i]);
  }

  lemma {:induction false} RunAppends(sizes: Sizes, w: World, first: seq<Action>, then_: seq<Action>)
    ensures Run(sizes, w, first + then_) == Run(sizes, Run(sizes, w, first), then_)
    decreases |first|
  {
    if first == [] {
      assert first + then_ == then_;
    } else {
      assert (first + then_)[1..] == first[1..] + then_;
      RunAppends(sizes, Step(sizes, w, first[0]), first[1..], then_);
    }
  }

  /** For every queue size above one the loss really happens, without a resync: a client that lets
      its queue fill and then reads on gets the second queued event right after connecting. */
  lemma LargerQueuesLoseAnEvent(sizes: Sizes)
    requires sizes.history >= 1 && sizes.queue > 1
    ensures exists actions ::
              Run(sizes, Start(sizes, [], None), actions).log == [Fresh(0), Got(Event(2, "match", ""))]
  {
    var w := Step(sizes, Start(sizes, [], None), Connect);
    FillQueue(sizes, w, sizes.queue);
    var fill := seq(sizes.queue, i => Publish("match", ""));
    var full := Run(sizes, w, fill);
    var evicted := Step(sizes, full, Publish("match", ""));
    EvictionDropsOldest(full.conn.queue, sizes.queue);
    assert evicted.conn.queue[0] == Some(Event(2, "match", ""));
    var tail := [Publish("match", ""), Read];
    assert Run(sizes, full, tail) == Step(sizes, evicted, Read) by {
      assert tail[1..] == [Read] && [Read][1..] == [];
      assert Run(sizes, evicted, [Read]) == Run(sizes, Step(sizes, evicted, Read), []);
    }
    RunAppends(sizes, w, fill, tail);
    var actions := [Connect] + (fill + tail);
    assert actions[1..] == fill + tail;
    assert Run(sizes, Start(sizes, [], None), actions).log == [Fresh(0), Got(Event(2, "match", ""))];
  }

  lemma {:induction false} FillQueue(sizes: Sizes, w: World, count: nat)
    requires w.conn.Open? && w.conn.subscribed && w.conn.resync.None? && w.conn.backlog == []
    requires |w.conn.queue| == |w.published| && |w.published| + count <= sizes.queue
    ensures var w' := Run(sizes, w, seq(count, i => Publish("match", "")));
            && w'.log == w.log && w'.last == w.last && w'.conn.Open? && w'.conn.subscribed
            && w'.conn.resync.None? && w'.conn.backlog == []
            && |w'.published| == |w.published| + count == |w'.conn.queue|
            && w.conn.queue <= w'.conn.queue
            && (forall i :: |w.published| <= i < |w'.published| ==>
                  w'.conn.queue[i] == Some(Event(i + 1, "match", "")))
    decreases count
  {
    var actions := seq(count, i => Publish("match", ""));
    if count > 0 {
      var next := Step(sizes, w, Publish("match", ""));
      assert actions[0] == Publish("match", "");
      assert actions[1..] == seq(count - 1, i => Publish("match", ""));
      FillQueue(sizes, next, count - 1);
    }
  }

  /** An id from an earlier process is outside the promise: this client's ids go back to 1. */
  lemma ForeignIdsGoBackwards(sizes: Sizes)
    requires sizes.history >= 1 && sizes.queue >= 1
    ensures var w := Start(sizes, [], None).(last := Some(100), log := [Got(Event(100, "match", ""))]);
            exists actions :: Run(sizes, w, actions).log
                              == [Got(Event(100, "match", "")), Got(Event(1, "match", ""))]
  {
    var w := Start(sizes, [], None).(last := Some(100), log := [Got(Event(100, "match", ""))]);
    var actions := [Connect, Publish("match", ""), Read];
    RunHead(sizes, w, actions);
    RunHead(sizes, Step(sizes, w, Connect), actions[1..]);
    RunHead(sizes, Step(sizes, Step(sizes, w, Connect), Publish("match", "")), actions[1..][1..]);
    assert Run(sizes, w, actions).log == [Got(Event(100, "match", "")), Got(Event(1, "match", ""))];
  }

  lemma RunHead(sizes: Sizes, w: World, actions: seq<Action>)
    requires actions != []
    ensures Run(sizes, w, actions) == Run(sizes, Step(sizes, w, actions[0]), actions[1..])
  {
  }

  /** A broker that keeps no history cannot notice a gap: event 2 is missed without a resync. */
  lemma WithoutHistoryGapsAreSilent(sizes: Sizes)
    requires sizes.history == 0 && sizes.queue >= 1
    ensures exists actions :: Run(sizes, Start(sizes, [], None), actions).log
                              == [Fresh(0), Got(Event(1, "match", "")), Got(Event(3, "match", ""))]
  {
    var event := Publish("match", "");
    var w0 := Start(sizes, [], None);
    var w1 := Step(sizes, w0, Connect);
    var w2 := Step(sizes, w1, event);
    var w3 := Step(sizes, w2, Read);
    var w4 := Step(sizes, w3, Disconnect);
    var w5 := Step(sizes, w4, event);
    var w6 := Step(sizes, w5, Connect);
    var w7 := Step(sizes, w6, event);
    var w8 := Step(sizes, w7, Read);
    assert w8.log == [Fresh(0), Got(Event(1, "match", "")), Got(Event(3, "match", ""))];
    var tail := [event, Connect, event, Read];
    assert tail[1..] == [Connect, event, Read] && tail[2..] == [event, Read] && tail[3..] == [Read];
    assert Run(sizes, w4, tail) == w8 by {
      assert Run(sizes, w7, [Read]) == Run(sizes, w8, []);
      assert Run(sizes, w6, [event, Read]) == Run(sizes, w7, [event, Read][1..]);
      assert Run(sizes, w5, tail[1..]) == Run(sizes, w6, tail[1..][1..]);
      assert tail[1..][1..] == tail[2..];
    }
    var head := [Connect, event, Read, Disconnect];
    assert head[1..] == [event, Read, Disconnect] && head[2..] == [Read, Disconnect] && head[3..] == [Disconnect];
    assert Run(sizes, w0, head) == w4 by {
      assert Run(sizes, w3, [Disconnect]) == Run(sizes, w4, []);
      assert head[1..][1..] == head[2..] && head[2..][1..] == head[3..];
      assert Run(sizes, w2, head[2..]) == Run(sizes, w3, head[3..]);
      assert Run(sizes, w1, head[1..]) == Run(sizes, w2, head[2..]);
    }
    RunAppends(sizes, w0, head, tail);
  }

  // ---------------------------------------------------------------------------------------------
  // Nothing is left behind

  /** Reading on until the notice, the backlog and the queue are through. */
  function Reads(n: nat): seq<Action> {
    if n == 0 then [] else [Read] + Reads(n - 1)
  }

  function Unread(w: World): nat
    requires w.conn.Open?
  {
    (if w.conn.resync.Some? then 1 else 0) + |w.conn.backlog| + |w.conn.queue|
  }

  ghost predicate Listening(w: World) {
    w.conn.Open? && w.conn.subscribed && forall i :: 0 <= i < |w.conn.queue| ==> w.conn.queue[i].Some?
  }

  lemma {:induction false} ReadsDrain(sizes: Sizes, w: World, n: nat)
    requires Listening(w) && n == Unread(w)
    ensures var w' := Run(sizes, w, Reads(n)); Listening(w') && Unread(w') == 0 && w'.published == w.published
    decreases n
  {
    if n > 0 {
      assert Reads(n)[1..] == Reads(n - 1);
      ReadsDrain(sizes, DoRead(w), n - 1);
    }
  }

  lemma DrainedHoldsEverything(sizes: Sizes, w: World)
    requires Invariant(sizes, w) && Listening(w) && Unread(w) == 0
    ensures w.log != [] && Position(w.log[|w.log| - 1]) == |w.published|
  {
    assert Queued(sizes.queue, w.published, Base(w), w.conn.queue, true);
  }

  lemma SubscribedIsListening(sizes: Sizes, w: World)
    requires Invariant(sizes, w) && w.conn.Open? && w.conn.subscribed
    ensures Listening(w)
  {
    var from, queue := Base(w) + |w.conn.backlog|, w.conn.queue;
    assert Queued(sizes.queue, w.published, from, queue, true);
    QueuedAreEvents(sizes.queue, w.published, from, queue, true);
  }

  lemma QueuedAreEvents(size: int, published: seq<Event>, from: nat, queue: seq<Item>, subscribed: bool)
    requires Queued(size, published, from, queue, subscribed)
    ensures subscribed ==>
      from + |queue| == |published| && forall i :: 0 <= i < |queue| ==> queue[i] == Some(published[from + i])
  {
    var events := if subscribed || queue == [] then queue else queue[..|queue| - 1];
    assert subscribed ==> events == queue;
  }

  /** A client that is connected and not evicted gets everything: after any run, reading what waits for it
      brings it to the newest event published, still connected. */
  lemma SubscribedClientCatchesUp(sizes: Sizes, published: seq<Event>, last: Option<nat>, actions: seq<Action>)
    requires sizes.history >= 1 && Numbered(published) && (last.Some? ==> 1 <= last.value <= |published|)
    requires var w := Run(sizes, Start(sizes, published, last), actions); w.conn.Open? && w.conn.subscribed
    ensures var w := Run(sizes, Start(sizes, published, last), actions);
            var w' := Run(sizes, w, Reads(Unread(w)));
            && w'.published == w.published && w'.conn.Open? && w'.conn.subscribed
            && w'.log != [] && Position(w'.log[|w'.log| - 1]) == |w.published|
  {
    RunKeepsInvariant(sizes, Start(sizes, published, last), actions);
    var w := Run(sizes, Start(sizes, published, last), actions);
    SubscribedIsListening(sizes, w);
    ReadsDrain(sizes, w, Unread(w));
    RunKeepsInvariant(sizes, w, Reads(Unread(w)));
    DrainedHoldsEverything(sizes, Run(sizes, w, Reads(Unread(w))));
  }

  // ---------------------------------------------------------------------------------------------
  // The broker object under one client's stream

  lemma RunOneMore(sizes: Sizes, w: World, actions: seq<Action>, a: Action)
    ensures Run(sizes, w, actions + [a]) == Step(sizes, Run(sizes, w, actions), a)
  {
    RunAppends(sizes, w, actions, [a]);
    RunHead(sizes, Run(sizes, w, actions), [a]);
  }

  /** A browser and the generator that serves it: what it does to the broker is a run of the machine. */
  class StreamClient {
    const broker: EventBroker
    var last: Option<nat>
    var open: bool
    var resync: bool
    var backlog: seq<Event>
    var subscriberId: nat
    var queue: EventQueue
    ghost var w: World
    ghost var start: World
    ghost var actions: seq<Action>

    ghost function SizesOf(): Sizes {
      Sizes(broker.historySize, broker.queueSize)
    }

    ghost predicate Valid()
      reads this, broker, queue
    {
      && broker.Valid() && w == Run(SizesOf(), start, actions)
      && w.published == broker.published && w.history == broker.history && w.last == last
      && (open <==> w.conn.Open?) && (open ==> Served())
    }

    /** The connection is what the generator holds, and its queue is the broker's while it is subscribed. */
    ghost predicate Served()
      reads this, broker, queue
    {
      && w.conn.Open? && w.conn.backlog == backlog && (w.conn.resync.Some? <==> resync) && w.conn.queue == queue.items
      && subscriberId < broker.nextSubscriberId
      && (w.conn.subscribed <==> subscriberId in broker.subscribers)
      && (forall s :: s in broker.subscribers ==> (broker.subscribers[s] == queue <==> s == subscriberId))
    }

    constructor (broker: EventBroker, last: Option<nat>)
      requires broker.Valid() && (last.Some? ==> 1 <= last.value <= |broker.published|)
      ensures Valid() && this.broker == broker && !open && fresh(queue)
      ensures start == Start(Sizes(broker.historySize, broker.queueSize), broker.published, last)
    {
      this.broker, this.last, open, resync, backlog, subscriberId := broker, last, false, false, [], 0;
      queue := new EventQueue(broker.queueSize);
      start := Start(Sizes(broker.historySize, broker.queueSize), broker.published, last);
      w := Start(Sizes(broker.historySize, broker.queueSize), broker.published, last);
      actions := [];
    }

    ghost method Took(a: Action, next: World)
      requires w == Run(SizesOf(), start, actions) && next == Step(SizesOf(), w, a)
      modifies this`w, this`actions
      ensures w == next && w == Run(SizesOf(), start, actions)
    {
      RunOneMore(SizesOf(), start, actions, a);
      w, actions := next, actions + [a];
    }

    /** A request with the last id the browser knows. */
    method Connect()
      requires Valid() && !open
      modifies this, broker
      ensures Valid() && open && start == old(start) && w == DoConnect(old(w)) && fresh(queue)
    {
      ghost var next := DoConnect(w);
      var subscription := broker.Subscribe(last);
      open, resync, backlog := true, subscription.resyncRequired, subscription.backlog;
      subscriberId, queue := subscription.id, subscription.queue;
      assert forall s :: s in old(broker.subscribers) ==> broker.subscribers[s] == old(broker.subscribers)[s] != queue;
      assert next.conn.backlog == backlog && next.conn.queue == queue.items;
      assert next.conn.resync.Some? <==> resync;
      assert subscriberId in broker.subscribers;
      Took(Action.Connect, next);
    }

    /** The next thing the generator yields, if there is one; at the closing mark it unsubscribes and ends. */
    method Read() returns (event: Option<Event>)
      requires Valid() && open
      modifies this, broker, queue
      ensures Valid() && start == old(start) && w == DoRead(old(w)) && queue == old(queue)
      ensures w.log == old(w).log + (if event.Some? then [Got(event.value)]
                                     else if old(resync) then [Resync(old(w).conn.resync.value)] else [])
    {
      ghost var next := DoRead(w);
      event := None;
      if resync {
        resync := false;
      } else if backlog != [] {
        event := Some(backlog[0]);
        backlog, last := backlog[1..], Some(backlog[0].id);
      } else if queue.items != [] {
        event := queue.items[0];
        var taken := queue.GetNowait();
        if event.Some? {
          last := Some(event.value.id);
        } else {
          broker.Unsubscribe(subscriberId);
          open := false;
        }
      }
      Took(Action.Read, next);
    }

    method Disconnect()
      requires Valid()
      modifies this, broker
      ensures Valid() && !open && start == old(start) && w == old(w).(conn := Closed)
    {
      ghost var next := w.(conn := Closed);
      if open {
        broker.Unsubscribe(subscriberId);
      }
      open := false;
      Took(Action.Disconnect, next);
    }

    /** Anything published meanwhile reaches this client through the broker. */
    method Publish(kind: string, data: string)
      requires Valid()
      modifies this, broker, broker.subscribers.Values
      ensures Valid() && open == old(open) && start == old(start) && w == DoPublish(SizesOf(), old(w), kind, data)
    {
      ghost var next := DoPublish(SizesOf(), w, kind, data);
      var event := broker.Publish(kind, data);
      Took(Action.Publish(kind, data), next);
    }
  }

  /** So what the object serves its client is what the machine promises. */
  lemma ClientStreamIsGapless(c: StreamClient, published: seq<Event>, last: Option<nat>)
    requires c.Valid() && c.broker.historySize >= 1 && Numbered(published)
    requires (last.Some? ==> 1 <= last.value <= |published|) && c.start == Start(c.SizesOf(), published, last)
    ensures Gapless(c.SizesOf(), c.w)
  {
    StreamIsGapless(c.SizesOf(), published, last, c.actions);
  }
}
