/** The in-process publish/subscribe bus: topics with de-duplicated
    subscriber lists and a bounded history, one bounded priority queue of
    pending deliveries, and the statistics the bus keeps.

    The background worker thread is replaced by an explicit `DeliverNext`
    step. Subscriber callbacks are identified by a `Callback` value; whether
    a callback raises when it is handed a message is given by an oracle.
    Clock readings (`time.time()`) are passed in as `now`; message ids
    (`uuid4()`) are drawn from a stream `ids` at the position given by the
    bus's publish counter, which every publish advances exactly once. */
module PubSub {
  import opened Values

  /** `MessagePriority`. */
  datatype Priority = Low | Normal | High | Urgent

  /** The enum's integer values. */
  function PriorityValue(p: Priority): (v: int)
    ensures 1 <= v <= 4
    ensures p == Low <==> v == 1
    ensures p == Urgent <==> v == 4
  {
    match p
    case Low => 1
    case Normal => 2
    case High => 3
    case Urgent => 4
  }

  /** The identity of a subscriber callback (Python compares them with `==`). */
  datatype Callback = Callback(name: string)

  datatype Message<P> = Message(
    topic: string,
    payload: P,
    messageId: string,
    timestamp: int,
    priority: Priority,
    metadata: map<string, Value>)

  /** `Topic.max_history`. */
  const MaxHistory: nat := 100

  /** The default `max_queue_size` of `PubSubService`. */
  const DefaultMaxQueueSize: int := 1000

  /** The text of the `RuntimeError` raised when the queue is full. */
  function QueueFullError(topicName: string): string
  {
    "Message queue is full. Cannot publish to " + topicName
  }

  predicate NoDuplicates<T(==)>(s: seq<T>)
  {
    forall i, j :: 0 <= i < j < |s| ==> s[i] != s[j]
  }

  /** `list.remove(x)` when `x` is present, and no change otherwise. */
  function RemoveFirst<T(==)>(s: seq<T>, x: T): (r: seq<T>)
    ensures x in s ==> |r| == |s| - 1
    ensures x !in s ==> r == s
    ensures multiset(r) == multiset(s) - multiset{x}
  {
    if s == [] then []
    else
      assert s == [s[0]] + s[1..];
      if s[0] == x then s[1..] else [s[0]] + RemoveFirst(s[1..], x)
  }

  /** Removing from a list without duplicates removes every copy and keeps
      the list free of duplicates; every other element stays. */
  lemma {:induction false} RemoveFirstFromNoDuplicates<T>(s: seq<T>, x: T)
    requires NoDuplicates(s)
    ensures x !in RemoveFirst(s, x)
    ensures NoDuplicates(RemoveFirst(s, x))
    ensures forall y :: y != x ==> (y in RemoveFirst(s, x) <==> y in s)
  {
    if s != [] && s[0] != x {
      RemoveFirstFromNoDuplicates(s[1..], x);
      var r := RemoveFirst(s, x);
      assert r == [s[0]] + RemoveFirst(s[1..], x);
      assert s[0] !in s[1..];
      assert s[0] !in RemoveFirst(s[1..], x);
      forall y | y != x
        ensures y in r <==> y in s
      {
        assert y in s <==> y == s[0] || y in s[1..];
      }
    } else if s != [] {
      assert forall y :: y in s[1..] ==> y != s[0];
    }
  }

  /** The history after appending `m` (`Topic.add_to_history`): the oldest
      entry is evicted once there are more than `MaxHistory`. */
  function Appended<P>(h: seq<Message<P>>, m: Message<P>): (r: seq<Message<P>>)
    ensures |h| <= MaxHistory ==> |r| <= MaxHistory
    ensures |r| > 0 && r[|r| - 1] == m
    ensures |h| < MaxHistory ==> |r| == |h| + 1
  {
    if |h| + 1 > MaxHistory then (h + [m])[1..] else h + [m]
  }

  /** A bounded history keeps the newest messages: after appending, it is
      the last `min(|h| + 1, MaxHistory)` messages of `h + [m]`. */
  lemma HistoryKeepsNewest<P>(h: seq<Message<P>>, m: Message<P>)
    requires |h| <= MaxHistory
    ensures var r := Appended(h, m);
      && |r| == (if |h| < MaxHistory then |h| + 1 else MaxHistory)
      && r == (h + [m])[|h| + 1 - |r|..]
  {
  }

  /** The observable state of one topic. */
  datatype TopicState<P> = TopicState(
    name: string,
    subscribers: seq<Callback>,
    history: seq<Message<P>>,
    messageCount: nat,
    createdAt: int)
  {
    ghost predicate Valid()
    {
      NoDuplicates(subscribers) && |history| <= MaxHistory
    }
  }

  /** The state of topic `name` in `snap`, or that of a topic created now
      when there is none. */
  function StateOrNew<P>(snap: map<string, TopicState<P>>, name: string, now: int): TopicState<P>
  {
    if name in snap then snap[name] else NewTopicState(name, now)
  }

  /** Two updates of the same key: the second one wins. */
  lemma UpdateTwice<K, V>(m: map<K, V>, k: K, a: V, b: V)
    ensures m[k := a][k := b] == m[k := b]
  {
  }

  /** Removing a key removes one copy of it from the multiset of keys. */
  lemma KeysAfterRemove<K, V>(m: map<K, V>, k: K)
    requires k in m
    ensures multiset((m - {k}).Keys) == multiset(m.Keys) - multiset{k}
  {
    assert m.Keys == (m - {k}).Keys + {k};
  }

  /** Removing a key that is not there changes nothing. */
  lemma RemoveAbsentKey<K, V>(m: map<K, V>, k: K)
    requires k !in m
    ensures m - {k} == m
  {
    assert (m - {k}).Keys == m.Keys;
  }

  /** A newly created topic. */
  function NewTopicState<P>(name: string, now: int): TopicState<P>
  {
    TopicState(name, [], [], 0, now)
  }

  /** `add_subscriber`'s effect. */
  function WithSubscriber<P>(t: TopicState<P>, cb: Callback): TopicState<P>
  {
    if cb in t.subscribers then t else t.(subscribers := t.subscribers + [cb])
  }

  /** `remove_subscriber`'s effect. */
  function WithoutSubscriber<P>(t: TopicState<P>, cb: Callback): TopicState<P>
  {
    t.(subscribers := RemoveFirst(t.subscribers, cb))
  }

  /** `unsubscribe`'s effect on the whole registry: an unknown topic is left
      alone (and not created). */
  function Unsubscribed<P>(snap: map<string, TopicState<P>>, name: string, cb: Callback): map<string, TopicState<P>>
  {
    if name in snap then snap[name := WithoutSubscriber(snap[name], cb)] else snap
  }

  /** `add_to_history`'s effect. */
  function WithMessage<P>(t: TopicState<P>, m: Message<P>): TopicState<P>
  {
    t.(history := Appended(t.history, m), messageCount := t.messageCount + 1)
  }

  /** Subscribing twice is subscribing once; the result holds the callback
      exactly once and keeps the topic valid. */
  lemma SubscribeIdempotent<P>(t: TopicState<P>, cb: Callback)
    requires t.Valid()
    ensures WithSubscriber(WithSubscriber(t, cb), cb) == WithSubscriber(t, cb)
    ensures WithSubscriber(t, cb).Valid()
    ensures cb in WithSubscriber(t, cb).subscribers
  {
    var s := WithSubscriber(t, cb).subscribers;
    if cb !in t.subscribers {
      assert forall i :: 0 <= i < |t.subscribers| ==> s[i] == t.subscribers[i];
    }
  }

  /** Unsubscribing undoes a subscription that added the callback, and leaves
      the callback absent in every case. */
  lemma {:induction false} UnsubscribeUndoesSubscribe<P>(t: TopicState<P>, cb: Callback)
    requires t.Valid()
    ensures cb !in t.subscribers ==> WithoutSubscriber(WithSubscriber(t, cb), cb) == t
    ensures cb !in WithoutSubscriber(t, cb).subscribers
    ensures WithoutSubscriber(t, cb).Valid()
  {
    if cb !in t.subscribers {
      RemoveFirstAfterAppend(t.subscribers, cb);
    }
    RemoveFirstFromNoDuplicates(t.subscribers, cb);
  }

  lemma {:induction false} RemoveFirstAfterAppend<T>(s: seq<T>, x: T)
    requires x !in s
    ensures RemoveFirst(s + [x], x) == s
  {
    if s != [] {
      assert (s + [x])[1..] == s[1..] + [x];
      RemoveFirstAfterAppend(s[1..], x);
    }
  }

  /** Adding to the history keeps it within `MaxHistory`, and the message
      count grows by exactly one even when an entry is evicted. */
  lemma HistoryBounded<P>(t: TopicState<P>, m: Message<P>)
    requires t.Valid()
    ensures WithMessage(t, m).Valid()
    ensures WithMessage(t, m).messageCount == t.messageCount + 1
    ensures |t.history| == MaxHistory ==> WithMessage(t, m).history == t.history[1..] + [m]
  {
  }

  /** A topic: its subscribers and its history, updated in place. */
  class Topic<P> {
    const name: string
    const createdAt: int
    var subscribers: seq<Callback>
    var history: seq<Message<P>>
    var messageCount: nat

    function State(): TopicState<P>
      reads this
    {
      TopicState(name, subscribers, history, messageCount, createdAt)
    }

    ghost predicate Valid()
      reads this
    {
      State().Valid()
    }

    constructor (name: string, now: int)
      ensures Valid()
      ensures State() == NewTopicState(name, now)
    {
      this.name := name;
      this.createdAt := now;
      subscribers := [];
      history := [];
      messageCount := 0;
    }

    /** `add_subscriber`: appends the callback unless it is already there. */
    method AddSubscriber(cb: Callback) returns (added: bool)
      requires Valid()
      modifies this
      ensures Valid()
      ensures added <==> cb !in old(subscribers)
      ensures State() == WithSubscriber(old(State()), cb)
    {
      added := cb !in subscribers;
      if added {
        subscribers := subscribers + [cb];
      }
      SubscribeIdempotent(old(State()), cb);
    }

    /** `remove_subscriber`: removes the callback if it is there. */
    method RemoveSubscriber(cb: Callback) returns (removed: bool)
      requires Valid()
      modifies this
      ensures Valid()
      ensures removed <==> cb in old(subscribers)
      ensures State() == WithoutSubscriber(old(State()), cb)
    {
      removed := cb in subscribers;
      if removed {
        subscribers := RemoveFirst(subscribers, cb);
      }
      UnsubscribeUndoesSubscribe(old(State()), cb);
    }

    /** `get_subscriber_count`. */
    function SubscriberCount(): nat
      reads this
    {
      |subscribers|
    }

    /** `add_to_history`. */
    method AddToHistory(m: Message<P>)
      requires Valid()
      modifies this
      ensures Valid()
      ensures State() == WithMessage(old(State()), m)
    {
      ghost var before := State();
      HistoryBounded(before, m);
      history := history + [m];
      messageCount := messageCount + 1;
      if |history| > MaxHistory {
        history := history[1..];
      }
      assert history == Appended(before.history, m);
    }

    /** `message_history.clear()`; the message count is kept. */
    method ClearHistory()
      requires Valid()
      modifies this
      ensures Valid()
      ensures State() == old(State()).(history := [])
    {
      history := [];
    }
  }

  /** A pending delivery: the tuple `(-priority, timestamp, counter, message)`. */
  datatype Entry<P> = Entry(negPriority: int, enqueuedAt: int, counter: nat, message: Message<P>)

  /** Python's tuple order on the first three components of an entry. The
      fourth, the message, is never compared, because counters are distinct. */
  predicate KeyLess<P>(a: Entry<P>, b: Entry<P>)
  {
    || a.negPriority < b.negPriority
    || (a.negPriority == b.negPriority && a.enqueuedAt < b.enqueuedAt)
    || (a.negPriority == b.negPriority && a.enqueuedAt == b.enqueuedAt && a.counter < b.counter)
  }

  /** The queue lists entries in the order they were enqueued. */
  predicate CountersIncrease<P>(q: seq<Entry<P>>)
  {
    forall i, j :: 0 <= i < j < |q| ==> q[i].counter < q[j].counter
  }

  /** The clock did not go backwards while these entries were enqueued. */
  predicate TimesNondecreasing<P>(q: seq<Entry<P>>)
  {
    forall i, j :: 0 <= i < j < |q| ==> q[i].enqueuedAt <= q[j].enqueuedAt
  }

  /** With distinct counters, the key order is total: of two different
      entries, exactly one is smaller. */
  lemma KeyOrderTotal<P>(a: Entry<P>, b: Entry<P>)
    requires a.counter != b.counter
    ensures KeyLess(a, b) != KeyLess(b, a)
  {
  }

  /** The position of the entry that `PriorityQueue.get` hands out: the one
      with the smallest key. */
  function MinIndex<P>(q: seq<Entry<P>>): (k: nat)
    requires |q| > 0
    ensures k < |q|
    ensures forall j :: 0 <= j < |q| ==> !KeyLess(q[j], q[k])
  {
    if |q| == 1 then 0
    else
      var k' := MinIndex(q[1..]);
      if KeyLess(q[0], q[k' + 1]) then 0 else k' + 1
  }

  /** The entry taken out of the queue has the highest priority waiting and,
      among the entries of that priority, was enqueued first (FIFO), as long
      as the clock never went backwards. */
  lemma PopOrder<P>(q: seq<Entry<P>>, j: nat)
    requires |q| > 0 && j < |q| && j != MinIndex(q)
    requires CountersIncrease(q) && TimesNondecreasing(q)
    ensures var k := MinIndex(q);
      || q[k].negPriority < q[j].negPriority
      || (q[k].negPriority == q[j].negPriority && k < j)
  {
  }

  /** The sequence with position `k` taken out. */
  function RemoveAt<T>(s: seq<T>, k: nat): (r: seq<T>)
    requires k < |s|
    ensures |r| == |s| - 1
    ensures forall i :: 0 <= i < k ==> r[i] == s[i]
    ensures forall i :: k <= i < |r| ==> r[i] == s[i + 1]
  {
    s[..k] + s[k + 1..]
  }

  /** Taking an entry out keeps the counters increasing and below `bound`. */
  lemma RemoveAtKeepsCounters<P>(q: seq<Entry<P>>, k: nat, bound: nat)
    requires k < |q| && CountersIncrease(q)
    requires forall i :: 0 <= i < |q| ==> q[i].counter < bound
    ensures CountersIncrease(RemoveAt(q, k))
    ensures forall i :: 0 <= i < |RemoveAt(q, k)| ==> RemoveAt(q, k)[i].counter < bound
  {
    var r := RemoveAt(q, k);
    forall i, j | 0 <= i < j < |r|
      ensures r[i].counter < r[j].counter
    {
      var i' := if i < k then i else i + 1;
      var j' := if j < k then j else j + 1;
      assert r[i] == q[i'] && r[j] == q[j'];
    }
  }

  /** The global counters of the bus (`stats`). */
  datatype Stats = Stats(published: nat, delivered: nat, failed: nat, topicsCreated: nat)

  /** `get_stats()`. */
  datatype ServiceStats = ServiceStats(stats: Stats, activeTopics: nat, queueSize: nat, running: bool)

  /** `get_topic_stats(name)`. */
  datatype TopicStats = TopicStats(name: string, subscribers: nat, messageCount: nat, historySize: nat, createdAt: int)

  /** The number of callbacks in `subs` that return normally for `m`. */
  function Delivered<P>(subs: seq<Callback>, m: Message<P>, raises: (Callback, Message<P>) -> bool): (n: nat)
    ensures n <= |subs|
  {
    if subs == [] then 0
    else Delivered(subs[..|subs| - 1], m, raises) + (if raises(subs[|subs| - 1], m) then 0 else 1)
  }

  /** The counters after delivering `m` to the snapshot `subs`: each callback
      that returns counts as delivered, each one that raises as failed. */
  /** The subscribers a message published to `name` reaches: none when the
      topic does not exist. */
  function SubscribersOf<P>(snap: map<string, TopicState<P>>, name: string): seq<Callback>
  {
    if name in snap then snap[name].subscribers else []
  }

  function AfterDelivery<P>(s: Stats, subs: seq<Callback>, m: Message<P>, raises: (Callback, Message<P>) -> bool): (r: Stats)
    ensures r.delivered + r.failed == s.delivered + s.failed + |subs|
    ensures r.published == s.published && r.topicsCreated == s.topicsCreated
    ensures (forall c :: c in subs ==> !raises(c, m)) ==> r.failed == s.failed
  {
    DeliveredAllWhenNoneRaises(subs, m, raises);
    var d := Delivered(subs, m, raises);
    s.(delivered := s.delivered + d, failed := s.failed + (|subs| - d))
  }

  lemma {:induction false} DeliveredAllWhenNoneRaises<P>(subs: seq<Callback>, m: Message<P>, raises: (Callback, Message<P>) -> bool)
    ensures (forall c :: c in subs ==> !raises(c, m)) ==> Delivered(subs, m, raises) == |subs|
  {
    if subs != [] {
      DeliveredAllWhenNoneRaises(subs[..|subs| - 1], m, raises);
      if forall c :: c in subs ==> !raises(c, m) {
        assert forall c :: c in subs[..|subs| - 1] ==> c in subs;
      }
    }
  }

  /** The bus (`PubSubService`). */
  class PubSubService<P> {
    var topics: map<string, Topic<P>>
    /** The names of `topics` in insertion order, as Python's dict keeps them. */
    var topicOrder: seq<string>
    /** The priority queue, as the list of its entries in enqueue order. */
    var queue: seq<Entry<P>>
    /** `maxsize` of the queue; zero or less means unbounded, as in Python. */
    const maxQueueSize: int
    var running: bool
    var queueCounter: nat
    var stats: Stats

    ghost predicate Valid()
      reads this, topics.Values
    {
      RegistryValid() && QueueValid()
    }

    /** Every topic is filed under its own name, and the creation order
        lists each registered name once. */
    ghost predicate RegistryValid()
      reads this`topics, this`topicOrder, topics.Values
    {
      && (forall n :: n in topics ==> topics[n].name == n && topics[n].Valid())
      && multiset(topicOrder) == multiset(topics.Keys)
    }

    /** Queue entries carry increasing counters below the next one, and the
        queue respects its bound. */
    ghost predicate QueueValid()
      reads this`queue, this`queueCounter
    {
      && CountersIncrease(queue)
      && (forall i :: 0 <= i < |queue| ==> queue[i].counter < queueCounter)
      && (maxQueueSize > 0 ==> |queue| <= maxQueueSize)
    }

    /** The state of every topic, by name. */
    ghost function Snapshot(): map<string, TopicState<P>>
      reads this`topics, topics.Values
    {
      map n | n in topics :: topics[n].State()
    }

    /** `queue.Full` is raised by a non-blocking put when the queue holds
        `size` entries. */
    predicate Full(size: nat)
    {
      maxQueueSize > 0 && size >= maxQueueSize
    }

    constructor (maxQueueSize: int)
      ensures Valid()
      ensures this.maxQueueSize == maxQueueSize
      ensures topics == map[] && topicOrder == [] && queue == []
      ensures !running && queueCounter == 0 && stats == Stats(0, 0, 0, 0)
    {
      topics := map[];
      topicOrder := [];
      queue := [];
      this.maxQueueSize := maxQueueSize;
      running := false;
      queueCounter := 0;
      stats := Stats(0, 0, 0, 0);
    }

    /** `create_topic`: returns the existing topic or creates it; only a
        creation is counted. */
    method CreateTopic(name: string, now: int) returns (t: Topic<P>)
      requires Valid()
      modifies this
      ensures Valid()
      ensures name in topics && t == topics[name]
      ensures name in old(topics) ==> topics == old(topics) && topicOrder == old(topicOrder) && stats == old(stats)
      ensures name !in old(topics) ==>
        && fresh(t) && topics == old(topics)[name := t]
        && topicOrder == old(topicOrder) + [name]
        && stats == old(stats).(topicsCreated := old(stats.topicsCreated) + 1)
      ensures t.State() == StateOrNew(old(Snapshot()), name, now)
      ensures Snapshot() == old(Snapshot())[name := t.State()]
      ensures queue == old(queue) && queueCounter == old(queueCounter) && running == old(running)
    {
      if name !in topics {
        t := new Topic(name, now);
        topics := topics[name := t];
        topicOrder := topicOrder + [name];
        stats := stats.(topicsCreated := stats.topicsCreated + 1);
        SnapshotAfterCreate(name, t);
        ValidAfterCreate(name, t);
      } else {
        t := topics[name];
        assert Snapshot() == Snapshot()[name := t.State()];
      }
    }

    /** Registering a valid new topic under a new name, at the end of the
        creation order, keeps the bus valid. */
    twostate lemma ValidAfterCreate(name: string, new t: Topic<P>)
      requires old(Valid())
      requires name !in old(topics) && topics == old(topics)[name := t]
      requires t.name == name && t.Valid()
      requires forall n :: n in old(topics) ==> unchanged(old(topics)[n])
      requires topicOrder == old(topicOrder) + [name]
      requires queue == old(queue) && queueCounter == old(queueCounter)
      ensures Valid()
    {
      assert topics.Keys == old(topics).Keys + {name};
      assert forall n :: n in old(topics) ==> topics[n] == old(topics)[n];
    }

    /** Registering a new topic object under a new name extends the snapshot
        by that topic's state and changes nothing else. */
    twostate lemma SnapshotAfterCreate(name: string, new t: Topic<P>)
      requires name !in old(topics) && topics == old(topics)[name := t]
      requires forall n :: n in old(topics) ==> unchanged(old(topics)[n])
      ensures Snapshot() == old(Snapshot())[name := t.State()]
    {
      assert forall n :: n in old(topics) ==> topics[n] == old(topics)[n];
    }

    /** `get_topic`. */
    function GetTopic(name: string): Option<Topic<P>>
      reads this
    {
      if name in topics then Some(topics[name]) else None
    }

    /** `delete_topic`: the registry forgets the topic; its counters and any
        queued messages for it are left alone. */
    method DeleteTopic(name: string) returns (deleted: bool)
      requires Valid()
      modifies this
      ensures Valid()
      ensures deleted <==> name in old(topics)
      ensures deleted ==> topics == old(topics) - {name} && topicOrder == RemoveFirst(old(topicOrder), name)
      ensures !deleted ==> topics == old(topics) && topicOrder == old(topicOrder)
      ensures Snapshot() == old(Snapshot()) - {name}
      ensures queue == old(queue) && queueCounter == old(queueCounter) && stats == old(stats) && running == old(running)
    {
      deleted := name in topics;
      if deleted {
        var remaining := topics - {name};
        var order := RemoveFirst(topicOrder, name);
        topics, topicOrder := remaining, order;
        ValidAfterDelete(name);
        SnapshotAfterDelete(name);
      } else {
        RemoveAbsentKey(Snapshot(), name);
      }
    }

    /** Dropping one name from the registry and from the creation order
        keeps the bus valid and drops just that topic from the snapshot. */
    twostate lemma ValidAfterDelete(name: string)
      requires old(Valid()) && name in old(topics)
      requires topics == old(topics) - {name} && topicOrder == RemoveFirst(old(topicOrder), name)
      requires forall n :: n in topics ==> unchanged(topics[n])
      requires queue == old(queue) && queueCounter == old(queueCounter)
      ensures Valid()
    {
      KeysAfterRemove(old(topics), name);
      assert forall n :: n in topics ==> topics[n] == old(topics)[n];
    }

    twostate lemma SnapshotAfterDelete(name: string)
      requires topics == old(topics) - {name}
      requires forall n :: n in topics ==> unchanged(topics[n])
      ensures Snapshot() == old(Snapshot()) - {name}
    {
      assert forall n :: n in topics ==> topics[n].State() == old(topics[n].State());
    }

    /** `list_topics`: every topic name once, in creation order. */
    function ListTopics(): (names: seq<string>)
      reads this, topics.Values
      requires Valid()
      ensures NoDuplicates(names)
      ensures forall n :: n in names <==> n in topics
      ensures |names| == |topics|
    {
      OrderMatchesKeys(topicOrder, topics);
      topicOrder
    }

    /** `subscribe`: creates the topic when needed, then adds the callback
        unless it is already subscribed. */
    method Subscribe(name: string, cb: Callback, now: int) returns (ok: bool)
      requires Valid()
      modifies this, topics.Values
      ensures Valid()
      ensures name in topics
      ensures topicOrder == old(topicOrder) + (if name in old(topics) then [] else [name])
      ensures ok <==> name !in old(topics) || cb !in old(topics[name].subscribers)
      ensures var before := StateOrNew(old(Snapshot()), name, now);
        Snapshot() == old(Snapshot())[name := WithSubscriber(before, cb)]
      ensures stats == old(stats).(topicsCreated := old(stats.topicsCreated) + (if name in old(topics) then 0 else 1))
      ensures queue == old(queue) && queueCounter == old(queueCounter) && running == old(running)
    {
      ghost var s0 := Snapshot();
      var t := CreateTopic(name, now);
      ghost var before := t.State();
      label Before:
      ok := t.AddSubscriber(cb);
      AfterTopicUpdate@Before(name);
      UpdateTwice(s0, name, before, WithSubscriber(before, cb));
    }

    /** `unsubscribe`: an unknown topic is not created. */
    method Unsubscribe(name: string, cb: Callback) returns (ok: bool)
      requires Valid()
      modifies topics.Values
      ensures Valid() && topics == old(topics) && topicOrder == old(topicOrder)
      ensures ok <==> name in topics && cb in old(topics[name].subscribers)
      ensures name !in topics ==> Snapshot() == old(Snapshot())
      ensures name in topics ==> Snapshot() == old(Snapshot())[name := WithoutSubscriber(old(Snapshot())[name], cb)]
    {
      ghost var s0 := Snapshot();
      if name !in topics {
        assert name !in s0;
        return false;
      }
      var t := topics[name];
      ghost var before := t.State();
      assert before == s0[name];
      ok := t.RemoveSubscriber(cb);
      AfterTopicUpdate(name);
    }

    /** Changing the one topic registered under `name` changes the snapshot
        at `name` only. */
    twostate lemma AfterTopicUpdate(name: string)
      requires name in topics && topics == old(topics) && topicOrder == old(topicOrder)
      requires old(Valid()) && topics[name].Valid()
      requires queue == old(queue) && queueCounter == old(queueCounter)
      requires forall n :: n in topics && n != name ==> unchanged(topics[n])
      ensures Valid()
      ensures Snapshot() == old(Snapshot())[name := topics[name].State()]
    {
      assert forall n :: n in topics && n != name ==> topics[n].State() == old(topics[n].State());
    }

    /** A step that leaves the registry and every topic alone keeps the
        registry valid and the snapshot as it was. */
    twostate lemma RegistryUnchanged()
      requires old(RegistryValid())
      requires topics == old(topics) && topicOrder == old(topicOrder)
      requires forall n :: n in topics ==> unchanged(topics[n])
      ensures RegistryValid()
      ensures Snapshot() == old(Snapshot())
    {
      assert forall n :: n in topics ==> topics[n].State() == old(topics[n].State());
    }

    /** The same, for a step that changes other objects' fields only:
        stated field by field, so that no object's type has to be told
        apart from a topic's. */
    twostate lemma TopicsKept()
      requires old(RegistryValid())
      requires topics == old(topics) && topicOrder == old(topicOrder)
      requires forall n :: n in topics ==>
        && topics[n].subscribers == old(topics[n].subscribers)
        && topics[n].history == old(topics[n].history)
        && topics[n].messageCount == old(topics[n].messageCount)
      ensures RegistryValid()
      ensures Snapshot() == old(Snapshot())
    {
      assert forall n :: n in topics ==> topics[n].State() == old(topics[n].State());
    }

    /** `publish`: the message joins the topic's history before the queue is
        tried, so a message the full queue rejects is still in the history
        and counted there. */
    method Publish(name: string, payload: P, priority: Priority, metadata: map<string, Value>,
                   ids: nat -> string, now: int)
      returns (r: Result<string, string>)
      requires Valid()
      modifies this, topics.Values
      ensures Valid()
      ensures name in topics
      ensures name in old(topics) ==> topics == old(topics)
      ensures topicOrder == old(topicOrder) + (if name in old(topics) then [] else [name])
      ensures var m := Message(name, payload, ids(old(queueCounter)), now, priority, metadata);
        var before := StateOrNew(old(Snapshot()), name, now);
        Snapshot() == old(Snapshot())[name := WithMessage(before, m)]
      ensures queueCounter == old(queueCounter) + 1
      ensures r.Ok? <==> !Full(|old(queue)|)
      ensures var m := Message(name, payload, ids(old(queueCounter)), now, priority, metadata);
        r.Ok? ==> (r.value == m.messageId
          && queue == old(queue) + [Entry(-PriorityValue(priority), now, old(queueCounter), m)])
      ensures r.Err? ==> r.error == QueueFullError(name) && queue == old(queue)
      ensures stats.topicsCreated == old(stats.topicsCreated) + (if name in old(topics) then 0 else 1)
      ensures stats.published == old(stats.published) + (if r.Ok? then 1 else 0)
      ensures stats.failed == old(stats.failed) + (if r.Ok? then 0 else 1)
      ensures stats.delivered == old(stats.delivered)
      ensures running == old(running)
      ensures (forall n :: n in topics ==> (n in old(topics) && topics[n] == old(topics)[n]) || fresh(topics[n]))
    {
      var m := Message(name, payload, ids(queueCounter), now, priority, metadata);
      Record(m, now);
      r := Enqueue(m, now);
    }

    /** The history half of `publish`: the topic is created when needed and
        the message is added to its history. */
    method Record(m: Message<P>, now: int)
      requires Valid()
      modifies this, topics.Values
      ensures Valid()
      ensures m.topic in topics
      ensures m.topic in old(topics) ==> topics == old(topics)
      ensures topicOrder == old(topicOrder) + (if m.topic in old(topics) then [] else [m.topic])
      ensures var before := StateOrNew(old(Snapshot()), m.topic, now);
        Snapshot() == old(Snapshot())[m.topic := WithMessage(before, m)]
      ensures stats.topicsCreated == old(stats.topicsCreated) + (if m.topic in old(topics) then 0 else 1)
      ensures stats.published == old(stats.published) && stats.failed == old(stats.failed)
      ensures stats.delivered == old(stats.delivered)
      ensures queue == old(queue) && queueCounter == old(queueCounter) && running == old(running)
      ensures (forall n :: n in topics ==> (n in old(topics) && topics[n] == old(topics)[n]) || fresh(topics[n]))
    {
      ghost var s0 := Snapshot();
      var t := CreateTopic(m.topic, now);
      ghost var before := t.State();
      label Before:
      t.AddToHistory(m);
      AfterTopicUpdate@Before(m.topic);
      UpdateTwice(s0, m.topic, before, WithMessage(before, m));
    }

    /** The queue half of `publish`: a non-blocking put of `m` under the key
        (-priority, timestamp, counter). The counter advances even when the
        queue is full. */
    method Enqueue(m: Message<P>, now: int) returns (r: Result<string, string>)
      requires Valid()
      modifies this`queue, this`queueCounter, this`stats
      ensures Valid() && topics == old(topics) && Snapshot() == old(Snapshot())
      ensures queueCounter == old(queueCounter) + 1
      ensures r.Ok? <==> !Full(|old(queue)|)
      ensures r.Ok? ==> (r.value == m.messageId
        && queue == old(queue) + [Entry(-PriorityValue(m.priority), now, old(queueCounter), m)])
      ensures r.Err? ==> r.error == QueueFullError(m.topic) && queue == old(queue)
      ensures stats.published == old(stats.published) + (if r.Ok? then 1 else 0)
      ensures stats.failed == old(stats.failed) + (if r.Ok? then 0 else 1)
      ensures stats.delivered == old(stats.delivered) && stats.topicsCreated == old(stats.topicsCreated)
      ensures running == old(running)
    {
      var counter := queueCounter;
      queueCounter := queueCounter + 1;
      if Full(|queue|) {
        stats := stats.(failed := stats.failed + 1);
        RegistryUnchanged();
        return Err(QueueFullError(m.topic));
      }
      queue := queue + [Entry(-PriorityValue(m.priority), now, counter, m)];
      stats := stats.(published := stats.published + 1);
      r := Ok(m.messageId);
      RegistryUnchanged();
    }

    /** `_process_message`: delivers `m` to a snapshot of its topic's
        subscribers; a raising callback is counted as failed and delivery
        goes on. A message whose topic is gone is dropped. */
    method ProcessMessage(m: Message<P>, raises: (Callback, Message<P>) -> bool)
      returns (attempted: seq<Callback>)
      requires Valid()
      modifies this`stats
      ensures Valid() && Snapshot() == old(Snapshot())
      ensures topics == old(topics) && topicOrder == old(topicOrder)
      ensures attempted == SubscribersOf(old(Snapshot()), m.topic)
      ensures stats == AfterDelivery(old(stats), attempted, m, raises)
    {
      if m.topic !in topics {
        return [];
      }
      var subscribers := topics[m.topic].subscribers;
      assert subscribers == Snapshot()[m.topic].subscribers;
      attempted := [];
      var i := 0;
      while i < |subscribers|
        invariant 0 <= i <= |subscribers|
        invariant attempted == subscribers[..i]
        invariant stats == old(stats).(delivered := old(stats.delivered) + Delivered(attempted, m, raises),
                                       failed := old(stats.failed) + (i - Delivered(attempted, m, raises)))
      {
        var cb := subscribers[i];
        if raises(cb, m) {
          stats := stats.(failed := stats.failed + 1);
        } else {
          stats := stats.(delivered := stats.delivered + 1);
        }
        attempted := attempted + [cb];
        assert attempted[..i] == subscribers[..i];
        i := i + 1;
      }
      assert subscribers[..i] == subscribers;
      RegistryUnchanged();
    }

    /** One iteration of the worker loop: while running, take the entry with
        the smallest key out of the queue and deliver its message. */
    method DeliverNext(raises: (Callback, Message<P>) -> bool) returns (m: Option<Message<P>>)
      requires Valid()
      modifies this`queue, this`stats
      ensures Valid()
      ensures topics == old(topics) && topicOrder == old(topicOrder) && Snapshot() == old(Snapshot())
      ensures running == old(running) && queueCounter == old(queueCounter)
      ensures !old(running) || old(queue) == [] ==> m == None && queue == old(queue) && stats == old(stats)
      ensures old(running) && old(queue) != [] ==>
        var k := MinIndex(old(queue));
        var msg := old(queue)[k].message;
        && m == Some(msg)
        && queue == RemoveAt(old(queue), k)
        && stats == AfterDelivery(old(stats), SubscribersOf(old(Snapshot()), msg.topic), msg, raises)
    {
      if !running || queue == [] {
        return None;
      }
      var e := QueueGet();
      var attempted := ProcessMessage(e.message, raises);
      m := Some(e.message);
    }

    /** `message_queue.get()`: takes out the entry with the smallest key. */
    method QueueGet() returns (e: Entry<P>)
      requires Valid() && queue != []
      modifies this`queue
      ensures Valid() && Snapshot() == old(Snapshot())
      ensures topics == old(topics) && topicOrder == old(topicOrder)
      ensures e == old(queue)[MinIndex(old(queue))]
      ensures queue == RemoveAt(old(queue), MinIndex(old(queue)))
    {
      var k := MinIndex(queue);
      e := queue[k];
      RemoveAtKeepsCounters(queue, k, queueCounter);
      queue := RemoveAt(queue, k);
      RegistryUnchanged();
    }

    /** `start`. */
    method Start()
      modifies this`running
      ensures running
    {
      running := true;
    }

    /** `stop`; the wait for the worker thread is not modelled. */
    method Stop(wait: bool, timeout: int)
      modifies this`running
      ensures !running
    {
      running := false;
    }

    /** Every topic in the snapshot is valid. */
    lemma SnapshotValid()
      requires Valid()
      ensures forall n :: n in Snapshot() ==> Snapshot()[n].Valid()
    {
    }

    /** `get_stats`. */
    function GetStats(): (r: ServiceStats)
      reads this, topics.Values
      requires Valid()
      ensures r.stats == stats && r.running == running
      ensures r.activeTopics == |ListTopics()|
      ensures r.queueSize == |queue| && (maxQueueSize > 0 ==> r.queueSize <= maxQueueSize)
    {
      ServiceStats(stats, |topics|, |queue|, running)
    }

    /** `get_topic_stats`: nothing for an unknown topic. */
    function GetTopicStats(name: string): (r: Option<TopicStats>)
      reads this, topics.Values
      requires Valid()
      ensures r.None? <==> name !in topics
      ensures r.Some? ==> r.value.name == name && r.value.historySize <= MaxHistory
      ensures r.Some? ==>
        && r.value.historySize == |Snapshot()[name].history|
        && r.value.subscribers == |Snapshot()[name].subscribers|
        && r.value.messageCount == Snapshot()[name].messageCount
    {
      if name !in topics then None
      else
        var t := topics[name];
        Some(TopicStats(t.name, |t.subscribers|, t.messageCount, |t.history|, t.createdAt))
    }

    /** `clear_topic_history`: false for an unknown topic; the message count
        survives the clearing. */
    method ClearTopicHistory(name: string) returns (ok: bool)
      requires Valid()
      modifies topics.Values
      ensures Valid()
      ensures ok <==> name in topics
      ensures !ok ==> Snapshot() == old(Snapshot())
      ensures ok ==> Snapshot() == old(Snapshot())[name := old(Snapshot())[name].(history := [])]
    {
      if name !in topics {
        return false;
      }
      var t := topics[name];
      t.ClearHistory();
      AfterTopicUpdate(name);
      ok := true;
    }
  }

  /** A list whose multiset of elements is the key set of a map lists every
      key exactly once. */
  lemma OrderMatchesKeys<V>(names: seq<string>, m: map<string, V>)
    requires multiset(names) == multiset(m.Keys)
    ensures NoDuplicates(names)
    ensures forall n :: n in names <==> n in m
    ensures |names| == |m|
  {
    assert |names| == |multiset(names)| == |multiset(m.Keys)| == |m.Keys|;
    forall n
      ensures n in names <==> n in m
    {
      assert n in names <==> n in multiset(names);
    }
    forall i, j | 0 <= i < j < |names|
      ensures names[i] != names[j]
    {
      RepeatCountsTwice(names, i, j);
    }
  }

  /** An element at two positions of a list occurs at least twice in its
      multiset. */
  lemma RepeatCountsTwice<T>(s: seq<T>, i: nat, j: nat)
    requires i < j < |s|
    ensures s[i] == s[j] ==> multiset(s)[s[i]] >= 2
  {
    assert s == s[..j] + s[j..];
    assert s[i] in s[..j] && s[j] in s[j..];
    assert multiset(s)[s[i]] == multiset(s[..j])[s[i]] + multiset(s[j..])[s[i]];
  }

  /** After `unsubscribe_all`, the callback of a recorded pair is not among
      the subscribers of its topic, if that topic exists. */
  ghost predicate Detached<P>(snap: map<string, TopicState<P>>, pair: (string, Callback))
  {
    pair.0 in snap ==> pair.1 !in snap[pair.0].subscribers
  }

  /** Removing the callback of pair `i` from its topic keeps pairs `0..i-1`
      unsubscribed and makes pair `i` unsubscribed too. */
  lemma UnsubscribeKeepsOthers<P>(before: map<string, TopicState<P>>, after: map<string, TopicState<P>>,
                                  pairs: seq<(string, Callback)>, i: nat)
    requires i < |pairs|
    requires pairs[i].0 in before ==> before[pairs[i].0].Valid()
    requires after == Unsubscribed(before, pairs[i].0, pairs[i].1)
    requires forall k :: 0 <= k < i ==> Detached(before, pairs[k])
    ensures forall k :: 0 <= k <= i ==> Detached(after, pairs[k])
  {
    DetachesPair(before, pairs[i].0, pairs[i].1);
    forall k | 0 <= k < i
      ensures Detached(after, pairs[k])
    {
      KeepsDetached(before, pairs[i].0, pairs[i].1, pairs[k]);
    }
  }

  /** `unsubscribe(name, cb)` leaves `cb` off the subscribers of `name`. */
  lemma DetachesPair<P>(before: map<string, TopicState<P>>, name: string, cb: Callback)
    requires name in before ==> before[name].Valid()
    ensures Detached(Unsubscribed(before, name, cb), (name, cb))
  {
    if name in before {
      RemoveFirstFromNoDuplicates(before[name].subscribers, cb);
    }
  }

  /** `unsubscribe` never puts a callback back on a topic. */
  lemma KeepsDetached<P>(before: map<string, TopicState<P>>, name: string, cb: Callback, pair: (string, Callback))
    requires name in before ==> before[name].Valid()
    requires Detached(before, pair)
    ensures Detached(Unsubscribed(before, name, cb), pair)
  {
    if name in before && pair.0 == name {
      RemoveFirstFromNoDuplicates(before[name].subscribers, cb);
    }
  }

  /** `unsubscribe` of each pair in turn, first to last. */
  function UnsubscribedAll<P>(snap: map<string, TopicState<P>>, pairs: seq<(string, Callback)>): map<string, TopicState<P>>
    decreases |pairs|
  {
    if pairs == [] then snap
    else
      var last := pairs[|pairs| - 1];
      Unsubscribed(UnsubscribedAll(snap, pairs[..|pairs| - 1]), last.0, last.1)
  }

  /** Undoing a list of subscriptions creates and deletes no topic, touches
      no history and no message count, and keeps every subscription that is
      not on the list. */
  lemma {:induction false} UnsubscribedAllKeeps<P>(snap: map<string, TopicState<P>>, pairs: seq<(string, Callback)>)
    ensures var after := UnsubscribedAll(snap, pairs);
      && after.Keys == snap.Keys
      && (forall n :: n in snap ==> after[n] == snap[n].(subscribers := after[n].subscribers))
      && (forall n, cb :: n in snap && (n, cb) !in pairs ==> (cb in after[n].subscribers <==> cb in snap[n].subscribers))
  {
    if pairs != [] {
      var init, last := pairs[..|pairs| - 1], pairs[|pairs| - 1];
      assert pairs == init + [last];
      UnsubscribedAllKeeps(snap, init);
      var mid := UnsubscribedAll(snap, init);
      var after := UnsubscribedAll(snap, pairs);
      assert after == Unsubscribed(mid, last.0, last.1);
      forall n, cb | n in snap && (n, cb) !in pairs
        ensures cb in after[n].subscribers <==> cb in snap[n].subscribers
      {
        assert (n, cb) !in init;
        if n == last.0 {
          assert cb != last.1;
          assert multiset(after[n].subscribers)[cb] == multiset(mid[n].subscribers)[cb];
        }
      }
    }
  }

  /** One more pair undone is one more `unsubscribe`. */
  lemma UnsubscribedAllSnoc<P>(snap: map<string, TopicState<P>>, pairs: seq<(string, Callback)>, i: nat)
    requires i < |pairs|
    ensures UnsubscribedAll(snap, pairs[..i + 1]) == Unsubscribed(UnsubscribedAll(snap, pairs[..i]), pairs[i].0, pairs[i].1)
  {
    assert pairs[..i + 1][..i] == pairs[..i];
  }

  /** After undoing a list of subscriptions on a valid registry, the
      registry is still valid and no pair of the list is subscribed. */
  lemma {:induction false} UnsubscribedAllDetaches<P>(snap: map<string, TopicState<P>>, pairs: seq<(string, Callback)>)
    requires forall n :: n in snap ==> snap[n].Valid()
    ensures var after := UnsubscribedAll(snap, pairs);
      && (forall n :: n in after ==> after[n].Valid())
      && (forall k :: 0 <= k < |pairs| ==> Detached(after, pairs[k]))
  {
    if pairs != [] {
      var init, last := pairs[..|pairs| - 1], pairs[|pairs| - 1];
      UnsubscribedAllDetaches(snap, init);
      var mid := UnsubscribedAll(snap, init);
      var after := Unsubscribed(mid, last.0, last.1);
      assert UnsubscribedAll(snap, pairs) == after;
      if last.0 in mid {
        RemoveFirstFromNoDuplicates(mid[last.0].subscribers, last.1);
        assert after[last.0].Valid();
      }
      forall k | 0 <= k < |pairs| - 1
        ensures Detached(mid, pairs[k])
      {
        assert pairs[k] == init[k];
      }
      UnsubscribeKeepsOthers(mid, after, pairs, |pairs| - 1);
    }
  }

  /** `topic or default`: a given non-empty topic wins, otherwise the default. */
  function ChooseTopic(topic: Option<string>, default: Option<string>): (r: Option<string>)
    ensures r.Some? && r != default ==> r == topic && topic.value != ""
    ensures topic.Some? && topic.value != "" ==> r == topic
    ensures !(topic.Some? && topic.value != "") ==> r == default
    ensures r.None? <==> (topic.None? || topic.value == "") && default.None?
  {
    if topic.Some? && topic.value != "" then topic else default
  }

  /** `Publisher`: publishes to a default topic unless told otherwise. */
  class Publisher<P> {
    const service: PubSubService<P>
    const defaultTopic: Option<string>

    constructor (service: PubSubService<P>, defaultTopic: Option<string>)
      ensures this.service == service && this.defaultTopic == defaultTopic
    {
      this.service := service;
      this.defaultTopic := defaultTopic;
    }

    /** Raises when there is neither a topic nor a default; otherwise it is
        the service's `publish` on the chosen topic. */
    method Publish(payload: P, topic: Option<string>, priority: Priority, metadata: map<string, Value>,
                   ids: nat -> string, now: int)
      returns (r: Result<string, string>)
      requires service.Valid()
      modifies service, service.topics.Values
      ensures service.Valid()
      ensures ChooseTopic(topic, defaultTopic).None? ==>
        r == Err("Topic must be specified") && unchanged(service) && service.Snapshot() == old(service.Snapshot())
      ensures ChooseTopic(topic, defaultTopic).Some? ==>
        var name := ChooseTopic(topic, defaultTopic).value;
        var m := Message(name, payload, ids(old(service.queueCounter)), now, priority, metadata);
        var before := StateOrNew(old(service.Snapshot()), name, now);
        && service.Snapshot() == old(service.Snapshot())[name := WithMessage(before, m)]
        && service.queueCounter == old(service.queueCounter) + 1
        && (r.Ok? <==> !service.Full(|old(service.queue)|))
        && (r.Ok? ==> (r.value == m.messageId
              && service.queue == old(service.queue) + [Entry(-PriorityValue(priority), now, old(service.queueCounter), m)]))
        && (r.Err? ==> r.error == QueueFullError(name) && service.queue == old(service.queue))
        && service.topicOrder == old(service.topicOrder) + (if name in old(service.topics) then [] else [name])
        && service.stats.topicsCreated == old(service.stats.topicsCreated) + (if name in old(service.topics) then 0 else 1)
        && service.stats.published == old(service.stats.published) + (if r.Ok? then 1 else 0)
        && service.stats.failed == old(service.stats.failed) + (if r.Ok? then 0 else 1)
        && service.stats.delivered == old(service.stats.delivered)
      ensures service.running == old(service.running)
      ensures (forall n :: n in service.topics ==> (n in old(service.topics) && service.topics[n] == old(service.topics)[n]) || fresh(service.topics[n]))
    {
      var name := ChooseTopic(topic, defaultTopic);
      if name.None? {
        return Err("Topic must be specified");
      }
      r := service.Publish(name.value, payload, priority, metadata, ids, now);
    }
  }

  /** `Subscriber`: remembers each subscription it made so that it can
      undo all of them. */
  class Subscriber<P> {
    const service: PubSubService<P>
    var subscriptions: seq<(string, Callback)>

    constructor (service: PubSubService<P>)
      ensures this.service == service && subscriptions == []
    {
      this.service := service;
      subscriptions := [];
    }

    /** Records the pair only when the service accepted it. */
    method Subscribe(name: string, cb: Callback, now: int) returns (ok: bool)
      requires service.Valid()
      modifies this, service, service.topics.Values
      ensures service.Valid()
      ensures ok <==> name !in old(service.topics) || cb !in old(service.topics[name].subscribers)
      ensures var before := StateOrNew(old(service.Snapshot()), name, now);
        service.Snapshot() == old(service.Snapshot())[name := WithSubscriber(before, cb)]
      ensures subscriptions == if ok then old(subscriptions) + [(name, cb)] else old(subscriptions)
      ensures service.topicOrder == old(service.topicOrder) + (if name in old(service.topics) then [] else [name])
      ensures service.stats == old(service.stats).(topicsCreated := old(service.stats.topicsCreated) + (if name in old(service.topics) then 0 else 1))
      ensures service.queue == old(service.queue) && service.queueCounter == old(service.queueCounter)
      ensures service.running == old(service.running)
    {
      ok := service.Subscribe(name, cb, now);
      label Subscribed:
      if ok {
        subscriptions := subscriptions + [(name, cb)];
      }
      service.RegistryUnchanged@Subscribed();
    }

    /** `unsubscribe_all`: afterwards no recorded callback is subscribed to
        its recorded topic, and nothing is recorded any more. */
    method UnsubscribeAll()
      requires service.Valid()
      modifies this`subscriptions, service.topics.Values
      ensures service.Valid()
      ensures subscriptions == []
      ensures service.topics == old(service.topics)
      ensures service.Snapshot() == UnsubscribedAll(old(service.Snapshot()), old(subscriptions))
      ensures forall i :: 0 <= i < |old(subscriptions)| ==> Detached(service.Snapshot(), old(subscriptions)[i])
    {
      var pairs := subscriptions;
      ghost var s0 := service.Snapshot();
      service.SnapshotValid();
      var i := 0;
      while i < |pairs|
        invariant 0 <= i <= |pairs|
        invariant service.Valid()
        invariant service.topics == old(service.topics)
        invariant service.Snapshot() == UnsubscribedAll(s0, pairs[..i])
      {
        var _ := service.Unsubscribe(pairs[i].0, pairs[i].1);
        UnsubscribedAllSnoc(s0, pairs, i);
        i := i + 1;
      }
      assert pairs[..i] == pairs;
      UnsubscribedAllDetaches(s0, pairs);
      label Done:
      subscriptions := [];
      service.RegistryUnchanged@Done();
    }
  }
}
