/** `RedisBus`, the ioredis variant of the Redis-backed bus. The two
    client connections are folded into one shared `RedisStore`; the
    pmessage handler is the method `HandleNotification`, called once per
    notification the subscriber connection receives. */
module IORedisBus {
  import opened JsValues
  import opened Listeners
  import opened Naming
  import opened RedisModel

  class RedisBus {
    const store: RedisStore
    const prefix: string
    /** The `subscriptions` emitter: channel to listeners. */
    var registry: Registry
    /** Every listener call this process made, in order. */
    var log: seq<Delivery>

    /** Listeners are only ever registered under channels of this bus. */
    ghost predicate Valid()
      reads this
    {
      NoEmptyEntries(registry) && forall ch :: ch in registry ==> StartsWith(ch, prefix)
    }

    constructor (store: RedisStore, opts: Option<BusOptions>)
      ensures Valid() && this.store == store && prefix == PrefixOf(opts)
      ensures registry == map[] && log == []
    {
      this.store := store;
      prefix := PrefixOf(opts);
      registry := map[];
      log := [];
    }

    /** The channel of `topic` on a bus built without options. */
    static function DefaultChannel(topic: string): string
    {
      ChannelName(PrefixOf(None), topic)
    }

    function ToChannelName(topic: string): (c: string)
      ensures StartsWith(c, prefix) && c[|prefix|..] == topic
    {
      ChannelName(prefix, topic)
    }

    /** `pushFault`: the LPUSH reply is an error; `publishFault`: the
        PUBLISH, sent without a callback, fails. */
    method Publish(topic: string, message: string, broadcast: bool, pushFault: bool, publishFault: bool)
      requires store.Valid()
      modifies store
      ensures store.Valid()
      ensures var e := PublishEffect(old(store.lists), ToChannelName(topic), message, broadcast, pushFault, publishFault);
              store.lists == e.lists && store.published == old(store.published) + e.sent
    {
      var channel := ToChannelName(topic);
      if broadcast {
        store.Publish(channel, message, publishFault);
        return;
      }
      var err := store.LPush(channel, message, pushFault);
      if err {
        return;
      }
      store.Publish(channel, channel, publishFault);
    }

    /** The pmessage handler; `popFault`: the RPOP reply is an error. */
    method HandleNotification(channel: string, message: string, popFault: bool) returns (outcome: Outcome)
      requires store.Valid()
      modifies this`log, store
      ensures store.Valid() && store.published == old(store.published)
      ensures var h := Handle(registry, old(store.lists), Notification(channel, message), popFault);
              store.lists == h.lists && log == old(log) + h.deliveries && outcome == h.outcome
      ensures Valid() && !StartsWith(channel, prefix) ==>
                outcome == Ignored && store.lists == old(store.lists) && log == old(log)
    {
      var ls := ListenersOf(registry, channel);
      if |ls| == 0 {
        return Ignored;
      }
      if channel != message {
        log := log + Fanout(ls, message);
        return Forwarded;
      }
      var listener := ls[0];
      var popped, err := store.RPop(channel, popFault);
      if popped.Some? && Truthy(popped.value) {
        log := log + [Delivery(listener, popped.value)];
        outcome := Claimed(popped.value);
      } else if err {
        outcome := PopFailed;
      } else {
        outcome := NothingToForward;
      }
    }

    method Subscribe(topic: string, listener: ListenerId)
      requires Valid()
      modifies this`registry
      ensures Valid() && registry == On(old(registry), ToChannelName(topic), listener)
    {
      registry := On(registry, ToChannelName(topic), listener);
    }

    method Unsubscribe(topic: string, listener: ListenerId)
      requires Valid()
      modifies this`registry
      ensures Valid() && registry == Off(old(registry), ToChannelName(topic), listener)
    {
      registry := Off(registry, ToChannelName(topic), listener);
    }

    /** A truthy topic clears its channel; an absent or empty one clears all. */
    method UnsubscribeAll(topic: Option<string>)
      requires Valid()
      modifies this`registry
      ensures Valid()
      ensures OptTruthy(topic) ==> registry == RemoveAll(old(registry), ToChannelName(topic.value))
      ensures !OptTruthy(topic) ==> registry == map[]
    {
      if OptTruthy(topic) {
        registry := RemoveAll(registry, ToChannelName(topic.value));
      } else {
        registry := map[];
      }
    }

    /** Clears every listener; closing the connections is not modelled. */
    method Destroy()
      requires Valid()
      modifies this`registry
      ensures Valid() && registry == map[]
    {
      UnsubscribeAll(None);
    }
  }

  /** Publishes `msgs` through `bus`, in order, every LPUSH succeeding. */
  method PublishEach(bus: RedisBus, topic: string, msgs: seq<string>, broadcast: bool)
    requires bus.store.Valid()
    modifies bus.store
    ensures bus.store.Valid()
    ensures var p := PublishAll(old(bus.store.lists), bus.ToChannelName(topic), msgs, broadcast);
            bus.store.lists == p.lists && bus.store.published == old(bus.store.published) + p.sent
    decreases |msgs|
  {
    if msgs != [] {
      bus.Publish(topic, msgs[0], broadcast, false, false);
      PublishEach(bus, topic, msgs[1..], broadcast);
    }
  }

  /** Feeds the handler of `bus` the notifications `ns`, in order, every
      RPOP succeeding. */
  method ReceiveEach(bus: RedisBus, ns: seq<Notification>)
    requires bus.store.Valid()
    modifies bus`log, bus.store
    ensures bus.store.Valid() && bus.store.published == old(bus.store.published)
    ensures var run := HandleAll(bus.registry, old(bus.store.lists), ns);
            bus.store.lists == run.lists && bus.log == old(bus.log) + run.deliveries
    decreases |ns|
  {
    if ns != [] {
      var n := ns[0];
      assert Notification(n.channel, n.payload) == n;
      ghost var h := Handle(bus.registry, bus.store.lists, n, false);
      var outcome := bus.HandleNotification(n.channel, n.payload, false);
      assert bus.store.lists == h.lists && bus.log == old(bus.log) + h.deliveries;
      ReceiveEach(bus, ns[1..]);
      ghost var rest := HandleAll(bus.registry, h.lists, ns[1..]);
      assert bus.store.lists == rest.lists && bus.log == old(bus.log) + h.deliveries + rest.deliveries;
    }
  }

  /** One round of the tests: `PublishEach`, then `ReceiveEach` of the
      notifications those publishes sent. */
  method PublishThenReceive(bus: RedisBus, topic: string, msgs: seq<string>, broadcast: bool)
    requires bus.store.Valid()
    modifies bus`log, bus.store
    ensures bus.store.Valid()
    ensures var p := PublishAll(old(bus.store.lists), bus.ToChannelName(topic), msgs, broadcast);
            var run := HandleAll(bus.registry, p.lists, p.sent);
            bus.store.lists == run.lists && bus.log == old(bus.log) + run.deliveries
  {
    var pub0 := bus.store.published;
    PublishEach(bus, topic, msgs, broadcast);
    var sent := bus.store.published[|pub0|..];
    ReceiveEach(bus, sent);
  }

  /** Two listeners on a topic, then unicast publishes of truthy messages
      (the tests use `hello` and four messages): the first listener gets
      them all, in order, the second none. */
  method ForwardToOneReceiver(topic: string, msgs: seq<string>) returns (log: seq<Delivery>)
    requires forall i :: 0 <= i < |msgs| ==> Truthy(msgs[i])
    ensures ReceivedBy(log, 1) == msgs
    ensures ReceivedBy(log, 2) == []
  {
    var store := new RedisStore();
    var bus := new RedisBus(store, None);
    bus.Subscribe(topic, 1);
    bus.Subscribe(topic, 2);
    var ch := bus.ToChannelName(topic);
    assert ListenersOf(bus.registry, ch) == [1, 2];
    var l0 := store.lists;
    assert ListAt(l0, ch) == [];
    assert bus.log == [];
    PublishThenReceive(bus, topic, msgs, false);
    log := bus.log;
    ghost var p := PublishAll(l0, ch, msgs, false);
    ghost var run := HandleAll(bus.registry, p.lists, p.sent);
    assert log == run.deliveries;
    UnicastRound(bus.registry, l0, ch, msgs, 1);
    assert ReceivedBy(run.deliveries, 1) == msgs;
    UnicastRound(bus.registry, l0, ch, msgs, 2);
  }

  /** Two listeners on a topic; unicast publishes of `first`; the first
      listener unsubscribes; unicast publishes of `second`: the first
      listener got `first`, the second listener `second`. */
  method NoForwardAfterUnsubscribe(topic: string, first: seq<string>, second: seq<string>) returns (log: seq<Delivery>)
    requires forall i :: 0 <= i < |first| ==> Truthy(first[i])
    requires forall i :: 0 <= i < |second| ==> Truthy(second[i])
    ensures ReceivedBy(log, 1) == first
    ensures ReceivedBy(log, 2) == second
  {
    var store := new RedisStore();
    var bus := new RedisBus(store, None);
    bus.Subscribe(topic, 1);
    bus.Subscribe(topic, 2);
    var ch := bus.ToChannelName(topic);
    var before := bus.registry;
    assert ListenersOf(before, ch) == [1, 2];
    var l0 := store.lists;
    assert ListAt(l0, ch) == [];
    assert bus.log == [];
    PublishThenReceive(bus, topic, first, false);
    var early := bus.log;
    ghost var p1 := PublishAll(l0, ch, first, false);
    ghost var run1 := HandleAll(before, p1.lists, p1.sent);
    assert early == run1.deliveries;
    UnicastRound(before, l0, ch, first, 1);
    UnicastRound(before, l0, ch, first, 2);
    var mid := store.lists;
    assert ListAt(mid, ch) == [];
    bus.Unsubscribe(topic, 1);
    var after := bus.registry;
    OffFirstPromotesNext(before, ch);
    assert ListenersOf(after, ch) == [2];
    PublishThenReceive(bus, topic, second, false);
    log := bus.log;
    ghost var p2 := PublishAll(mid, ch, second, false);
    ghost var run2 := HandleAll(after, p2.lists, p2.sent);
    assert log == early + run2.deliveries;
    UnicastRound(after, mid, ch, second, 1);
    UnicastRound(after, mid, ch, second, 2);
    ReceivedByAppend(early, run2.deliveries, 1);
    ReceivedByAppend(early, run2.deliveries, 2);
  }

  /** Two listeners on a topic, then broadcast publishes of messages
      other than the channel name: both listeners get them all, in order. */
  method BroadcastToAll(topic: string, msgs: seq<string>) returns (log: seq<Delivery>)
    requires forall i :: 0 <= i < |msgs| ==> msgs[i] != RedisBus.DefaultChannel(topic)
    ensures ReceivedBy(log, 1) == msgs
    ensures ReceivedBy(log, 2) == msgs
  {
    var store := new RedisStore();
    var bus := new RedisBus(store, None);
    bus.Subscribe(topic, 1);
    bus.Subscribe(topic, 2);
    var ch := bus.ToChannelName(topic);
    var r := bus.registry;
    assert ListenersOf(r, ch) == [1, 2];
    var l0 := store.lists;
    assert bus.log == [];
    PublishThenReceive(bus, topic, msgs, true);
    log := bus.log;
    ghost var p := PublishAll(l0, ch, msgs, true);
    ghost var run := HandleAll(r, p.lists, p.sent);
    assert log == run.deliveries;
    BroadcastRound(r, l0, ch, msgs, 1);
    BroadcastRound(r, l0, ch, msgs, 2);
  }

  /** Two listeners on a topic; broadcasts of `first`; the first listener
      unsubscribes; broadcasts of `second`: the first listener got
      `first`, the second `first` then `second`. */
  method NoBroadcastAfterUnsubscribe(topic: string, first: seq<string>, second: seq<string>) returns (log: seq<Delivery>)
    requires forall i :: 0 <= i < |first| ==> first[i] != RedisBus.DefaultChannel(topic)
    requires forall i :: 0 <= i < |second| ==> second[i] != RedisBus.DefaultChannel(topic)
    ensures ReceivedBy(log, 1) == first
    ensures ReceivedBy(log, 2) == first + second
  {
    var store := new RedisStore();
    var bus := new RedisBus(store, None);
    bus.Subscribe(topic, 1);
    bus.Subscribe(topic, 2);
    var ch := bus.ToChannelName(topic);
    var before := bus.registry;
    assert ListenersOf(before, ch) == [1, 2];
    var l0 := store.lists;
    assert bus.log == [];
    PublishThenReceive(bus, topic, first, true);
    var early := bus.log;
    ghost var p1 := PublishAll(l0, ch, first, true);
    ghost var run1 := HandleAll(before, p1.lists, p1.sent);
    assert early == run1.deliveries;
    BroadcastRound(before, l0, ch, first, 1);
    BroadcastRound(before, l0, ch, first, 2);
    bus.Unsubscribe(topic, 1);
    var after := bus.registry;
    OffFirstPromotesNext(before, ch);
    assert ListenersOf(after, ch) == [2];
    var mid := store.lists;
    PublishThenReceive(bus, topic, second, true);
    log := bus.log;
    ghost var p2 := PublishAll(mid, ch, second, true);
    ghost var run2 := HandleAll(after, p2.lists, p2.sent);
    assert log == early + run2.deliveries;
    BroadcastRound(after, mid, ch, second, 1);
    BroadcastRound(after, mid, ch, second, 2);
    ReceivedByAppend(early, run2.deliveries, 1);
    ReceivedByAppend(early, run2.deliveries, 2);
  }

  /** Two processes share one Redis. Both have a listener on `hello`; one
      unicast publish; both handlers receive its pop signal. The item is
      delivered exactly once: to the process that pops first. */
  method ClaimOnceAcrossProcesses() returns (log1: seq<Delivery>, log2: seq<Delivery>)
    ensures log1 == [Delivery(1, "job")] && log2 == []
  {
    var store := new RedisStore();
    var bus1 := new RedisBus(store, None);
    var bus2 := new RedisBus(store, None);
    bus1.Subscribe("hello", 1);
    bus2.Subscribe("hello", 2);
    var ch := bus1.ToChannelName("hello");
    assert bus2.ToChannelName("hello") == ch;
    assert ListenersOf(bus1.registry, ch) == [1];
    assert ListenersOf(bus2.registry, ch) == [2];
    bus1.Publish("hello", "job", false, false, false);
    assert store.published == [Notification(ch, ch)];
    assert Queue(store.lists, ch) == ["job"];
    var n := store.published[0];
    var o1 := bus1.HandleNotification(n.channel, n.payload, false);
    assert Queue(store.lists, ch) == [];
    var o2 := bus2.HandleNotification(n.channel, n.payload, false);
    log1, log2 := bus1.log, bus2.log;
  }
}
