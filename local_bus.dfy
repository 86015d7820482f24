/** The in-process bus: one listener registry, listeners called directly. */
module InProcess {
  import opened JsValues
  import opened Listeners

  /** The listener calls one `publish` makes on a registry. */
  function PublishDeliveries(r: Registry, topic: string, message: string, broadcast: bool): (d: seq<Delivery>)
    ensures ListenersOf(r, topic) == [] ==> d == []
    ensures broadcast ==> |d| == |ListenersOf(r, topic)|
    ensures broadcast ==> forall i :: 0 <= i < |d| ==> d[i] == Delivery(ListenersOf(r, topic)[i], message)
    ensures !broadcast ==> |d| <= 1
    ensures !broadcast && ListenersOf(r, topic) != [] ==> d == [Delivery(ListenersOf(r, topic)[0], message)]
  {
    var ls := ListenersOf(r, topic);
    if |ls| == 0 then []
    else if broadcast then Fanout(ls, message)
    else [Delivery(ls[0], message)]
  }

  /** The calls made by publishing `msgs` one after another; publishing
      never changes the registry, so every publish sees `r`. */
  function PublishSeries(r: Registry, topic: string, msgs: seq<string>, broadcast: bool): seq<Delivery>
  {
    if msgs == [] then []
    else PublishDeliveries(r, topic, msgs[0], broadcast) + PublishSeries(r, topic, msgs[1..], broadcast)
  }

  /** The registry after `unsubscribeAll(topic)`: a truthy topic clears
      that topic, an absent or empty one clears every topic. */
  function UnsubscribeAllRegistry(r: Registry, topic: Option<string>): (r': Registry)
    ensures !OptTruthy(topic) ==> forall name :: ListenersOf(r', name) == []
    ensures OptTruthy(topic) ==> ListenersOf(r', topic.value) == []
    ensures OptTruthy(topic) ==> forall name :: name != topic.value ==> ListenersOf(r', name) == ListenersOf(r, name)
    ensures NoEmptyEntries(r) ==> NoEmptyEntries(r')
  {
    if OptTruthy(topic) then RemoveAll(r, topic.value) else map[]
  }

  class LocalBus {
    /** The emitter's state: topic to listeners. */
    var registry: Registry
    /** Every listener call made so far, in order. */
    var log: seq<Delivery>

    ghost predicate Valid()
      reads this
    {
      NoEmptyEntries(registry)
    }

    constructor ()
      ensures Valid() && registry == map[] && log == []
    {
      registry := map[];
      log := [];
    }

    method Destroy()
      requires Valid()
      modifies this
      ensures Valid() && log == old(log)
      ensures forall name :: ListenersOf(registry, name) == []
    {
      UnsubscribeAll(None);
    }

    method Publish(topic: string, message: string, broadcast: bool)
      modifies this`log
      ensures log == old(log) + PublishDeliveries(registry, topic, message, broadcast)
    {
      var ls := ListenersOf(registry, topic);
      if |ls| == 0 {
        return;
      }
      if broadcast {
        log := log + Fanout(ls, message);
        return;
      }
      var listener := ls[0];
      log := log + [Delivery(listener, message)];
    }

    method Subscribe(topic: string, listener: ListenerId)
      requires Valid()
      modifies this`registry
      ensures Valid() && registry == On(old(registry), topic, listener)
    {
      registry := On(registry, topic, listener);
    }

    method Unsubscribe(topic: string, listener: ListenerId)
      requires Valid()
      modifies this`registry
      ensures Valid() && registry == Off(old(registry), topic, listener)
    {
      registry := Off(registry, topic, listener);
    }

    method UnsubscribeAll(topic: Option<string>)
      requires Valid()
      modifies this`registry
      ensures Valid() && registry == UnsubscribeAllRegistry(old(registry), topic)
    {
      if OptTruthy(topic) {
        registry := RemoveAll(registry, topic.value);
      } else {
        registry := map[];
      }
    }
  }

  /** Unicast publishes all go to the first-registered listener, in
      publish order, and to no other listener. */
  lemma {:induction false} UnicastGoesToFirst(r: Registry, topic: string, msgs: seq<string>, l: ListenerId)
    requires ListenersOf(r, topic) != []
    ensures ReceivedBy(PublishSeries(r, topic, msgs, false), l)
            == if l == ListenersOf(r, topic)[0] then msgs else []
  {
    if msgs != [] {
      var first := PublishDeliveries(r, topic, msgs[0], false);
      ReceivedByAppend(first, PublishSeries(r, topic, msgs[1..], false), l);
      UnicastGoesToFirst(r, topic, msgs[1..], l);
      assert msgs == [msgs[0]] + msgs[1..];
    }
  }

  /** Broadcast publishes reach every listener registered once, each
      message once and in publish order; an unregistered listener gets
      nothing. */
  lemma {:induction false} BroadcastReachesAll(r: Registry, topic: string, msgs: seq<string>, l: ListenerId)
    requires multiset(ListenersOf(r, topic))[l] <= 1
    ensures ReceivedBy(PublishSeries(r, topic, msgs, true), l)
            == if l in ListenersOf(r, topic) then msgs else []
    decreases |msgs|
  {
    if msgs != [] {
      var ls := ListenersOf(r, topic);
      var first := PublishDeliveries(r, topic, msgs[0], true);
      var rest := PublishSeries(r, topic, msgs[1..], true);
      assert ReceivedBy(rest, l) == if l in ls then msgs[1..] else [] by {
        BroadcastReachesAll(r, topic, msgs[1..], l);
      }
      assert ReceivedBy(first, l) == if l in ls then [msgs[0]] else [] by {
        if ls != [] {
          assert first == Fanout(ls, msgs[0]);
          ReceivedByFanout(ls, msgs[0], l);
        }
      }
      ReceivedByAppend(first, rest, l);
      assert msgs == [msgs[0]] + msgs[1..];
    }
  }

  /** Publishing to a topic without listeners calls nobody. */
  lemma {:induction false} NoListenersNoCalls(r: Registry, topic: string, msgs: seq<string>, broadcast: bool)
    requires ListenersOf(r, topic) == []
    ensures PublishSeries(r, topic, msgs, broadcast) == []
  {
    if msgs != [] {
      NoListenersNoCalls(r, topic, msgs[1..], broadcast);
    }
  }

  /** A listener registered once never hears of a topic after it has
      unsubscribed from it. */
  lemma UnsubscribedHearsNothing(r: Registry, topic: string, l: ListenerId, message: string, broadcast: bool)
    requires multiset(ListenersOf(r, topic))[l] <= 1
    ensures ReceivedBy(PublishDeliveries(Off(r, topic, l), topic, message, broadcast), l) == []
  {
    var r' := Off(r, topic, l);
    OffRemovesSingle(r, topic, l);
    var ls := ListenersOf(r', topic);
    if ls != [] {
      if broadcast {
        ReceivedByFanout(ls, message, l);
      } else {
        assert PublishDeliveries(r', topic, message, broadcast) == [Delivery(ls[0], message)];
        assert ls[0] in ls;
      }
    }
  }

  /** Unicast publishes before and after the first of two listeners
      unsubscribes: the first hears only the earlier messages, the second
      only the later ones. */
  lemma UnicastAcrossUnsubscribe(before: Registry, topic: string, l1: ListenerId, l2: ListenerId,
                                 early: seq<string>, late: seq<string>)
    requires ListenersOf(before, topic) == [l1, l2] && l1 != l2
    ensures var after := Off(before, topic, l1);
            var log := PublishSeries(before, topic, early, false) + PublishSeries(after, topic, late, false);
            ReceivedBy(log, l1) == early && ReceivedBy(log, l2) == late
  {
    var after := Off(before, topic, l1);
    OffFirstPromotesNext(before, topic);
    assert ListenersOf(after, topic) == [l2];
    var a, b := PublishSeries(before, topic, early, false), PublishSeries(after, topic, late, false);
    ReceivedByAppend(a, b, l1);
    ReceivedByAppend(a, b, l2);
    UnicastGoesToFirst(before, topic, early, l1);
    UnicastGoesToFirst(before, topic, early, l2);
    UnicastGoesToFirst(after, topic, late, l1);
    UnicastGoesToFirst(after, topic, late, l2);
  }

  /** Publishes `msgs` through `bus`, one after another. */
  method PublishEach(bus: LocalBus, topic: string, msgs: seq<string>, broadcast: bool)
    modifies bus`log
    ensures bus.log == old(bus.log) + PublishSeries(bus.registry, topic, msgs, broadcast)
    decreases |msgs|
  {
    if msgs != [] {
      bus.Publish(topic, msgs[0], broadcast);
      PublishEach(bus, topic, msgs[1..], broadcast);
    }
  }

  /** Two listeners on a topic, then unicast publishes (the tests use
      `hello` and four messages): the first listener gets every message,
      in order, the second none. */
  method ForwardToOneReceiver(topic: string, msgs: seq<string>) returns (log: seq<Delivery>)
    ensures ReceivedBy(log, 1) == msgs
    ensures ReceivedBy(log, 2) == []
  {
    var bus := new LocalBus();
    bus.Subscribe(topic, 1);
    bus.Subscribe(topic, 2);
    var r := bus.registry;
    assert ListenersOf(r, topic) == [1, 2];
    assert bus.log == [];
    PublishEach(bus, topic, msgs, false);
    log := bus.log;
    assert log == PublishSeries(r, topic, msgs, false);
    UnicastGoesToFirst(r, topic, msgs, 1);
    UnicastGoesToFirst(r, topic, msgs, 2);
  }

  /** Two listeners on a topic; unicast publishes of `first`; the first
      listener unsubscribes; unicast publishes of `second`: the first
      listener got `first`, the second `second`. */
  method NoForwardAfterUnsubscribe(topic: string, first: seq<string>, second: seq<string>) returns (log: seq<Delivery>)
    ensures ReceivedBy(log, 1) == first
    ensures ReceivedBy(log, 2) == second
  {
    var bus := new LocalBus();
    bus.Subscribe(topic, 1);
    bus.Subscribe(topic, 2);
    var before := bus.registry;
    assert ListenersOf(before, topic) == [1, 2];
    assert bus.log == [];
    PublishEach(bus, topic, first, false);
    var early := bus.log;
    assert early == PublishSeries(before, topic, first, false);
    bus.Unsubscribe(topic, 1);
    var after := bus.registry;
    PublishEach(bus, topic, second, false);
    log := bus.log;
    assert log == early + PublishSeries(after, topic, second, false);
    UnicastAcrossUnsubscribe(before, topic, 1, 2, first, second);
  }

  /** Two listeners on a topic, then broadcast publishes: both get every
      message, in order. */
  method BroadcastToAll(topic: string, msgs: seq<string>) returns (log: seq<Delivery>)
    ensures ReceivedBy(log, 1) == msgs
    ensures ReceivedBy(log, 2) == msgs
  {
    var bus := new LocalBus();
    bus.Subscribe(topic, 1);
    bus.Subscribe(topic, 2);
    var r := bus.registry;
    var ls := ListenersOf(r, topic);
    assert ls == [1, 2];
    assert multiset(ls)[1] == 1 && multiset(ls)[2] == 1;
    assert bus.log == [];
    PublishEach(bus, topic, msgs, true);
    log := bus.log;
    assert log == PublishSeries(r, topic, msgs, true);
    BroadcastReachesAll(r, topic, msgs, 1);
    BroadcastReachesAll(r, topic, msgs, 2);
  }

  /** Two listeners on a topic; broadcasts of `first`; the first listener
      unsubscribes; broadcasts of `second`: the first listener got
      `first`, the second `first` and then `second`. */
  method NoBroadcastAfterUnsubscribe(topic: string, first: seq<string>, second: seq<string>) returns (log: seq<Delivery>)
    ensures ReceivedBy(log, 1) == first
    ensures ReceivedBy(log, 2) == first + second
  {
    var bus := new LocalBus();
    bus.Subscribe(topic, 1);
    bus.Subscribe(topic, 2);
    var before := bus.registry;
    assert ListenersOf(before, topic) == [1, 2];
    assert multiset(ListenersOf(before, topic))[1] == 1 && multiset(ListenersOf(before, topic))[2] == 1;
    assert bus.log == [];
    PublishEach(bus, topic, first, true);
    var early := bus.log;
    assert early == PublishSeries(before, topic, first, true);
    bus.Unsubscribe(topic, 1);
    var after := bus.registry;
    OffFirstPromotesNext(before, topic);
    assert ListenersOf(after, topic) == [2];
    assert multiset(ListenersOf(after, topic))[1] == 0 && multiset(ListenersOf(after, topic))[2] == 1;
    PublishEach(bus, topic, second, true);
    log := bus.log;
    var late := PublishSeries(after, topic, second, true);
    assert log == early + late;
    BroadcastReachesAll(before, topic, first, 1);
    BroadcastReachesAll(before, topic, first, 2);
    BroadcastReachesAll(after, topic, second, 1);
    BroadcastReachesAll(after, topic, second, 2);
    ReceivedByAppend(early, late, 1);
    ReceivedByAppend(early, late, 2);
  }
}
