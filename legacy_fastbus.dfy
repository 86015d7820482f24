/** The `FastBus` of the plain JavaScript library. It matches the
    TypeScript buses except in three places: construction dereferences
    `opts` and `opts.redis` unguarded, the prefix falls back with `||`
    instead of `??`, and the RPOP error branch logs a variable that does
    not exist, so it raises a `ReferenceError` instead of logging. */
module LegacyBus {
  import opened JsValues
  import opened Listeners
  import opened Naming
  import opened RedisModel

  /** The legacy pmessage handler as written: an RPOP error on a pop
      signal raises (`Threw`) before the reply is looked at; everything
      else is `Handle`. */
  function LegacyHandle(r: Registry, lists: Lists, n: Notification, popFault: bool): (h: HandleResult)
    ensures ListenersOf(r, n.channel) != [] && n.payload == n.channel && popFault ==>
              h.lists == lists && h.deliveries == [] && h.outcome == Threw
    ensures h.outcome != Threw ==> h == Handle(r, lists, n, popFault)
  {
    if ListenersOf(r, n.channel) != [] && n.payload == n.channel && popFault
    then HandleResult(lists, [], Threw)
    else Handle(r, lists, n, popFault)
  }

  /** The legacy handler departs from the TypeScript one exactly on an RPOP
      error after a pop signal with a listener registered; the keyspace and
      the listener calls agree always, only the outcome differs. */
  lemma LegacyDiffersOnlyOnPopError(r: Registry, lists: Lists, n: Notification, popFault: bool)
    ensures var legacy, ts := LegacyHandle(r, lists, n, popFault), Handle(r, lists, n, popFault);
            legacy.lists == ts.lists && legacy.deliveries == ts.deliveries
            && (legacy.outcome != ts.outcome <==> ListenersOf(r, n.channel) != [] && n.payload == n.channel && popFault)
  {
  }

  /** The input that shows it: a listener on `bus:0:a`, its pop signal, and
      a failing RPOP. The TypeScript handler logs the error and returns;
      the legacy one raises. */
  lemma LegacyPopErrorThrows()
    ensures var r := map["bus:0:a" := [1]];
            var n := Notification("bus:0:a", "bus:0:a");
            LegacyHandle(r, map[], n, true).outcome == Threw
            && Handle(r, map[], n, true).outcome == PopFailed
  {
    var r := map["bus:0:a" := [1]];
    assert ListenersOf(r, "bus:0:a") == [1];
  }

  class FastBus {
    const store: RedisStore
    const prefix: string
    /** The `subscriptions` emitter: channel to listeners. */
    var registry: Registry
    /** Every listener call this process made, in order. */
    var log: seq<Delivery>

    /** Listeners are only ever registered under channels of this bus. */
    ghost predicate Valid()
      reads this
    {
      NoEmptyEntries(registry) && forall ch :: ch in registry ==> StartsWith(ch, prefix)
    }

    /** The state `init` leaves once it has computed the prefix. */
    constructor (store: RedisStore, prefix: string)
      ensures Valid() && this.store == store && this.prefix == prefix
      ensures registry == map[] && log == []
    {
      this.store := store;
      this.prefix := prefix;
      registry := map[];
      log := [];
    }

    /** `new FastBus(opts)`: raises a `TypeError` when `opts` or
        `opts.redis` is missing. */
    static method Create(store: RedisStore, opts: Option<BusOptions>) returns (r: Result<FastBus, InitError>)
      ensures r.Failure? <==> opts.None? || opts.value.redis.None?
      ensures r.Success? ==> fresh(r.value) && r.value.Valid() && r.value.store == store
                             && Success(r.value.prefix) == LegacyPrefixOf(opts)
                             && r.value.registry == map[] && r.value.log == []
    {
      var p := LegacyPrefixOf(opts);
      if p.Failure? {
        return Failure(p.error);
      }
      var bus := new FastBus(store, p.value);
      return Success(bus);
    }

    function ToChannelName(topic: string): (c: string)
      ensures StartsWith(c, prefix) && c[|prefix|..] == topic
    {
      ChannelName(prefix, topic)
    }

    /** `pushFault`: the LPUSH callback receives an error;
        `publishFault`: the
        PUBLISH, sent without a callback, fails. */
    method Publish(topic: string, message: string, broadcast: bool, pushFault: bool, publishFault: bool)
      requires store.Valid()
      modifies store
      ensures store.Valid()
      ensures var e := PublishEffect(old(store.lists), ToChannelName(topic), message, broadcast, pushFault, publishFault);
              store.lists == e.lists && store.published == old(store.published) + e.sent
    {
      var channel := ToChannelName(topic);
      if broadcast {
        store.Publish(channel, message, publishFault);
        return;
      }
      var err := store.LPush(channel, message, pushFault);
      if err {
        return;
      }
      store.Publish(channel, channel, publishFault);
    }

    /** The pmessage handler; `popFault`: the RPOP callback receives an
        error, upon which the callback raises. */
    method HandleNotification(channel: string, message: string, popFault: bool) returns (outcome: Outcome)
      requires store.Valid()
      modifies this`log, store
      ensures store.Valid() && store.published == old(store.published)
      ensures var h := LegacyHandle(registry, old(store.lists), Notification(channel, message), popFault);
              store.lists == h.lists && log == old(log) + h.deliveries && outcome == h.outcome
      ensures Valid() && !StartsWith(channel, prefix) ==>
                outcome == Ignored && store.lists == old(store.lists) && log == old(log)
    {
      if |ListenersOf(registry, channel)| == 0 {
        return Ignored;
      }
      if channel != message {
        log := log + Fanout(ListenersOf(registry, channel), message);
        return Forwarded;
      }
      var listener := ListenersOf(registry, channel)[0];
      var popped, err := store.RPop(channel, popFault);
      if err {
        return Threw;
      }
      if popped.Some? && Truthy(popped.value) {
        log := log + [Delivery(listener, popped.value)];
        outcome := Claimed(popped.value);
      } else {
        outcome := NothingToForward;
      }
    }

    method Subscribe(topic: string, listener: ListenerId)
      requires Valid()
      modifies this`registry
      ensures Valid() && registry == On(old(registry), ToChannelName(topic), listener)
    {
      registry := On(registry, ToChannelName(topic), listener);
    }

    method Unsubscribe(topic: string, listener: ListenerId)
      requires Valid()
      modifies this`registry
      ensures Valid() && registry == Off(old(registry), ToChannelName(topic), listener)
    {
      registry := Off(registry, ToChannelName(topic), listener);
    }

    /** A truthy topic clears its channel; an absent or empty one clears all. */
    method UnsubscribeAll(topic: Option<string>)
      requires Valid()
      modifies this`registry
      ensures Valid()
      ensures OptTruthy(topic) ==> registry == RemoveAll(old(registry), ToChannelName(topic.value))
      ensures !OptTruthy(topic) ==> registry == map[]
    {
      if OptTruthy(topic) {
        registry := RemoveAll(registry, ToChannelName(topic.value));
      } else {
        registry := map[];
      }
    }

    /** Clears every listener; ending the connections is not modelled. */
    method Destroy()
      requires Valid()
      modifies this`registry
      ensures Valid() && registry == map[]
    {
      UnsubscribeAll(None);
    }
  }

  /** Two processes share one Redis, one with a TypeScript bus and one
      with a legacy bus configured alike with a non-empty prefix: they use
      the same channel names, so a unicast publish from either is claimed
      by whichever pops first. */
  lemma SharedNamespace(opts: Option<BusOptions>, topic: string)
    requires opts.Some? && opts.value.redis.Some? && opts.value.prefix != Some("")
    ensures LegacyPrefixOf(opts).Success?
    ensures ChannelName(LegacyPrefixOf(opts).value, topic) == ChannelName(PrefixOf(opts), topic)
  {
    LegacyPrefixAgrees(opts);
  }
}
