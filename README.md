# fastbus, modelled in Dafny

fastbus is a small message bus for Node.js services. Code subscribes
listeners to topics and publishes messages on topics. A **unicast**
publish goes to one listener. A **broadcast** publish goes to every
listener. This project models the part of fastbus that decides who gets
each message:

- **The local listener registry.** Each bus keeps one in a Node.js
  `EventEmitter`. Module `Listeners` models it as a map from event name
  to listener ids, oldest registration first. For ordinary event names
  it gives `on`, `off`, `removeAllListeners` and `emit` the emitter's
  semantics (the reserved names `newListener` and `removeListener` are
  under "Left out"):
  - `on` appends, and duplicates are allowed.
  - `off` removes the most recent registration of the listener.
  - A name whose last listener is removed disappears from the map.
- **The in-process bus `LocalBus`** (module `InProcess`). A unicast
  publish calls the first-registered listener. A broadcast calls them all,
  in order. A topic without listeners is ignored.
- **The Redis-backed bus.** It exists in three nearly identical variants:
  - `RedisBus` (ioredis), module `IORedisBus`;
  - `FastBus` (node-redis), module `NodeRedisBus`;
  - the legacy JavaScript `FastBus`, module `LegacyBus`.

  Module `Naming` builds the channel name. It is the prefix
  `<name>:<db>:` followed by the topic.

  Module `RedisModel` holds the protocol the three variants share:
  - A unicast publish pushes the message at the head of the channel's
    Redis list (LPUSH). Then it publishes the channel name itself as a
    pop signal.
  - A broadcast publish publishes the message.
  - The `pmessage` handler ignores channels without a local listener.
  - It fans any other payload out to all listeners.
  - It answers a pop signal by taking one item from the tail of the list
    (RPOP). It hands that item to the first-registered listener when the
    item is truthy.

  The Redis server is the class `RedisStore`. It holds the lists and the
  sequence of notifications published so far. Several bus objects can
  share one store, which models several processes on one Redis.

Each bus is a class with the source's fields and methods:
- The emitter (`eventEmitter` in `LocalBus`, `subscriptions` in the Redis
  buses) is the field `registry`.
- Calling a listener appends a `Delivery(listener, message)` to the
  field `log`.
- A Redis reply that is an error (of LPUSH, of RPOP or of PUBLISH) is a
  boolean parameter of the method that issues the command. The buses
  send PUBLISH without a callback, so a failed PUBLISH only means that
  nothing was sent: a unicast message whose pop signal is lost stays
  queued until a later pop signal of its channel (`LostPopSignal`).

Each bus method is specified against a function of the old state:
- `PublishDeliveries` for `LocalBus.publish`;
- `PublishEffect` for a Redis publish;
- `Handle` for the Redis handler;
- `On`, `Off` and `RemoveAll` for the registry calls.

The properties the bus promises are proved about those functions:
- FIFO order through the Redis list;
- unicast to the first-registered listener only;
- broadcast to all listeners, in order;
- at most one delivery of an item across processes;
- namespace isolation between prefixes, for configured names without a
  colon (with a colon, two buses can share a channel:
  `NamespaceCollision`);
- `off` undoing `on`.

The test suites of the three bus files become generic scenario methods.
Each one builds a bus, subscribes, publishes, and states what each
listener received. In the Redis suites the scenario also runs the
handler on the notifications the publishes sent; `LocalBus` calls its
listeners during `publish` itself.

Some details of the code are easy to misread; the model follows the code:
- A pop signal takes the oldest item from the tail of the list (RPOP after
  LPUSH), not from the head.
- An item that pops as the empty string is removed from the list but not
  delivered, because of `if (message)`.
- `unsubscribe` removes the most recent registration of the listener, and
  nothing when there is none.
- `unsubscribeAll` only clears the registry. The one pattern
  subscription `prefix*` made at construction stays in place.

## Model

| member | source | states |
|---|---|---|
| Listeners.On | src/local-bus.ts:38-41 | `on` appends the listener at the end of the name's sequence, duplicates allowed, and every other name keeps its listeners |
| Listeners.Off | src/local-bus.ts:43-46 | `off` removes the most recent registration of the listener under that name only. With none it changes nothing. It takes exactly one copy out of the multiset, and an emptied name disappears |
| Listeners.RemoveAll | src/local-bus.ts:48-54 | `removeAllListeners(name)` leaves that name without listeners and every other name unchanged |
| Listeners.Fanout | src/local-bus.ts:28-31 | `emit` calls each registered listener once, in registration order, with the message |
| Listeners.OffUndoesOn | src/local-bus.ts:38-46 | `off` right after `on` of the same listener restores the registry exactly |
| Listeners.OffFirstPromotesNext | src/local-bus.ts:43-46 | removing the first-registered listener, registered once, makes the next one first, so it becomes the unicast target |
| Listeners.OffDuplicateKeepsFirst | src/local-bus.ts:43-46 | when the first listener is also registered later, `off` removes the later registration and the listener stays first |
| Listeners.OffRemovesSingle | src/local-bus.ts:43-46 | a listener registered once under a name is gone from it after `off` |
| Listeners.ReceivedByFanout | src/local-bus.ts:28-31 | an emitted message reaches each listener once per registration and no one else |
| InProcess.PublishDeliveries | src/local-bus.ts:22-36 | no listeners gives no call. Broadcast gives one call per listener, in order. Unicast gives exactly one call, to the first-registered listener |
| InProcess.UnsubscribeAllRegistry | src/local-bus.ts:48-54 | a truthy topic clears that topic only. An absent or empty topic clears every topic |
| InProcess.LocalBus.constructor | src/local-bus.ts:12-16 | a new bus has an empty registry and has made no calls |
| InProcess.LocalBus.Destroy | src/local-bus.ts:18-20 | after `destroy` no topic has a listener, and no call is made |
| InProcess.LocalBus.Publish | src/local-bus.ts:22-36 | `publish` appends exactly the calls of `PublishDeliveries` to the log and changes nothing else (the registry is outside its frame) |
| InProcess.LocalBus.Subscribe | src/local-bus.ts:38-41 | the registry becomes `On(old registry, topic, listener)` |
| InProcess.LocalBus.Unsubscribe | src/local-bus.ts:43-46 | the registry becomes `Off(old registry, topic, listener)` |
| InProcess.LocalBus.UnsubscribeAll | src/local-bus.ts:48-54 | the registry becomes `UnsubscribeAllRegistry(old registry, topic)` |
| InProcess.UnicastGoesToFirst | src/local-bus.ts:32-35 | a series of unicast publishes gives the first-registered listener every message in publish order, and any other listener none |
| InProcess.BroadcastReachesAll | src/local-bus.ts:28-31 | a series of broadcasts gives every listener registered once all the messages in order, and an unregistered listener none |
| InProcess.NoListenersNoCalls | src/local-bus.ts:24-27 | publishing on a topic without listeners calls nobody, whether unicast or broadcast |
| InProcess.UnsubscribedHearsNothing | src/local-bus.ts:43-46 | a listener registered once hears nothing on a topic after unsubscribing from it |
| InProcess.UnicastAcrossUnsubscribe | src/local-bus.spec.ts:35-56 | with listeners `[l1, l2]`, unicasts before and after `l1` unsubscribes go to `l1` and then to `l2` respectively |
| InProcess.PublishEach | src/local-bus.ts:22-36 | publishing messages one after another logs `PublishSeries` of the unchanged registry |
| InProcess.ForwardToOneReceiver | src/local-bus.spec.ts:17-33 | two listeners and unicast publishes: the first gets every message in order, the second none |
| InProcess.NoForwardAfterUnsubscribe | src/local-bus.spec.ts:35-56 | after the first listener unsubscribes, later unicasts reach the second only |
| InProcess.BroadcastToAll | src/local-bus.spec.ts:60-76 | two listeners and broadcasts: both get every message in order |
| InProcess.NoBroadcastAfterUnsubscribe | src/local-bus.spec.ts:78-99 | after the first listener unsubscribes, it has only the earlier broadcasts and the second has all of them |
| Naming.Digits | src/redis-bus.ts:29 | the database number renders as a non-empty run of decimal digits without a colon |
| Naming.ParseDigitsInverts | src/redis-bus.ts:29 | reading the rendered database number back gives the number |
| Naming.DigitsInjective | src/redis-bus.ts:29 | distinct database numbers render differently |
| Naming.ChannelName | src/redis-bus.ts:68-70 | the channel name starts with the prefix and the rest is the topic |
| Naming.PrefixOf | src/redis-bus.ts:29 | the prefix is `<prefix ?? 'bus'>:<db ?? 0>:`, and `bus:0:` without options |
| Naming.LegacyPrefixOf | lib/fastbus.js:70-75 | construction fails exactly when `opts` or `opts.redis` is missing. Otherwise the prefix is `<prefix or 'bus'>:<db>:`, where `||` also replaces an empty prefix |
| Naming.LegacyPrefixAgrees | lib/fastbus.js:75 | the legacy prefix equals the TypeScript one exactly when the configured prefix is not the empty string |
| Naming.NamespaceIsolation | src/redis-bus.ts:57-70 | for names without a colon, a channel of one bus never matches the `prefix*` pattern of a bus with another name or another database |
| Naming.NamespaceCollision | src/redis-bus.ts:29 | with a colon in the name the prefix is ambiguous: a bus named `a:1` on database 0 and a bus named `a` on database 1 have different prefixes, yet the topics `t` and `0:t` get the same channel `a:1:0:t` |
| RedisModel.PushHead | src/redis-bus.ts:78 | LPUSH puts the value at the head of that key's list and leaves other keys alone |
| RedisModel.DropTail | src/redis-bus.ts:44 | RPOP removes the last element of that key's list (nothing when empty) and leaves other keys alone. An emptied key disappears |
| RedisModel.PushHeadEnqueues | src/redis-bus.ts:78 | read oldest first, LPUSH enqueues at the back |
| RedisModel.DropTailDequeues | src/redis-bus.ts:44 | read oldest first, RPOP returns and removes the front |
| RedisModel.PublishEffect | src/redis-bus.ts:72-86 | broadcast sends `(channel, message)` and changes no list. Unicast pushes the message at the head and sends `(channel, channel)`. A failed push sends nothing. A failed PUBLISH sends nothing and leaves the push in place |
| RedisModel.LostPopSignal | src/redis-bus.ts:78-84 | a unicast publish whose LPUSH succeeds and whose PUBLISH fails queues the message at the back and sends no pop signal for it |
| RedisModel.Handle | src/redis-bus.ts:31-55 | no listener: nothing happens. Payload ≠ channel: one call per listener in order, lists untouched. Pop signal: the tail item leaves the list and goes to the first-registered listener when truthy. An empty list or a failed RPOP delivers nothing |
| RedisModel.HandlePopsOldest | src/redis-bus.ts:43-54 | read as a queue, a pop signal takes the front (oldest) item, and it is delivered to the first listener exactly when truthy |
| RedisModel.ForeignChannelIgnored | src/redis-bus.ts:33-36 | a channel outside the bus's prefix has no listener there, so its notification changes nothing and calls nobody |
| RedisModel.NotRegisteredNotCalled | src/redis-bus.ts:31-55 | a listener not registered for the channel is never called by the handler |
| RedisModel.BroadcastOfChannelNameIsPopSignal | src/redis-bus.ts:37-44 | broadcasting the channel name sends the same notification as a unicast publish. The handler treats it as a pop signal and never delivers the broadcast payload |
| RedisModel.HandleTakesAtMostOne | src/redis-bus.ts:43-54 | one handler call on a pop signal makes at most one call and delivers only what it took off the list |
| RedisModel.PopSignalClaimsDisjoint | src/redis-bus.ts:43-54 | any number of processes handling one pop signal together deliver only items that left the shared list, so an item pushed once is delivered at most once |
| RedisModel.PublishAllQueues | src/redis-bus.ts:78-85 | unicast publishes queue the messages in publish order and send one pop signal each |
| RedisModel.DrainInOrder | src/redis-bus.ts:43-54 | `k` pop signals take the `k` oldest items in order, all for the first-registered listener |
| RedisModel.UnicastFifo | src/redis-bus.spec.ts:22-40 | unicast publishes of truthy messages, then their pop signals, deliver every message in publish order to the first listener and leave the list empty |
| RedisModel.UnicastRound | src/redis-bus.spec.ts:22-40 | in such a round the first listener hears every message in order and every other listener none |
| RedisModel.BroadcastReceived | src/redis-bus.ts:37-41 | a broadcast payload reaches a listener registered at most once exactly when it is registered, and leaves the lists alone |
| RedisModel.BroadcastRound | src/redis-bus.spec.ts:71-89 | broadcasts of messages other than the channel name, then their notifications, leave the lists alone. Each listener registered once hears every message in order |
| RedisModel.RedisStore.LPush | src/redis-bus.ts:78-84 | a successful LPUSH applies `PushHead`. An error reply changes nothing |
| RedisModel.RedisStore.RPop | src/redis-bus.ts:44-47 | a successful RPOP returns the tail and applies `DropTail`. An error reply returns nothing and changes nothing |
| RedisModel.RedisStore.Publish | src/redis-bus.ts:74-76 | a successful PUBLISH appends the notification to those every subscriber sees. A failed one sends nothing. No list changes |
| IORedisBus.RedisBus.constructor | src/redis-bus.ts:21-30 | a new bus has the prefix `PrefixOf(opts)`, an empty registry and no calls |
| IORedisBus.RedisBus.ToChannelName | src/redis-bus.ts:68-70 | the channel starts with the bus's prefix, followed by the topic |
| IORedisBus.RedisBus.Publish | src/redis-bus.ts:72-86 | the store's lists and notifications change exactly as `PublishEffect` says, for every combination of LPUSH and PUBLISH replies |
| IORedisBus.RedisBus.HandleNotification | src/redis-bus.ts:31-55 | the store's lists, the calls made and the outcome are those of `Handle` on the registry, and nothing is published. A channel outside the bus's prefix is ignored and changes nothing |
| IORedisBus.RedisBus.Subscribe | src/redis-bus.ts:88-90 | the registry becomes `On` of the topic's channel. The store is outside the frame |
| IORedisBus.RedisBus.Unsubscribe | src/redis-bus.ts:92-94 | the registry becomes `Off` of the topic's channel |
| IORedisBus.RedisBus.UnsubscribeAll | src/redis-bus.ts:96-102 | a truthy topic clears that channel only. Otherwise every channel is cleared |
| IORedisBus.RedisBus.Destroy | src/redis-bus.ts:61-65 | the registry is empty afterwards |
| IORedisBus.PublishEach | src/redis-bus.ts:72-86 | publishing messages one after another through the bus changes the store as `PublishAll` says |
| IORedisBus.ReceiveEach | src/redis-bus.ts:31-55 | handling notifications one after another changes the lists and the calls as `HandleAll` says, and publishes nothing |
| IORedisBus.PublishThenReceive | src/redis-bus.spec.ts:22-40 | a test round: the bus handles exactly the notifications its own publishes sent, in order |
| IORedisBus.ForwardToOneReceiver | src/redis-bus.spec.ts:22-40 | two listeners and unicast publishes of truthy messages through Redis: the first gets all in order, the second none |
| IORedisBus.NoForwardAfterUnsubscribe | src/redis-bus.spec.ts:42-67 | after the first listener unsubscribes, later unicasts reach the second only |
| IORedisBus.BroadcastToAll | src/redis-bus.spec.ts:71-89 | two listeners and broadcasts through Redis: both get every message in order |
| IORedisBus.NoBroadcastAfterUnsubscribe | src/redis-bus.spec.ts:91-116 | after the first listener unsubscribes, it has only the earlier broadcasts and the second has all |
| IORedisBus.ClaimOnceAcrossProcesses | src/redis-bus.ts:43-54 | two processes on one Redis both answer the same pop signal. The item is delivered once, to the process that pops first |
| NodeRedisBus.FastBus.constructor | src/fast-bus.ts:23-33 | a new bus has the prefix `PrefixOf(opts)`, an empty registry and no calls |
| NodeRedisBus.FastBus.ToChannelName | src/fast-bus.ts:72-74 | the channel starts with the bus's prefix, followed by the topic |
| NodeRedisBus.FastBus.Publish | src/fast-bus.ts:76-91 | the store changes exactly as `PublishEffect` says, for every combination of LPUSH and PUBLISH replies |
| NodeRedisBus.FastBus.HandleNotification | src/fast-bus.ts:34-58 | the store's lists, the calls made and the outcome are those of `Handle`. A channel outside the bus's prefix is ignored and changes nothing |
| NodeRedisBus.FastBus.Subscribe | src/fast-bus.ts:93-96 | the registry becomes `On` of the topic's channel |
| NodeRedisBus.FastBus.Unsubscribe | src/fast-bus.ts:98-101 | the registry becomes `Off` of the topic's channel |
| NodeRedisBus.FastBus.UnsubscribeAll | src/fast-bus.ts:103-110 | a truthy topic clears that channel only. Otherwise every channel is cleared |
| NodeRedisBus.FastBus.Destroy | src/fast-bus.ts:64-69 | the registry is empty afterwards |
| NodeRedisBus.TestNamespace | test/fast-bus.test.ts:9-14 | the test configuration gives the prefix `bustest:0:`, and its channels and those of a default bus never match each other's pattern |
| NodeRedisBus.PublishEach | src/fast-bus.ts:76-91 | publishing messages one after another through the bus changes the store as `PublishAll` says |
| NodeRedisBus.ReceiveEach | src/fast-bus.ts:34-58 | handling notifications one after another changes the lists and the calls as `HandleAll` says, and publishes nothing |
| NodeRedisBus.PublishThenReceive | test/fast-bus.test.ts:23-41 | a test round: the bus handles exactly the notifications its own publishes sent, in order |
| NodeRedisBus.ForwardToOneReceiver | test/fast-bus.test.ts:23-41 | on a `bustest` bus, two listeners and unicasts: the first gets all in order, the second none |
| NodeRedisBus.BroadcastToAll | test/fast-bus.test.ts:72-90 | on a `bustest` bus, two listeners and broadcasts: both get every message in order |
| NodeRedisBus.NoForwardAfterUnsubscribe | test/fast-bus.test.ts:43-68 | on a `bustest` bus, after the first listener unsubscribes, later unicasts reach the second only |
| NodeRedisBus.NoBroadcastAfterUnsubscribe | test/fast-bus.test.ts:92-117 | on a `bustest` bus, after the first listener unsubscribes, it has only the earlier broadcasts and the second has all |
| LegacyBus.LegacyHandle | lib/fastbus.js:80-104 | the legacy handler raises on an RPOP error after a pop signal with a listener: nothing delivered or removed. Otherwise it behaves as `Handle` |
| LegacyBus.LegacyDiffersOnlyOnPopError | lib/fastbus.js:93-96 | the legacy and TypeScript handlers always agree on lists and calls. Their outcomes differ exactly on an RPOP error after a pop signal with a listener |
| LegacyBus.LegacyPopErrorThrows | lib/fastbus.js:95 | a concrete input where the legacy handler raises and the TypeScript handler logs and returns |
| LegacyBus.FastBus.constructor | lib/fastbus.js:75-78 | the state `init` leaves: the given prefix, an empty registry and no calls |
| LegacyBus.FastBus.Create | lib/fastbus.js:70-75 | construction fails with a `TypeError` exactly when `opts` or `opts.redis` is missing. Otherwise the bus has the legacy prefix and an empty registry |
| LegacyBus.FastBus.ToChannelName | lib/fastbus.js:11-13 | the channel starts with the bus's prefix, followed by the topic |
| LegacyBus.FastBus.Publish | lib/fastbus.js:20-35 | the store changes exactly as `PublishEffect` says, for every combination of LPUSH and PUBLISH replies |
| LegacyBus.FastBus.HandleNotification | lib/fastbus.js:80-104 | the store's lists, the calls made and the outcome are those of `LegacyHandle`. A channel outside the bus's prefix is ignored and changes nothing |
| LegacyBus.FastBus.Subscribe | lib/fastbus.js:41-44 | the registry becomes `On` of the topic's channel |
| LegacyBus.FastBus.Unsubscribe | lib/fastbus.js:50-53 | the registry becomes `Off` of the topic's channel |
| LegacyBus.FastBus.UnsubscribeAll | lib/fastbus.js:58-65 | a truthy topic clears that channel only. Otherwise every channel is cleared |
| LegacyBus.FastBus.Destroy | lib/fastbus.js:110-115 | the registry is empty afterwards |
| LegacyBus.SharedNamespace | lib/fastbus.js:75 | a legacy bus and a TypeScript bus configured alike, with a non-empty prefix, use the same channel names |

## Left out

- Connections are not modelled: creating the two clients, the injected
  `createRedisClient` factory, `psubscribe`, and `end`/`disconnect` in
  `destroy`. One shared `RedisStore` stands for the server that both
  connections reach.
- The `prefix*` pattern is matched as a literal prefix. Glob
  metacharacters inside a configured prefix are not modelled.
- Callbacks and timing are not modelled. Each publish (LPUSH, then
  PUBLISH) and each handler call (listener choice, then RPOP) is one
  sequential step. Interleavings inside those steps are not modelled, and
  neither is the race where a listener is removed while its message is in
  flight.
- Error replies of LPUSH, RPOP and PUBLISH are boolean parameters rather
  than I/O. The scenarios and the series functions (`PublishAll`,
  `HandleAll`) assume every reply succeeds; a failed PUBLISH on its own
  is `LostPopSignal`.
- `RedisStore` holds one keyspace for all Redis databases. Lists live in
  the bus's database and pub/sub spans all databases, so one keyspace is
  only right while channel names differ across databases. That holds for
  configured names without a colon (`NamespaceIsolation`), and fails for
  names like `a:1` (`NamespaceCollision`).
- The Redis database number is a `nat` here. Other values of
  `opts.redis.db` that a client might accept are not modelled.
- Logging (`debug`, `pino`) and `setMaxListeners(Infinity)` are left out.
  They have no effect on delivery.
- The static `create` factories only call the constructor, so they are
  not modelled separately. The legacy constructor's failure is
  `LegacyBus.FastBus.Create`.
- InProcess.LocalBus.Subscribe, InProcess.LocalBus.Unsubscribe,
  InProcess.LocalBus.UnsubscribeAll and InProcess.LocalBus.Destroy do not
  capture the reserved emitter events. `LocalBus` uses the raw topic as
  the event name (src/local-bus.ts:40,45,50,52). A listener subscribed to
  the topic `newListener` is called with the topic of every later
  `subscribe`. A listener subscribed to `removeListener` is called with the
  topic of every listener that `unsubscribe`, `unsubscribeAll` or
  `destroy` removes. The model treats both as ordinary topics, so these
  methods never add to the log. The Redis buses are not affected, because
  every channel they register starts with the `<name>:<db>:` prefix.
- A listener is an opaque id, so what a listener does is not modelled.
  `LocalBus` calls listeners synchronously, which is the order of its log.
- The cloud Pub/Sub bus and any transport selection are not part of this
  model.

## Findings

| source | as written | input that shows it | evidently intended | confidence | as-written member | corrected member |
|---|---|---|---|---|---|---|
| lib/fastbus.js:95 | the RPOP error branch logs the variable `q`, which is never declared, so the callback raises a `ReferenceError` instead of logging | a listener on `bus:0:a`, the pop signal `("bus:0:a", "bus:0:a")` and an RPOP error reply | log the error and go on, as src/redis-bus.ts:45-47 and src/fast-bus.ts:48-50 do | high, not executed | LegacyBus.LegacyPopErrorThrows | RedisModel.Handle |
