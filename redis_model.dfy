/** The Redis side of the Redis-backed buses: the keyspace of lists, the
    notifications sent with PUBLISH, and the unicast-over-queue protocol
    shared by the three bus variants. A unicast publish pushes the message
    at the head of the channel's list (LPUSH) and then publishes the
    channel name itself as a pop signal; a broadcast publish publishes the
    message. A receiving process ignores channels it has no listener for,
    fans a payload that differs from the channel out to all its listeners,
    and answers a pop signal by taking one item from the tail of the list
    (RPOP) for its first-registered listener. */
module RedisModel {
  import opened JsValues
  import opened Listeners
  import opened Naming

  /** The keyspace: key to list, head first. */
  type Lists = map<string, seq<string>>

  /** Redis deletes a key once its list is empty. */
  predicate NoEmptyLists(lists: Lists)
  {
    forall k :: k in lists ==> lists[k] != []
  }

  function ListAt(lists: Lists, key: string): seq<string>
  {
    if key in lists then lists[key] else []
  }

  /** `LPUSH key value`. */
  function PushHead(lists: Lists, key: string, value: string): (lists': Lists)
    ensures ListAt(lists', key) == [value] + ListAt(lists, key)
    ensures forall k :: k != key ==> ListAt(lists', k) == ListAt(lists, k)
    ensures NoEmptyLists(lists) ==> NoEmptyLists(lists')
  {
    lists[key := [value] + ListAt(lists, key)]
  }

  /** The reply of `RPOP key`: the last element, or nil. */
  function Tail(lists: Lists, key: string): Option<string>
  {
    var l := ListAt(lists, key);
    if l == [] then None else Some(l[|l| - 1])
  }

  /** The keyspace after `RPOP key`. */
  function DropTail(lists: Lists, key: string): (lists': Lists)
    ensures ListAt(lists, key) == [] ==> ListAt(lists', key) == []
    ensures ListAt(lists, key) != [] ==> ListAt(lists', key) + [ListAt(lists, key)[|ListAt(lists, key)| - 1]] == ListAt(lists, key)
    ensures forall k :: k != key ==> ListAt(lists', k) == ListAt(lists, k)
    ensures NoEmptyLists(lists) ==> NoEmptyLists(lists')
  {
    var l := ListAt(lists, key);
    if |l| <= 1 then lists - {key} else lists[key := l[..|l| - 1]]
  }

  function Reverse(s: seq<string>): (r: seq<string>)
    ensures |r| == |s|
    ensures forall i :: 0 <= i < |s| ==> r[i] == s[|s| - 1 - i]
  {
    if s == [] then [] else Reverse(s[1..]) + [s[0]]
  }

  /** A list read oldest first: LPUSH enters at the head, so the oldest
      item sits at the tail. */
  function Queue(lists: Lists, key: string): seq<string>
  {
    Reverse(ListAt(lists, key))
  }

  /** LPUSH enqueues at the back of the queue. */
  lemma PushHeadEnqueues(lists: Lists, key: string, value: string)
    ensures Queue(PushHead(lists, key, value), key) == Queue(lists, key) + [value]
  {
  }

  /** RPOP dequeues from the front of the queue. */
  lemma DropTailDequeues(lists: Lists, key: string)
    requires Queue(lists, key) != []
    ensures Tail(lists, key) == Some(Queue(lists, key)[0])
    ensures Queue(DropTail(lists, key), key) == Queue(lists, key)[1..]
  {
    var l := ListAt(lists, key);
    var l' := ListAt(DropTail(lists, key), key);
    assert l' == l[..|l| - 1];
  }

  /** One PUBLISH: a channel and a payload. */
  datatype Notification = Notification(channel: string, payload: string)

  /** The keyspace after a publish and the notifications it sent. */
  datatype PublishResult = PublishResult(lists: Lists, sent: seq<Notification>)

  /** What `publish(topic, message, broadcast)` does to Redis, for the
      channel of the topic; `pushFault` is the LPUSH reply being an error,
      `publishFault` the PUBLISH reply being one. No reply to PUBLISH is
      looked at, so a failed PUBLISH only means nothing was sent. */
  function PublishEffect(lists: Lists, channel: string, message: string, broadcast: bool,
                         pushFault: bool, publishFault: bool): (e: PublishResult)
    ensures broadcast ==> e.lists == lists
    ensures broadcast && !publishFault ==> e.sent == [Notification(channel, message)]
    ensures !broadcast && pushFault ==> e == PublishResult(lists, [])
    ensures !broadcast && !pushFault ==>
              ListAt(e.lists, channel) == [message] + ListAt(lists, channel)
    ensures !broadcast && !pushFault && !publishFault ==> e.sent == [Notification(channel, channel)]
    ensures publishFault ==> e.sent == []
    ensures forall k :: k != channel ==> ListAt(e.lists, k) == ListAt(lists, k)
    ensures NoEmptyLists(lists) ==> NoEmptyLists(e.lists)
  {
    if broadcast then PublishResult(lists, if publishFault then [] else [Notification(channel, message)])
    else if pushFault then PublishResult(lists, [])
    else PublishResult(PushHead(lists, channel, message), if publishFault then [] else [Notification(channel, channel)])
  }

  /** A unicast publish whose LPUSH succeeds but whose PUBLISH fails
      leaves the message queued with no pop signal for it: no handler is
      told to take it, so it waits for a later signal of the channel. */
  lemma LostPopSignal(lists: Lists, channel: string, message: string)
    ensures var e := PublishEffect(lists, channel, message, false, false, true);
            Queue(e.lists, channel) == Queue(lists, channel) + [message] && e.sent == []
  {
    PushHeadEnqueues(lists, channel, message);
  }

  /** How a pmessage handler call ended. `PopFailed` is an RPOP error that
      was logged; `Threw` is one that raised an exception. */
  datatype Outcome = Ignored | Forwarded | Claimed(message: string) | NothingToForward | PopFailed | Threw

  /** The keyspace after a handler call, the listener calls it made, and
      how it ended. */
  datatype HandleResult = HandleResult(lists: Lists, deliveries: seq<Delivery>, outcome: Outcome)

  /** The pmessage handler of the TypeScript buses, for a process whose
      registry is `r`; `popFault` is the RPOP reply being an error. */
  function Handle(r: Registry, lists: Lists, n: Notification, popFault: bool): (h: HandleResult)
    ensures forall k :: k != n.channel ==> ListAt(h.lists, k) == ListAt(lists, k)
    ensures NoEmptyLists(lists) ==> NoEmptyLists(h.lists)
    // no listener here: nothing at all happens
    ensures ListenersOf(r, n.channel) == [] ==> h.lists == lists && h.deliveries == [] && h.outcome == Ignored
    // a payload that is not the channel name: one call per registration,
    // in registration order (see `Fanout`)
    ensures ListenersOf(r, n.channel) != [] && n.payload != n.channel ==>
              h.lists == lists && h.deliveries == Fanout(ListenersOf(r, n.channel), n.payload) && h.outcome == Forwarded
    // a pop signal whose RPOP fails: nothing delivered, nothing removed
    ensures ListenersOf(r, n.channel) != [] && n.payload == n.channel && popFault ==>
              h.lists == lists && h.deliveries == [] && h.outcome == PopFailed
    // a pop signal on an empty list: nothing delivered
    ensures ListenersOf(r, n.channel) != [] && n.payload == n.channel && !popFault && ListAt(lists, n.channel) == [] ==>
              h.lists == lists && h.deliveries == [] && h.outcome == NothingToForward
    // a pop signal on a non-empty list: the tail item, the oldest one,
    // leaves the list and goes to the first-registered listener when it is
    // truthy
    ensures var ls, l := ListenersOf(r, n.channel), ListAt(lists, n.channel);
            ls != [] && n.payload == n.channel && !popFault && l != [] ==>
              ListAt(h.lists, n.channel) == l[..|l| - 1]
              && (Truthy(l[|l| - 1]) ==> h.deliveries == [Delivery(ls[0], l[|l| - 1])] && h.outcome == Claimed(l[|l| - 1]))
              && (!Truthy(l[|l| - 1]) ==> h.deliveries == [] && h.outcome == NothingToForward)
  {
    var ls := ListenersOf(r, n.channel);
    if ls == [] then HandleResult(lists, [], Ignored)
    else if n.channel != n.payload then HandleResult(lists, Fanout(ls, n.payload), Forwarded)
    else
      var listener := ls[0];
      if popFault then HandleResult(lists, [], PopFailed)
      else if ListAt(lists, n.channel) == [] then HandleResult(lists, [], NothingToForward)
      else
        var m := Tail(lists, n.channel).value;
        var rest := DropTail(lists, n.channel);
        if Truthy(m) then HandleResult(rest, [Delivery(listener, m)], Claimed(m))
        else HandleResult(rest, [], NothingToForward)
  }

  /** Read as a queue, a pop signal takes the front, the oldest item, and
      hands it to the first-registered listener when it is truthy. */
  lemma HandlePopsOldest(r: Registry, lists: Lists, n: Notification)
    requires ListenersOf(r, n.channel) != [] && n.payload == n.channel
    requires Queue(lists, n.channel) != []
    ensures var h, q := Handle(r, lists, n, false), Queue(lists, n.channel);
            Queue(h.lists, n.channel) == q[1..]
            && (Truthy(q[0]) ==> h.deliveries == [Delivery(ListenersOf(r, n.channel)[0], q[0])])
            && (!Truthy(q[0]) ==> h.deliveries == [])
  {
    var l := ListAt(lists, n.channel);
    var l' := ListAt(Handle(r, lists, n, false).lists, n.channel);
    assert l' == l[..|l| - 1];
    assert Queue(lists, n.channel)[0] == l[|l| - 1];
  }

  /** A channel outside a bus's namespace has no listener there, so its
      notifications are ignored. */
  lemma ForeignChannelIgnored(r: Registry, prefix: string, lists: Lists, n: Notification, popFault: bool)
    requires forall ch :: ch in r ==> StartsWith(ch, prefix)
    requires !StartsWith(n.channel, prefix)
    ensures Handle(r, lists, n, popFault) == HandleResult(lists, [], Ignored)
  {
    assert n.channel !in r;
  }

  /** A listener that is not registered for the channel is never called. */
  lemma NotRegisteredNotCalled(r: Registry, lists: Lists, n: Notification, popFault: bool, l: ListenerId)
    requires l !in ListenersOf(r, n.channel)
    ensures ReceivedBy(Handle(r, lists, n, popFault).deliveries, l) == []
  {
    var ls := ListenersOf(r, n.channel);
    var h := Handle(r, lists, n, popFault);
    if ls != [] && n.payload != n.channel {
      assert h.deliveries == Fanout(ls, n.payload);
      ReceivedByFanout(ls, n.payload, l);
    } else if ls != [] && h.deliveries != [] {
      assert h.deliveries[0].listener == ls[0] && ls[0] in ls;
      assert h.deliveries == [h.deliveries[0]];
    }
  }

  /** The sentinel is ambiguous: broadcasting the channel name sends the
      very notification a unicast publish sends, and a listening process
      takes it as a pop signal, so the broadcast payload itself is never
      delivered. */
  lemma BroadcastOfChannelNameIsPopSignal(r: Registry, lists: Lists, channel: string, other: string, l: ListenerId)
    ensures PublishEffect(lists, channel, channel, true, false, false).sent
            == PublishEffect(lists, channel, other, false, false, false).sent
    ensures Truthy(channel) && channel !in ListAt(lists, channel) ==>
              channel !in ReceivedBy(Handle(r, lists, Notification(channel, channel), false).deliveries, l)
  {
    var h := Handle(r, lists, Notification(channel, channel), false);
    if Truthy(channel) && channel !in ListAt(lists, channel) && h.deliveries != [] {
      var l0 := ListAt(lists, channel);
      assert h.deliveries == [Delivery(ListenersOf(r, channel)[0], l0[|l0| - 1])];
      assert ReceivedBy(h.deliveries, l) == (if h.deliveries[0].listener == l then [l0[|l0| - 1]] else []) + ReceivedBy([], l);
    }
  }

  /** The messages of a list of listener calls. */
  function Messages(ds: seq<Delivery>): (ms: seq<string>)
    ensures |ms| == |ds|
    ensures forall i :: 0 <= i < |ds| ==> ms[i] == ds[i].message
  {
    if ds == [] then [] else [ds[0].message] + Messages(ds[1..])
  }

  /** One process's handler call on a notification: that process's
      registry and whether its RPOP fails. */
  datatype HandlerCall = HandlerCall(registry: Registry, popFault: bool)

  /** The keyspace and the listener calls after a series of processes each
      handle the same notification, in the given order. */
  datatype Run = Run(lists: Lists, deliveries: seq<Delivery>)

  function HandleByEach(lists: Lists, n: Notification, calls: seq<HandlerCall>): Run
  {
    if calls == [] then Run(lists, [])
    else
      var h := Handle(calls[0].registry, lists, n, calls[0].popFault);
      var rest := HandleByEach(h.lists, n, calls[1..]);
      Run(rest.lists, h.deliveries + rest.deliveries)
  }

  lemma HandleByEachFirst(lists: Lists, n: Notification, calls: seq<HandlerCall>)
    requires calls != []
    ensures var h := Handle(calls[0].registry, lists, n, calls[0].popFault);
            var rest := HandleByEach(h.lists, n, calls[1..]);
            HandleByEach(lists, n, calls).lists == rest.lists
            && HandleByEach(lists, n, calls).deliveries == h.deliveries + rest.deliveries
  {
  }

  /** A single handler call on a pop signal takes at most one item off the
      list, and delivers only what it took. */
  lemma HandleTakesAtMostOne(r: Registry, lists: Lists, n: Notification, popFault: bool)
    requires n.payload == n.channel
    ensures var h := Handle(r, lists, n, popFault);
            |h.deliveries| <= 1
            && multiset(Messages(h.deliveries)) + multiset(ListAt(h.lists, n.channel)) <= multiset(ListAt(lists, n.channel))
  {
    var h := Handle(r, lists, n, popFault);
    var l := ListAt(lists, n.channel);
    var l' := ListAt(h.lists, n.channel);
    if h.lists != lists {
      assert l' == l[..|l| - 1];
      assert l' + [l[|l| - 1]] == l;
      assert multiset(l) == multiset(l') + multiset{l[|l| - 1]};
      if h.deliveries != [] {
        assert Messages(h.deliveries) == [l[|l| - 1]];
      }
    }
  }

  lemma MessagesAppend(a: seq<Delivery>, b: seq<Delivery>)
    ensures Messages(a + b) == Messages(a) + Messages(b)
  {
  }

  /** Two successive takes from one list, each taking no more than the
      list held, together take no more than it held at first. */
  lemma TakesCompose(first: seq<Delivery>, second: seq<Delivery>, both: seq<Delivery>,
                     before: seq<string>, mid: seq<string>, after: seq<string>)
    requires both == first + second
    requires multiset(Messages(first)) + multiset(mid) <= multiset(before)
    requires multiset(Messages(second)) + multiset(after) <= multiset(mid)
    ensures multiset(Messages(both)) + multiset(after) <= multiset(before)
  {
    MessagesAppend(first, second);
    assert multiset(Messages(both)) == multiset(Messages(first)) + multiset(Messages(second));
  }

  /** Claim-once across processes: however many processes handle one pop
      signal, every item they deliver came off the shared list, so an item
      pushed once is delivered at most once. */
  lemma {:induction false} PopSignalClaimsDisjoint(lists: Lists, n: Notification, calls: seq<HandlerCall>)
    requires n.payload == n.channel
    ensures var run := HandleByEach(lists, n, calls);
            multiset(Messages(run.deliveries)) + multiset(ListAt(run.lists, n.channel)) <= multiset(ListAt(lists, n.channel))
    decreases |calls|
  {
    if calls != [] {
      var h := Handle(calls[0].registry, lists, n, calls[0].popFault);
      var rest := HandleByEach(h.lists, n, calls[1..]);
      var run := HandleByEach(lists, n, calls);
      var before, mid, after := ListAt(lists, n.channel), ListAt(h.lists, n.channel), ListAt(rest.lists, n.channel);
      assert multiset(Messages(rest.deliveries)) + multiset(after) <= multiset(mid) by {
        PopSignalClaimsDisjoint(h.lists, n, calls[1..]);
      }
      assert run.deliveries == h.deliveries + rest.deliveries && ListAt(run.lists, n.channel) == after by {
        HandleByEachFirst(lists, n, calls);
      }
      assert multiset(Messages(h.deliveries)) + multiset(mid) <= multiset(before) by {
        HandleTakesAtMostOne(calls[0].registry, lists, n, calls[0].popFault);
      }
      TakesCompose(h.deliveries, rest.deliveries, run.deliveries, before, mid, after);
    }
  }

  /** Publishes of `msgs` to one channel, in order, all unicast or all
      broadcast, every LPUSH succeeding. */
  function PublishAll(lists: Lists, channel: string, msgs: seq<string>, broadcast: bool): PublishResult
    decreases |msgs|
  {
    if msgs == [] then PublishResult(lists, [])
    else
      var e := PublishEffect(lists, channel, msgs[0], broadcast, false, false);
      var rest := PublishAll(e.lists, channel, msgs[1..], broadcast);
      PublishResult(rest.lists, e.sent + rest.sent)
  }

  /** One process handling notifications in arrival order, every RPOP
      succeeding. */
  function HandleAll(r: Registry, lists: Lists, ns: seq<Notification>): Run
    decreases |ns|
  {
    if ns == [] then Run(lists, [])
    else
      var h := Handle(r, lists, ns[0], false);
      var rest := HandleAll(r, h.lists, ns[1..]);
      Run(rest.lists, h.deliveries + rest.deliveries)
  }

  /** `k` pop signals for one channel. */
  function Signals(channel: string, k: nat): (ns: seq<Notification>)
    ensures |ns| == k
    ensures forall i :: 0 <= i < k ==> ns[i] == Notification(channel, channel)
  {
    if k == 0 then [] else [Notification(channel, channel)] + Signals(channel, k - 1)
  }

  /** Publishing unicast queues the messages in publish order and sends
      one pop signal per message. */
  lemma {:induction false} PublishAllQueues(lists: Lists, channel: string, msgs: seq<string>)
    ensures Queue(PublishAll(lists, channel, msgs, false).lists, channel) == Queue(lists, channel) + msgs
    ensures PublishAll(lists, channel, msgs, false).sent == Signals(channel, |msgs|)
    decreases |msgs|
  {
    if msgs != [] {
      var e := PublishEffect(lists, channel, msgs[0], false, false, false);
      PublishAllQueues(e.lists, channel, msgs[1..]);
      PushHeadEnqueues(lists, channel, msgs[0]);
      assert Queue(e.lists, channel) == Queue(lists, channel) + [msgs[0]];
      assert msgs == [msgs[0]] + msgs[1..];
    }
  }

  /** Handling `k` pop signals with a listener registered takes the `k`
      oldest items, in order, for the first-registered listener. */
  lemma {:induction false} DrainInOrder(r: Registry, lists: Lists, channel: string, k: nat)
    requires ListenersOf(r, channel) != []
    requires k <= |Queue(lists, channel)|
    requires forall i :: 0 <= i < k ==> Truthy(Queue(lists, channel)[i])
    ensures var run := HandleAll(r, lists, Signals(channel, k));
            Queue(run.lists, channel) == Queue(lists, channel)[k..]
            && run.deliveries == CallsTo(ListenersOf(r, channel)[0], Queue(lists, channel)[..k])
    decreases k
  {
    if k > 0 {
      var q := Queue(lists, channel);
      var n := Notification(channel, channel);
      var first := ListenersOf(r, channel)[0];
      var h := Handle(r, lists, n, false);
      assert Queue(h.lists, channel) == q[1..] && h.deliveries == [Delivery(first, q[0])] by {
        HandlePopsOldest(r, lists, n);
      }
      var rest := HandleAll(r, h.lists, Signals(channel, k - 1));
      assert Queue(rest.lists, channel) == q[1..][k - 1..]
             && rest.deliveries == CallsTo(first, q[1..][..k - 1]) by {
        DrainInOrder(r, h.lists, channel, k - 1);
      }
      var run := HandleAll(r, lists, Signals(channel, k));
      assert run.lists == rest.lists && run.deliveries == h.deliveries + rest.deliveries by {
        SignalsUnfold(r, lists, channel, k);
      }
      assert q[1..][k - 1..] == q[k..];
      assert CallsTo(first, q[..k]) == [Delivery(first, q[0])] + CallsTo(first, q[1..][..k - 1]) by {
        assert q[..k][0] == q[0] && q[..k][1..] == q[1..][..k - 1];
      }
    }
  }

  /** Handling `k` pop signals is handling one, then `k - 1`. */
  lemma SignalsUnfold(r: Registry, lists: Lists, channel: string, k: nat)
    requires k > 0
    ensures var h := Handle(r, lists, Notification(channel, channel), false);
            var rest := HandleAll(r, h.lists, Signals(channel, k - 1));
            var run := HandleAll(r, lists, Signals(channel, k));
            run.lists == rest.lists && run.deliveries == h.deliveries + rest.deliveries
  {
    assert Signals(channel, k)[0] == Notification(channel, channel);
    assert Signals(channel, k)[1..] == Signals(channel, k - 1);
  }

  /** FIFO: with a listener registered and an empty list, unicast
      publishes of truthy messages followed by the pop signals they sent
      deliver every message, in publish order, to the first-registered
      listener, and leave the list empty. */
  lemma UnicastFifo(r: Registry, lists: Lists, channel: string, msgs: seq<string>)
    requires ListenersOf(r, channel) != []
    requires ListAt(lists, channel) == []
    requires forall i :: 0 <= i < |msgs| ==> Truthy(msgs[i])
    ensures var p := PublishAll(lists, channel, msgs, false);
            var run := HandleAll(r, p.lists, p.sent);
            ListAt(run.lists, channel) == []
            && run.deliveries == CallsTo(ListenersOf(r, channel)[0], msgs)
  {
    var p := PublishAll(lists, channel, msgs, false);
    PublishAllQueues(lists, channel, msgs);
    assert Queue(p.lists, channel) == msgs;
    DrainInOrder(r, p.lists, channel, |msgs|);
    var run := HandleAll(r, p.lists, p.sent);
    assert |Queue(run.lists, channel)| == 0;
    assert msgs[..|msgs|] == msgs;
  }

  /** One round of the bus tests: unicast publishes of truthy messages on
      an empty list, then the pop signals they sent; the first-registered
      listener hears every message in order, every other listener none,
      and the list is left empty. */
  lemma UnicastRound(r: Registry, lists: Lists, channel: string, msgs: seq<string>, l: ListenerId)
    requires ListenersOf(r, channel) != []
    requires ListAt(lists, channel) == []
    requires forall i :: 0 <= i < |msgs| ==> Truthy(msgs[i])
    ensures var p := PublishAll(lists, channel, msgs, false);
            var run := HandleAll(r, p.lists, p.sent);
            ListAt(run.lists, channel) == []
            && ReceivedBy(run.deliveries, l) == if l == ListenersOf(r, channel)[0] then msgs else []
  {
    var p := PublishAll(lists, channel, msgs, false);
    UnicastFifo(r, lists, channel, msgs);
    var run := HandleAll(r, p.lists, p.sent);
    ReceivedByCallsTo(ListenersOf(r, channel)[0], msgs, l);
  }

  /** A broadcast payload reaches a listener registered at most once
      exactly when it is registered, and leaves the keyspace alone. */
  lemma BroadcastReceived(r: Registry, lists: Lists, n: Notification, l: ListenerId)
    requires n.payload != n.channel
    requires multiset(ListenersOf(r, n.channel))[l] <= 1
    ensures var h := Handle(r, lists, n, false);
            h.lists == lists
            && ReceivedBy(h.deliveries, l) == if l in ListenersOf(r, n.channel) then [n.payload] else []
  {
    var ls := ListenersOf(r, n.channel);
    if ls != [] {
      ReceivedByFanout(ls, n.payload, l);
      assert Repeat(n.payload, 1) == [n.payload];
    }
  }

  /** One broadcast round: broadcasts of messages other than the channel
      name, then the notifications they sent; the keyspace is untouched,
      and a listener registered at most once hears every message, in
      order, when registered and nothing otherwise. */
  lemma {:induction false} BroadcastRound(r: Registry, lists: Lists, channel: string, msgs: seq<string>, l: ListenerId)
    requires forall i :: 0 <= i < |msgs| ==> msgs[i] != channel
    requires multiset(ListenersOf(r, channel))[l] <= 1
    ensures var p := PublishAll(lists, channel, msgs, true);
            var run := HandleAll(r, p.lists, p.sent);
            p.lists == lists && run.lists == lists
            && ReceivedBy(run.deliveries, l) == if l in ListenersOf(r, channel) then msgs else []
    decreases |msgs|
  {
    if msgs != [] {
      var ls := ListenersOf(r, channel);
      var rest := PublishAll(lists, channel, msgs[1..], true);
      var restRun := HandleAll(r, rest.lists, rest.sent);
      assert rest.lists == lists && restRun.lists == lists
             && ReceivedBy(restRun.deliveries, l) == (if l in ls then msgs[1..] else []) by {
        BroadcastRound(r, lists, channel, msgs[1..], l);
      }
      var n := Notification(channel, msgs[0]);
      var p := PublishAll(lists, channel, msgs, true);
      assert p.lists == lists && p.sent == [n] + rest.sent;
      var h := Handle(r, lists, n, false);
      assert h.lists == lists && ReceivedBy(h.deliveries, l) == (if l in ls then [msgs[0]] else []) by {
        BroadcastReceived(r, lists, n, l);
      }
      var run := HandleAll(r, p.lists, p.sent);
      assert run.lists == lists && run.deliveries == h.deliveries + restRun.deliveries by {
        assert p.sent[0] == n && p.sent[1..] == rest.sent;
      }
      assert ReceivedBy(run.deliveries, l) == ReceivedBy(h.deliveries, l) + ReceivedBy(restRun.deliveries, l) by {
        ReceivedByAppend(h.deliveries, restRun.deliveries, l);
      }
      assert [msgs[0]] + msgs[1..] == msgs;
    }
  }

  /** The shared Redis server: its lists and every notification published
      so far, in order. Every connected subscriber sees every notification
      in that order. */
  class RedisStore {
    var lists: Lists
    var published: seq<Notification>

    ghost predicate Valid()
      reads this
    {
      NoEmptyLists(lists)
    }

    constructor ()
      ensures Valid() && lists == map[] && published == []
    {
      lists := map[];
      published := [];
    }

    /** `LPUSH key value`; `fault` makes the reply an error. */
    method LPush(key: string, value: string, fault: bool) returns (err: bool)
      requires Valid()
      modifies this
      ensures Valid() && err == fault && published == old(published)
      ensures lists == if fault then old(lists) else PushHead(old(lists), key, value)
    {
      err := fault;
      if !fault {
        lists := PushHead(lists, key, value);
      }
    }

    /** `RPOP key`; `fault` makes the reply an error. */
    method RPop(key: string, fault: bool) returns (value: Option<string>, err: bool)
      requires Valid()
      modifies this
      ensures Valid() && err == fault && published == old(published)
      ensures fault ==> value == None && lists == old(lists)
      ensures !fault ==> value == Tail(old(lists), key) && lists == DropTail(old(lists), key)
    {
      err := fault;
      value := None;
      if !fault {
        value := Tail(lists, key);
        lists := DropTail(lists, key);
      }
    }

    /** `PUBLISH channel payload`; `fault` makes the reply an error, and
        then nothing is sent. */
    method Publish(channel: string, payload: string, fault: bool)
      modifies this
      ensures lists == old(lists)
      ensures published == old(published) + if fault then [] else [Notification(channel, payload)]
    {
      if !fault {
        published := published + [Notification(channel, payload)];
      }
    }
  }
}
