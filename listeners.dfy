/** The local listener registry. Every bus keeps one in a Node.js
    `EventEmitter`; this module gives that emitter's behaviour for the
    calls the buses make (`on`, `off`, `removeAllListeners`, `listeners`,
    `listenerCount`, `emit`) as functions on a map from event name to
    listeners in registration order. */
module Listeners {

  /** A listener is an opaque callback; the model keeps only its identity. */
  type ListenerId = nat

  /** One invocation of a listener with one message. */
  datatype Delivery = Delivery(listener: ListenerId, message: string)

  /** Event name to listeners, oldest registration first. */
  type Registry = map<string, seq<ListenerId>>

  /** The emitter forgets an event name once its last listener is removed. */
  predicate NoEmptyEntries(r: Registry)
  {
    forall name :: name in r ==> r[name] != []
  }

  /** `emitter.listeners(name)`. */
  function ListenersOf(r: Registry, name: string): seq<ListenerId>
  {
    if name in r then r[name] else []
  }

  /** `emitter.on(name, l)`: appends, duplicates allowed. */
  function On(r: Registry, name: string, l: ListenerId): (r': Registry)
    ensures ListenersOf(r', name) == ListenersOf(r, name) + [l]
    ensures forall other :: other != name ==> ListenersOf(r', other) == ListenersOf(r, other)
    ensures NoEmptyEntries(r) ==> NoEmptyEntries(r')
    ensures r'.Keys == r.Keys + {name}
  {
    r[name := ListenersOf(r, name) + [l]]
  }

  /** Position of the most recent registration of `l`, or -1. */
  function LastIndexOf(s: seq<ListenerId>, l: ListenerId): (i: int)
    ensures -1 <= i < |s|
    ensures i == -1 <==> l !in s
    ensures 0 <= i ==> s[i] == l && l !in s[i + 1..]
  {
    if s == [] then -1
    else if s[|s| - 1] == l then |s| - 1
    else
      var i := LastIndexOf(s[..|s| - 1], l);
      assert i >= 0 ==> s[i + 1..] == s[..|s| - 1][i + 1..] + [s[|s| - 1]];
      i
  }

  /** Dropping the element at `i` takes exactly one copy of it out of the multiset. */
  lemma DropAtMultiset(s: seq<ListenerId>, i: nat)
    requires i < |s|
    ensures multiset(s[..i] + s[i + 1..]) == multiset(s) - multiset{s[i]}
  {
    assert s == s[..i] + [s[i]] + s[i + 1..];
  }

  /** The registry with the listeners under `name` replaced by `s`; like
      the emitter, it keeps no entry for an empty list. */
  function SetListeners(r: Registry, name: string, s: seq<ListenerId>): (r': Registry)
    ensures ListenersOf(r', name) == s
    ensures forall other :: other != name ==> ListenersOf(r', other) == ListenersOf(r, other)
    ensures NoEmptyEntries(r) ==> NoEmptyEntries(r')
  {
    if s == [] then r - {name} else r[name := s]
  }

  /** `emitter.off(name, l)`: removes the most recently registered
      occurrence of `l` under `name`, and nothing when there is none. */
  function Off(r: Registry, name: string, l: ListenerId): (r': Registry)
    ensures forall other :: other != name ==> ListenersOf(r', other) == ListenersOf(r, other)
    ensures l !in ListenersOf(r, name) ==> r' == r
    ensures l in ListenersOf(r, name) ==>
              var s, i := ListenersOf(r, name), LastIndexOf(ListenersOf(r, name), l);
              ListenersOf(r', name) == s[..i] + s[i + 1..]
    ensures multiset(ListenersOf(r', name)) == multiset(ListenersOf(r, name)) - multiset{l}
    ensures NoEmptyEntries(r) ==> NoEmptyEntries(r')
  {
    var s := ListenersOf(r, name);
    var i := LastIndexOf(s, l);
    if i < 0 then r
    else
      DropAtMultiset(s, i);
      SetListeners(r, name, s[..i] + s[i + 1..])
  }

  /** `emitter.removeAllListeners(name)`. */
  function RemoveAll(r: Registry, name: string): (r': Registry)
    ensures ListenersOf(r', name) == []
    ensures forall other :: other != name ==> ListenersOf(r', other) == ListenersOf(r, other)
    ensures NoEmptyEntries(r) ==> NoEmptyEntries(r')
  {
    r - {name}
  }

  /** `emitter.emit(name, msg)`: the calls made, one per listener, in
      registration order. */
  function Fanout(ls: seq<ListenerId>, msg: string): (d: seq<Delivery>)
    ensures |d| == |ls|
    ensures forall i {:trigger d[i]} :: 0 <= i < |ls| ==> d[i] == Delivery(ls[i], msg)
  {
    if ls == [] then [] else [Delivery(ls[0], msg)] + Fanout(ls[1..], msg)
  }

  /** The messages listener `l` was called with, in call order. */
  function ReceivedBy(log: seq<Delivery>, l: ListenerId): seq<string>
  {
    if log == [] then []
    else (if log[0].listener == l then [log[0].message] else []) + ReceivedBy(log[1..], l)
  }

  /** Calls of the one listener `l` with each of `msgs`, in order. */
  function CallsTo(l: ListenerId, msgs: seq<string>): (d: seq<Delivery>)
    ensures |d| == |msgs|
  {
    if msgs == [] then [] else [Delivery(l, msgs[0])] + CallsTo(l, msgs[1..])
  }

  /** `n` copies of `msg`. */
  function Repeat(msg: string, n: nat): seq<string>
  {
    if n == 0 then [] else [msg] + Repeat(msg, n - 1)
  }

  lemma {:induction false} ReceivedByAppend(a: seq<Delivery>, b: seq<Delivery>, l: ListenerId)
    ensures ReceivedBy(a + b, l) == ReceivedBy(a, l) + ReceivedBy(b, l)
  {
    if a != [] {
      assert (a + b)[0] == a[0];
      assert (a + b)[1..] == a[1..] + b;
      ReceivedByAppend(a[1..], b, l);
    } else {
      assert a + b == b;
    }
  }

  /** Registering and then unregistering the same listener restores the
      registry exactly: `off` undoes the latest `on`. */
  lemma OffUndoesOn(r: Registry, name: string, l: ListenerId)
    requires NoEmptyEntries(r)
    ensures Off(On(r, name, l), name, l) == r
  {
    var s := ListenersOf(r, name);
    var s' := s + [l];
    assert ListenersOf(On(r, name, l), name) == s';
    assert LastIndexOf(s', l) == |s|;
    assert s'[..|s|] + s'[|s| + 1..] == s;
    if s == [] {
      assert name !in r;
    }
  }

  /** Removing the first-registered listener, when it was registered once,
      makes the next one first. */
  lemma OffFirstPromotesNext(r: Registry, name: string)
    requires ListenersOf(r, name) != []
    requires ListenersOf(r, name)[0] !in ListenersOf(r, name)[1..]
    ensures ListenersOf(Off(r, name, ListenersOf(r, name)[0]), name) == ListenersOf(r, name)[1..]
  {
    var s := ListenersOf(r, name);
    var i := LastIndexOf(s, s[0]);
    assert forall j :: 0 < j < |s| ==> s[j] == s[1..][j - 1];
    assert i == 0;
    assert s[..0] + s[1..] == s[1..];
  }

  /** Removing a listener that is registered twice or more, first among
      them, removes a later registration and keeps it first. */
  lemma OffDuplicateKeepsFirst(r: Registry, name: string)
    requires ListenersOf(r, name) != []
    requires ListenersOf(r, name)[0] in ListenersOf(r, name)[1..]
    ensures var s := ListenersOf(Off(r, name, ListenersOf(r, name)[0]), name);
            s != [] && s[0] == ListenersOf(r, name)[0]
  {
  }

  /** A listener registered once under `name` is gone from it after `off`. */
  lemma OffRemovesSingle(r: Registry, name: string, l: ListenerId)
    requires multiset(ListenersOf(r, name))[l] <= 1
    ensures l !in ListenersOf(Off(r, name, l), name)
  {
    var after: seq<ListenerId> := ListenersOf(Off(r, name, l), name);
    assert multiset(after)[l] == 0;
  }

  /** Calls that all go to `l` give `l` the messages and nobody else any. */
  lemma {:induction false} ReceivedByCallsTo(l: ListenerId, msgs: seq<string>, other: ListenerId)
    ensures ReceivedBy(CallsTo(l, msgs), other) == if other == l then msgs else []
    decreases |msgs|
  {
    if msgs != [] {
      ReceivedByCallsTo(l, msgs[1..], other);
      assert CallsTo(l, msgs)[0] == Delivery(l, msgs[0]);
      assert CallsTo(l, msgs)[1..] == CallsTo(l, msgs[1..]);
      assert msgs == [msgs[0]] + msgs[1..];
    }
  }

  /** A message emitted to `ls` reaches a listener once per registration. */
  lemma {:induction false} ReceivedByFanout(ls: seq<ListenerId>, msg: string, l: ListenerId)
    ensures ReceivedBy(Fanout(ls, msg), l) == Repeat(msg, multiset(ls)[l])
    decreases |ls|
  {
    if ls != [] {
      ReceivedByFanout(ls[1..], msg, l);
      var d := Fanout(ls, msg);
      assert d[0] == Delivery(ls[0], msg);
      assert d[1..] == Fanout(ls[1..], msg);
      assert ls == [ls[0]] + ls[1..];
      assert multiset(ls)[l] == multiset(ls[1..])[l] + (if ls[0] == l then 1 else 0);
      if ls[0] == l {
        assert Repeat(msg, multiset(ls)[l]) == [msg] + Repeat(msg, multiset(ls[1..])[l]);
      }
    }
  }
}
