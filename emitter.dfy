/** `Emitter`: a registry of event listeners, some called on every `fire` and
    some only on the next one. Listeners and their `this` receivers are
    represented by identities. */
module Emitters {
  import opened Wrappers

  type ListenerId = nat
  type Receiver = nat

  /** Which getter produced a subscribing function: `event` or `once`. */
  datatype EventKind = Persistent | OnceOnly

  /** The handle a subscription returns; disposing it unsubscribes. */
  datatype Subscription = Subscription(kind: EventKind, listener: ListenerId, thisArg: Option<Receiver>)

  /** One listener invocation of `fire`: the listener, the receiver it was
      called with (`undefined` when the receiver list is shorter), and whether
      it threw (the exception is caught and logged). */
  datatype Call = Call(listener: ListenerId, receiver: Option<Receiver>, threw: bool)

  /** The five arrays of an emitter. */
  datatype Registry = Registry(
    events: seq<EventKind>,
    listeners: seq<ListenerId>,
    thises: seq<Receiver>,
    onceListeners: seq<ListenerId>,
    onceThises: seq<Receiver>)

  const EMPTY: Registry := Registry([], [], [], [], [])

  // ---- the specification --------------------------------------------------

  /** `s.filter(y => y !== x)`. */
  function Without(s: seq<nat>, x: nat): (r: seq<nat>)
    ensures x !in r
    ensures forall y :: y in r <==> y in s && y != x
    ensures |r| <= |s|
  {
    if s == [] then []
    else if s[0] == x then Without(s[1..], x)
    else [s[0]] + Without(s[1..], x)
  }

  /** Filtering distributes over concatenation, so the items kept stay in
      their order. */
  lemma {:induction false} WithoutAppend(a: seq<nat>, b: seq<nat>, x: nat)
    ensures Without(a + b, x) == Without(a, x) + Without(b, x)
    decreases |a|
  {
    if a != [] {
      assert (a + b)[1..] == a[1..] + b;
      WithoutAppend(a[1..], b, x);
    } else {
      assert a + b == b;
    }
  }

  /** Filtering out an item that is not there changes nothing. */
  lemma {:induction false} WithoutAbsent(s: seq<nat>, x: nat)
    requires x !in s
    ensures Without(s, x) == s
    decreases |s|
  {
    if s != [] {
      WithoutAbsent(s[1..], x);
    }
  }

  /** Appends `x` when it is given (`if (thisArg !== undefined) push`). */
  function PushIfGiven<T>(s: seq<T>, x: Option<T>): (r: seq<T>)
    ensures x.None? ==> r == s
    ensures x.Some? ==> r == s + [x.value]
  {
    if x.Some? then s + [x.value] else s
  }

  /** Calling the function a getter returned: the listener goes to the end of
      its list, and the receiver, when given, to the end of its list. */
  function Subscribed(r: Registry, sub: Subscription): (r': Registry)
    ensures sub.kind == Persistent ==>
      r'.listeners == r.listeners + [sub.listener] && r'.onceListeners == r.onceListeners
      && r'.thises == PushIfGiven(r.thises, sub.thisArg) && r'.onceThises == r.onceThises
    ensures sub.kind == OnceOnly ==>
      r'.onceListeners == r.onceListeners + [sub.listener] && r'.listeners == r.listeners
      && r'.onceThises == PushIfGiven(r.onceThises, sub.thisArg) && r'.thises == r.thises
    ensures r'.events == r.events
  {
    match sub.kind
    case Persistent => r.(listeners := r.listeners + [sub.listener], thises := PushIfGiven(r.thises, sub.thisArg))
    case OnceOnly => r.(onceListeners := r.onceListeners + [sub.listener], onceThises := PushIfGiven(r.onceThises, sub.thisArg))
  }

  /** Disposing a subscription: every occurrence of its listener leaves its
      list, and every occurrence of its receiver, when it had one. */
  function Unsubscribed(r: Registry, sub: Subscription): (r': Registry)
    ensures sub.kind == Persistent ==>
      sub.listener !in r'.listeners && r'.onceListeners == r.onceListeners && r'.onceThises == r.onceThises
    ensures sub.kind == OnceOnly ==>
      sub.listener !in r'.onceListeners && r'.listeners == r.listeners && r'.thises == r.thises
    ensures forall l :: l != sub.listener ==> (l in r'.listeners <==> l in r.listeners) && (l in r'.onceListeners <==> l in r.onceListeners)
    ensures r'.events == r.events
  {
    match sub.kind
    case Persistent =>
      r.(listeners := Without(r.listeners, sub.listener),
         thises := if sub.thisArg.Some? then Without(r.thises, sub.thisArg.value) else r.thises)
    case OnceOnly =>
      r.(onceListeners := Without(r.onceListeners, sub.listener),
         onceThises := if sub.thisArg.Some? then Without(r.onceThises, sub.thisArg.value) else r.onceThises)
  }

  /** The calls of one loop of `fire`: listener `i` gets receiver `i`. */
  function Calls(listeners: seq<ListenerId>, thises: seq<Receiver>, throws: ListenerId -> bool): (c: seq<Call>)
    ensures |c| == |listeners|
    ensures forall i :: 0 <= i < |listeners| ==>
      c[i].listener == listeners[i] && c[i].threw == throws(listeners[i])
      && c[i].receiver == (if i < |thises| then Some(thises[i]) else None)
  {
    seq(|listeners|, i requires 0 <= i < |listeners| =>
      Call(listeners[i], if i < |thises| then Some(thises[i]) else None, throws(listeners[i])))
  }

  /** `fire`: every persistent listener in order, then every once listener in
      order; a listener that throws does not stop the others. */
  function FireCalls(r: Registry, throws: ListenerId -> bool): (c: seq<Call>)
    ensures |c| == |r.listeners| + |r.onceListeners|
    ensures forall i :: 0 <= i < |r.listeners| ==> c[i].listener == r.listeners[i]
    ensures forall j :: 0 <= j < |r.onceListeners| ==> c[|r.listeners| + j].listener == r.onceListeners[j]
  {
    Calls(r.listeners, r.thises, throws) + Calls(r.onceListeners, r.onceThises, throws)
  }

  /** The registry after `fire`: the once lists are emptied. */
  function Fired(r: Registry): (r': Registry)
    ensures r'.onceListeners == [] && r'.onceThises == []
    ensures r'.listeners == r.listeners && r'.thises == r.thises && r'.events == r.events
  {
    r.(onceListeners := [], onceThises := [])
  }

  predicate HasListeners(r: Registry) {
    |r.listeners| > 0 || |r.onceListeners| > 0
  }

  // ---- properties ----------------------------------------------------------

  /** A second `fire` calls exactly the persistent listeners, as the first
      one did: once listeners run only once. */
  lemma {:induction false} FireTwice(r: Registry, throws: ListenerId -> bool)
    ensures FireCalls(Fired(r), throws) == Calls(r.listeners, r.thises, throws)
    ensures FireCalls(r, throws)[..|r.listeners|] == FireCalls(Fired(r), throws)
  {
    assert Calls([], [], throws) == [];
  }

  /** After a `fire`, the emitter has listeners exactly when it has
      persistent ones. */
  lemma {:induction false} FiredHasListeners(r: Registry)
    ensures HasListeners(Fired(r)) <==> |r.listeners| > 0
  {
  }

  /** Subscribing a listener that was not there and then disposing the
      subscription without a receiver restores the registry. */
  lemma {:induction false} SubscribeThenDispose(r: Registry, kind: EventKind, listener: ListenerId)
    requires listener !in r.listeners && listener !in r.onceListeners
    ensures Unsubscribed(Subscribed(r, Subscription(kind, listener, None)), Subscription(kind, listener, None)) == r
  {
    WithoutAppend(r.listeners, [listener], listener);
    WithoutAppend(r.onceListeners, [listener], listener);
    WithoutAbsent(r.listeners, listener);
    WithoutAbsent(r.onceListeners, listener);
  }

  /** Disposing a subscription keeps the other listeners in their order. */
  lemma {:induction false} DisposeKeepsOrder(a: seq<ListenerId>, b: seq<ListenerId>, listener: ListenerId)
    requires listener !in a && listener !in b
    ensures Without(a + [listener] + b, listener) == a + b
  {
    WithoutAppend(a + [listener], b, listener);
    WithoutAppend(a, [listener], listener);
    WithoutAbsent(a, listener);
    WithoutAbsent(b, listener);
    assert Without([listener], listener) == [] by {
      assert [listener][1..] == [];
    }
    assert Without(a + [listener], listener) == a;
  }

  /** Receivers are pushed only when given, so after a subscription without
      one, the next listener's receiver is handed to the earlier listener and
      the next listener gets none. */
  lemma {:induction false} ReceiversMisaligned(r: Registry, first: ListenerId, second: ListenerId, t: Receiver, throws: ListenerId -> bool)
    requires |r.thises| == |r.listeners|
    ensures var r' := Subscribed(Subscribed(r, Subscription(Persistent, first, None)), Subscription(Persistent, second, Some(t)));
      var c := FireCalls(r', throws);
      var n := |r.listeners|;
      c[n] == Call(first, Some(t), throws(first)) && c[n + 1] == Call(second, None, throws(second))
  {
  }

  /** While every subscription passes a receiver, each listener gets its own. */
  lemma {:induction false} ReceiversAligned(r: Registry, listener: ListenerId, t: Receiver, throws: ListenerId -> bool)
    requires |r.thises| == |r.listeners|
    ensures var r' := Subscribed(r, Subscription(Persistent, listener, Some(t)));
      |r'.thises| == |r'.listeners| && FireCalls(r', throws)[|r.listeners|] == Call(listener, Some(t), throws(listener))
  {
  }

  // ---- the class -----------------------------------------------------------

  class Emitter {
    var events: seq<EventKind>
    var listeners: seq<ListenerId>
    var thises: seq<Receiver>
    var onceListeners: seq<ListenerId>
    var onceThises: seq<Receiver>

    function Snapshot(): Registry
      reads this
    {
      Registry(events, listeners, thises, onceListeners, onceThises)
    }

    constructor ()
      ensures Snapshot() == EMPTY
    {
      events, listeners, thises, onceListeners, onceThises := [], [], [], [], [];
    }

    /** The `event` getter: records a new subscribing function. */
    method Event() returns (kind: EventKind)
      modifies this
      ensures kind == Persistent
      ensures Snapshot() == old(Snapshot()).(events := old(events) + [Persistent])
    {
      events := events + [Persistent];
      return Persistent;
    }

    /** The `once` getter. */
    method Once() returns (kind: EventKind)
      modifies this
      ensures kind == OnceOnly
      ensures Snapshot() == old(Snapshot()).(events := old(events) + [OnceOnly])
    {
      events := events + [OnceOnly];
      return OnceOnly;
    }

    /** Calling a subscribing function. */
    method Subscribe(kind: EventKind, listener: ListenerId, thisArg: Option<Receiver>) returns (sub: Subscription)
      modifies this
      ensures sub == Subscription(kind, listener, thisArg)
      ensures Snapshot() == Subscribed(old(Snapshot()), sub)
    {
      if kind == Persistent {
        listeners := listeners + [listener];
        if thisArg.Some? {
          thises := thises + [thisArg.value];
        }
      } else {
        onceListeners := onceListeners + [listener];
        if thisArg.Some? {
          onceThises := onceThises + [thisArg.value];
        }
      }
      return Subscription(kind, listener, thisArg);
    }

    /** The `dispose` of a subscription. */
    method DisposeSubscription(sub: Subscription)
      modifies this
      ensures Snapshot() == Unsubscribed(old(Snapshot()), sub)
    {
      if sub.kind == Persistent {
        listeners := Without(listeners, sub.listener);
        if sub.thisArg.Some? {
          thises := Without(thises, sub.thisArg.value);
        }
      } else {
        onceListeners := Without(onceListeners, sub.listener);
        if sub.thisArg.Some? {
          onceThises := Without(onceThises, sub.thisArg.value);
        }
      }
    }

    /** `fire`: the two loops, then the once lists are emptied. `throws`
        says which listeners throw. */
    method Fire(throws: ListenerId -> bool) returns (calls: seq<Call>)
      modifies this
      ensures calls == FireCalls(old(Snapshot()), throws)
      ensures Snapshot() == Fired(old(Snapshot()))
    {
      calls := [];
      for i := 0 to |listeners|
        invariant calls == Calls(listeners[..i], thises, throws)
      {
        assert listeners[..i + 1][..i] == listeners[..i];
        var receiver := if i < |thises| then Some(thises[i]) else None;
        calls := calls + [Call(listeners[i], receiver, throws(listeners[i]))];
      }
      assert listeners[..|listeners|] == listeners;
      ghost var first := calls;
      for i := 0 to |onceListeners|
        invariant calls == first + Calls(onceListeners[..i], onceThises, throws)
      {
        assert onceListeners[..i + 1][..i] == onceListeners[..i];
        var receiver := if i < |onceThises| then Some(onceThises[i]) else None;
        calls := calls + [Call(onceListeners[i], receiver, throws(onceListeners[i]))];
      }
      assert onceListeners[..|onceListeners|] == onceListeners;
      onceListeners := [];
      onceThises := [];
    }

    function HasListener(): (b: bool)
      reads this
      ensures b <==> HasListeners(Snapshot())
    {
      |listeners| > 0 || |onceListeners| > 0
    }

    /** `dispose`: all five arrays are emptied. */
    method Dispose()
      modifies this
      ensures Snapshot() == EMPTY
    {
      events, listeners, thises, onceListeners, onceThises := [], [], [], [], [];
    }
  }

  /** A disposed emitter calls nobody. */
  lemma {:induction false} DisposedFiresNothing(throws: ListenerId -> bool)
    ensures FireCalls(EMPTY, throws) == [] && !HasListeners(EMPTY)
  {
    assert Calls([], [], throws) == [];
  }
}
