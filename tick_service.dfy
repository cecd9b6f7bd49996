/**
 * The frame-tick registry (src/services/tick-service.ts).
 *
 * `registerTickable` wraps the tickable in a fresh closure
 * `dt => tickable.update(dt)`, adds that closure to the `subscribers` set and
 * records it in `tickableToCallback`; `tick` calls every closure in the set's
 * insertion order. A closure is modelled as a `Callback` value whose `id`
 * stands for the identity of the function object the call allocated, so two
 * registrations of one tickable give two different callbacks.
 */
module Tick {

  datatype Callback<T> = Callback(id: nat, target: T)

  /** One call `target.update(dt)` made during a tick. */
  datatype Update<T> = Update(target: T, dt: real)

  predicate NoDuplicates<X(==)>(s: seq<X>) {
    forall i, j :: 0 <= i < j < |s| ==> s[i] != s[j]
  }

  /**
   * `set.delete(x)` on an insertion-ordered set: `x` leaves, every other
   * element stays in its order.
   */
  function Without<X(==)>(s: seq<X>, x: X): (r: seq<X>)
    ensures forall i :: 0 <= i < |r| ==> r[i] in s && r[i] != x
    ensures forall i :: 0 <= i < |s| && s[i] != x ==> s[i] in r
    ensures x !in s ==> r == s
    ensures NoDuplicates(s) ==> NoDuplicates(r)
  {
    if s == [] then []
    else
      var init, last := s[..|s| - 1], s[|s| - 1];
      assert s == init + [last];
      var r := Without(init, x);
      if last == x then r
      else
        r + [last]
  }

  /**
   * What `tick(dt)` does: one update per subscriber, in the subscribers'
   * order, each with the same `dt`.
   */
  function Dispatch<T>(subscribers: seq<Callback<T>>, dt: real): (updates: seq<Update<T>>)
    ensures |updates| == |subscribers|
    ensures forall i :: 0 <= i < |subscribers| ==> updates[i] == Update(subscribers[i].target, dt)
  {
    if subscribers == [] then []
    else
      Dispatch(subscribers[..|subscribers| - 1], dt)
      + [Update(subscribers[|subscribers| - 1].target, dt)]
  }

  /** How many of `updates` go to `t`. */
  function UpdateCount<T(==)>(updates: seq<Update<T>>, t: T): nat {
    if updates == [] then 0
    else
      UpdateCount(updates[..|updates| - 1], t)
      + (if updates[|updates| - 1].target == t then 1 else 0)
  }

  /** How many of `subscribers` update `t`. */
  function CallbackCount<T(==)>(subscribers: seq<Callback<T>>, t: T): nat {
    if subscribers == [] then 0
    else
      CallbackCount(subscribers[..|subscribers| - 1], t)
      + (if subscribers[|subscribers| - 1].target == t then 1 else 0)
  }

  /** A tick updates each tickable once per subscribed callback for it. */
  lemma {:induction false} DispatchCount<T>(subscribers: seq<Callback<T>>, t: T, dt: real)
    ensures UpdateCount(Dispatch(subscribers, dt), t) == CallbackCount(subscribers, t)
  {
    if subscribers != [] {
      var init := subscribers[..|subscribers| - 1];
      var updates := Dispatch(subscribers, dt);
      assert updates[..|updates| - 1] == Dispatch(init, dt);
      DispatchCount(init, t, dt);
    }
  }

  /**
   * Adding one callback at the end adds one update for its target and none
   * for any other tickable.
   */
  lemma DispatchAppendCount<T>(subscribers: seq<Callback<T>>, c: Callback<T>, t: T, dt: real)
    ensures UpdateCount(Dispatch(subscribers + [c], dt), t)
         == UpdateCount(Dispatch(subscribers, dt), t) + (if c.target == t then 1 else 0)
  {
    var s := subscribers + [c];
    assert s[..|s| - 1] == subscribers;
    DispatchCount(s, t, dt);
    DispatchCount(subscribers, t, dt);
  }

  /**
   * Removing one callback from a duplicate-free subscriber list removes
   * exactly one callback for its target and none for any other tickable.
   */
  lemma {:induction false} CallbackCountWithout<T>(subscribers: seq<Callback<T>>, c: Callback<T>, t: T)
    requires NoDuplicates(subscribers) && c in subscribers
    ensures CallbackCount(Without(subscribers, c), t) + (if c.target == t then 1 else 0)
         == CallbackCount(subscribers, t)
  {
    var init, last := subscribers[..|subscribers| - 1], subscribers[|subscribers| - 1];
    if last == c {
      assert c !in init;
    } else {
      assert c in init;
      CallbackCountWithout(init, c, t);
      var r := Without(init, c) + [last];
      assert r[..|r| - 1] == Without(init, c);
    }
  }

  /** The same, counted in the updates a tick makes. */
  lemma DispatchWithoutCount<T>(subscribers: seq<Callback<T>>, c: Callback<T>, t: T, dt: real)
    requires NoDuplicates(subscribers) && c in subscribers
    ensures UpdateCount(Dispatch(Without(subscribers, c), dt), t) + (if c.target == t then 1 else 0)
         == UpdateCount(Dispatch(subscribers, dt), t)
  {
    CallbackCountWithout(subscribers, c, t);
    DispatchCount(subscribers, t, dt);
    DispatchCount(Without(subscribers, c), t, dt);
  }

  /** A tick updates `t` not at all exactly when no subscriber targets `t`. */
  lemma {:induction false} NoUpdateIffNoCallback<T>(subscribers: seq<Callback<T>>, t: T, dt: real)
    ensures UpdateCount(Dispatch(subscribers, dt), t) == 0
        <==> forall c :: c in subscribers ==> c.target != t
  {
    DispatchCount(subscribers, t, dt);
    if subscribers != [] {
      var init, last := subscribers[..|subscribers| - 1], subscribers[|subscribers| - 1];
      assert subscribers == init + [last];
      NoUpdateIffNoCallback(init, t, dt);
      DispatchCount(init, t, dt);
    }
  }

  class TickService<T(==)> {
    var subscribers: seq<Callback<T>>
    var tickableToCallback: map<T, Callback<T>>
    /** The id the next closure allocated by `RegisterTickable` gets. */
    var nextId: nat

    /**
     * The set holds each closure once, every closure was allocated before,
     * and every closure the map remembers is still subscribed and updates the
     * tickable it is stored under.
     */
    ghost predicate Valid()
      reads this
    {
      && NoDuplicates(subscribers)
      && (forall c :: c in subscribers ==> c.id < nextId)
      && (forall t :: t in tickableToCallback ==>
            tickableToCallback[t] in subscribers && tickableToCallback[t].target == t)
    }

    constructor()
      ensures Valid()
      ensures subscribers == [] && tickableToCallback == map[]
    {
      subscribers := [];
      tickableToCallback := map[];
      nextId := 0;
    }

    /**
     * Adds a fresh closure for `t`, whether or not `t` is already
     * registered; the map keeps only the newest one.
     */
    method RegisterTickable(t: T)
      requires Valid()
      modifies this
      ensures Valid()
      ensures |subscribers| == |old(subscribers)| + 1
      ensures subscribers[..|old(subscribers)|] == old(subscribers)
      ensures subscribers[|old(subscribers)|] !in old(subscribers)
      ensures subscribers[|old(subscribers)|].target == t
      ensures tickableToCallback == old(tickableToCallback)[t := subscribers[|old(subscribers)|]]
      ensures forall u, dt :: UpdateCount(Dispatch(subscribers, dt), u)
                == UpdateCount(Dispatch(old(subscribers), dt), u) + (if u == t then 1 else 0)
    {
      var callback := Callback(nextId, t);
      assert callback !in subscribers;
      nextId := nextId + 1;
      tickableToCallback := tickableToCallback[t := callback];
      ghost var before := subscribers;
      subscribers := subscribers + [callback];
      assert subscribers[..|before|] == before;
      forall u, dt ensures UpdateCount(Dispatch(subscribers, dt), u)
                == UpdateCount(Dispatch(before, dt), u) + (if u == t then 1 else 0) {
        DispatchAppendCount(before, callback, u, dt);
      }
    }

    /**
     * Deletes the closure the map holds for `t` and the map entry; a
     * tickable with no entry leaves everything as it was.
     */
    method UnregisterTickable(t: T)
      requires Valid()
      modifies this
      ensures Valid()
      ensures t in old(tickableToCallback) ==>
        && subscribers == Without(old(subscribers), old(tickableToCallback)[t])
        && tickableToCallback == old(tickableToCallback) - {t}
        && forall u, dt :: UpdateCount(Dispatch(subscribers, dt), u) + (if u == t then 1 else 0)
                == UpdateCount(Dispatch(old(subscribers), dt), u)
      ensures t !in old(tickableToCallback) ==>
        subscribers == old(subscribers) && tickableToCallback == old(tickableToCallback)
    {
      if t in tickableToCallback {
        var callback := tickableToCallback[t];
        ghost var before, beforeMap := subscribers, tickableToCallback;
        subscribers := Without(subscribers, callback);
        tickableToCallback := tickableToCallback - {t};
        forall u | u in tickableToCallback
          ensures tickableToCallback[u] in subscribers
        {
          var c := beforeMap[u];
          assert c.target == u != t == callback.target;
          var i :| 0 <= i < |before| && before[i] == c;
          assert before[i] != callback;
        }
        forall u, dt ensures UpdateCount(Dispatch(subscribers, dt), u) + (if u == t then 1 else 0)
                == UpdateCount(Dispatch(before, dt), u) {
          DispatchWithoutCount(before, callback, u, dt);
        }
      }
    }

    /** Calls every subscribed closure once, in insertion order, with `dt`. */
    method Tick(dt: real) returns (updates: seq<Update<T>>)
      ensures updates == Dispatch(subscribers, dt)
    {
      updates := [];
      var i := 0;
      while i < |subscribers|
        invariant 0 <= i <= |subscribers|
        invariant updates == Dispatch(subscribers[..i], dt)
      {
        assert subscribers[..i + 1][..i] == subscribers[..i];
        updates := updates + [Update(subscribers[i].target, dt)];
        i := i + 1;
      }
      assert subscribers[..i] == subscribers;
    }
  }

  /**
   * A tickable registered once is updated once per tick, and not at all
   * after it is unregistered.
   */
  method RegisterOnceScenario<T(==)>(t: T, dt: real) returns (updatesBefore: nat, updatesAfter: nat)
    ensures updatesBefore == 1 && updatesAfter == 0
  {
    var service := new TickService<T>();
    assert UpdateCount(Dispatch(service.subscribers, dt), t) == 0;
    service.RegisterTickable(t);
    assert UpdateCount(Dispatch(service.subscribers, dt), t) == 1;
    var updates := service.Tick(dt);
    updatesBefore := UpdateCount(updates, t);
    service.UnregisterTickable(t);
    assert UpdateCount(Dispatch(service.subscribers, dt), t) == 0;
    updates := service.Tick(dt);
    updatesAfter := UpdateCount(updates, t);
  }

  /**
   * Registering a tickable twice makes each tick update it twice, and one
   * unregister leaves the older closure behind, still updating it once.
   */
  method RegisterTwiceScenario<T(==)>(t: T, dt: real) returns (updatesBefore: nat, updatesAfter: nat)
    ensures updatesBefore == 2 && updatesAfter == 1
  {
    var service := new TickService<T>();
    assert UpdateCount(Dispatch(service.subscribers, dt), t) == 0;
    service.RegisterTickable(t);
    assert UpdateCount(Dispatch(service.subscribers, dt), t) == 1;
    service.RegisterTickable(t);
    assert UpdateCount(Dispatch(service.subscribers, dt), t) == 2;
    var updates := service.Tick(dt);
    updatesBefore := UpdateCount(updates, t);
    service.UnregisterTickable(t);
    assert UpdateCount(Dispatch(service.subscribers, dt), t) == 1;
    updates := service.Tick(dt);
    updatesAfter := UpdateCount(updates, t);
  }
}
