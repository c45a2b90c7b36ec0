/** The listener-set protocol as built in dist/index.js. It differs from
    src/index.js in two ways: the Provider notifies from a layout effect
    whose only dependency is `value`, so a re-render with an identical value
    notifies nobody; and a listener that does not bail out stores the new
    value in the consumer's record before forcing the update. */
module ListenerContextDist {
  import opened Js
  import opened JsSet
  import opened Selection

  /** The record after the listener has handled `nextValue`: the value is
      recorded exactly when an update is forced. */
  function RecordAfterNotify<V(==)>(r: Record<V>, nextValue: V): (r': Record<V>)
    ensures r'.selector == r.selector && r'.selected == r.selected
    ensures ShouldForceUpdate(Some(r), nextValue) ==> r'.value == nextValue
    ensures !ShouldForceUpdate(Some(r), nextValue) ==> r' == r
  {
    if TryBlock(Some(r), nextValue) == BailOut then r else r.(value := nextValue)
  }

  /** Once a listener has handled a value, a second notification with the
      same value bails out and leaves the record alone. */
  lemma NotifyIdempotent<V>(r: Record<V>, v: V)
    ensures !ShouldForceUpdate(Some(RecordAfterNotify(r, v)), v)
    ensures RecordAfterNotify(RecordAfterNotify(r, v), v) == RecordAfterNotify(r, v)
  {
  }

  /** A run of notifications: the final record and how many updates were
      forced. */
  function Notifications<V(==)>(r: Record<V>, values: seq<V>): (Record<V>, nat)
    decreases |values|
  {
    if values == [] then (r, 0)
    else
      var forced := if ShouldForceUpdate(Some(r), values[0]) then 1 else 0;
      var rest := Notifications(RecordAfterNotify(r, values[0]), values[1..]);
      (rest.0, forced + rest.1)
  }

  lemma {:induction false} BailingValueStaysQuiet<V>(r: Record<V>, v: V, n: nat)
    requires !ShouldForceUpdate(Some(r), v)
    ensures Notifications(r, seq(n, _ => v)) == (r, 0)
  {
    if n > 0 {
      assert seq(n, _ => v)[1..] == seq(n - 1, _ => v);
      BailingValueStaysQuiet(r, v, n - 1);
    }
  }

  /** However often the same value is announced, the listener forces at
      most one update, and it forces one exactly when the first
      notification does. */
  lemma {:induction false} RepeatedValueForcesAtMostOnce<V>(r: Record<V>, v: V, n: nat)
    requires n > 0
    ensures Notifications(r, seq(n, _ => v)).1 == if ShouldForceUpdate(Some(r), v) then 1 else 0
  {
    assert seq(n, _ => v)[1..] == seq(n - 1, _ => v);
    NotifyIdempotent(r, v);
    BailingValueStaysQuiet(RecordAfterNotify(r, v), v, n - 1);
  }

  class Context<V(==)> {
    const defaultValue: V
    /** Whether the context carries the CONTEXT_LISTENERS marker. */
    const hasListenerMarker: bool
    var listeners: seq<Consumer<V>>

    ghost predicate Valid()
      reads this
    {
      Distinct(listeners)
    }

    /** Every subscribed listener finds its consumer's record populated. */
    ghost predicate ListenersPopulated()
      reads this, listeners
    {
      forall c :: c in listeners ==> c.record.Some?
    }

    /** `createContext(defaultValue)`: a React context plus an empty listener set. */
    constructor CreateContext(defaultValue: V)
      ensures this.defaultValue == defaultValue && hasListenerMarker && listeners == []
      ensures Valid() && ListenersPopulated()
    {
      this.defaultValue := defaultValue;
      hasListenerMarker := true;
      listeners := [];
    }

    /** A context made by React's own `createContext`, without the marker. */
    constructor Foreign(defaultValue: V)
      ensures this.defaultValue == defaultValue && !hasListenerMarker && listeners == []
      ensures Valid() && ListenersPopulated()
    {
      this.defaultValue := defaultValue;
      hasListenerMarker := false;
      listeners := [];
    }

    /** `listeners.forEach(listener => listener(value))`. */
    method NotifyAll(value: V)
      requires Valid() && ListenersPopulated()
      modifies listeners
      ensures ListenersPopulated()
      ensures forall k :: 0 <= k < |listeners| ==>
        && listeners[k].record.Some?
        && listeners[k].record.value == RecordAfterNotify(old(listeners[k].record.value), value)
        && listeners[k].renderRequests ==
             RequestsAfterNotify(old(listeners[k].record), value, old(listeners[k].renderRequests))
        && listeners[k].subscribed == old(listeners[k].subscribed)
    {
      var i := 0;
      while i < |listeners|
        invariant 0 <= i <= |listeners|
        invariant forall k :: 0 <= k < i ==>
          && listeners[k].record.Some?
          && listeners[k].record.value == RecordAfterNotify(old(listeners[k].record.value), value)
          && listeners[k].renderRequests ==
               RequestsAfterNotify(old(listeners[k].record), value, old(listeners[k].renderRequests))
        invariant forall k :: i <= k < |listeners| ==>
          listeners[k].record == old(listeners[k].record)
          && listeners[k].renderRequests == old(listeners[k].renderRequests)
        invariant forall k :: 0 <= k < |listeners| ==>
          listeners[k].subscribed == old(listeners[k].subscribed)
      {
        assert listeners[i] in listeners;
        listeners[i].Callback(value);
        i := i + 1;
      }
    }
  }

  /** The Provider component of one mounted `<Context.Provider>`. */
  class Provider<V(==)> {
    const context: Context<V>
    /** The `[value]` dependency of the notifying layout effect at the last
        commit; None before the first commit. */
    var deps: Option<V>

    constructor Mount(context: Context<V>)
      ensures this.context == context && deps == None
    {
      this.context := context;
      deps := None;
    }

    /** A committed Provider render. The effect runs, and notifies every
        listener, only when `value` differs from the last committed one. */
    method Commit(value: V) returns (notified: bool)
      requires context.Valid() && context.ListenersPopulated()
      modifies this`deps, context.listeners
      ensures deps == Some(value)
      ensures notified <==> old(deps) != Some(value)
      ensures context.ListenersPopulated()
      ensures notified ==> forall k :: 0 <= k < |context.listeners| ==>
        && context.listeners[k].record.Some?
        && context.listeners[k].record.value
             == RecordAfterNotify(old(context.listeners[k].record.value), value)
        && context.listeners[k].renderRequests ==
             RequestsAfterNotify(old(context.listeners[k].record), value, old(context.listeners[k].renderRequests))
      ensures !notified ==> forall k :: 0 <= k < |context.listeners| ==>
        context.listeners[k].record == old(context.listeners[k].record)
        && context.listeners[k].renderRequests == old(context.listeners[k].renderRequests)
      ensures forall k :: 0 <= k < |context.listeners| ==>
        context.listeners[k].subscribed == old(context.listeners[k].subscribed)
    {
      notified := deps != Some(value);
      if notified {
        context.NotifyAll(value);
      }
      deps := Some(value);
    }
  }

  /** One `useContextSelector` hook instance across its renders. */
  class Consumer<V(==)> {
    const context: Context<V>
    /** `ref.current`; null until the first layout effect. */
    var record: Option<Record<V>>
    /** The `useReducer(forcedReducer, 0)` state that `forceUpdate` bumps. */
    var renderRequests: int
    /** The subscribing layout effect has run and not been cleaned up. */
    var subscribed: bool

    ghost predicate Valid()
      reads this, context
    {
      && (subscribed <==> this in context.listeners)
      && (subscribed ==> record.Some?)
    }

    /** Mounting: `useRef(null)` and `useReducer(forcedReducer, 0)`. On a
        context without the listener marker the hook throws before any of
        its hooks run, so no consumer mounts there. */
    constructor Mount(context: Context<V>)
      requires context.hasListenerMarker
      ensures this.context == context && record == None && renderRequests == 0
      ensures Valid()
    {
      this.context := context;
      record := None;
      renderRequests := 0;
      subscribed := false;
    }

    /** The two layout effects of a committed render, whose selector
        returned `selected` for `value`, in declaration order: the record is
        written first, then (on mount only) the listener is
        added to the context's set. */
    method CommitLayoutEffects(selector: Selector<V>, value: V, selected: V)
      requires selector(value) == Returned(selected)
      requires Valid() && context.Valid() && context.ListenersPopulated()
      modifies this`record, this`subscribed, context`listeners
      ensures Valid() && context.Valid() && context.ListenersPopulated()
      ensures record == Some(Record(selector, value, selected))
      ensures subscribed
      ensures context.listeners == Add(old(context.listeners), this)
    {
      record := Some(Record(selector, value, selected));
      if !subscribed {
        context.listeners := Add(context.listeners, this);
        subscribed := true;
      }
    }

    /** The cleanup of the subscribing effect: `listeners.delete(callback)`. */
    method Unmount()
      requires Valid() && context.Valid() && context.ListenersPopulated()
      modifies this`subscribed, context`listeners
      ensures Valid() && context.Valid() && context.ListenersPopulated()
      ensures !subscribed
      ensures context.listeners == Delete(old(context.listeners), this)
    {
      context.listeners := Delete(context.listeners, this);
      subscribed := false;
    }

    /** The listener. Outside the `try`, `ref.current.value = nextValue`
        would throw on a null record; a subscribed listener always finds
        its record populated (ListenersPopulated), so it is required here. */
    method Callback(nextValue: V)
      requires record.Some?
      modifies this`record, this`renderRequests
      ensures record == Some(RecordAfterNotify(old(record.value), nextValue))
      ensures renderRequests ==
        RequestsAfterNotify(old(record), nextValue, old(renderRequests))
    {
      var exit := TryBlock(record, nextValue);
      if exit != BailOut {
        record := Some(record.value.(value := nextValue));
        renderRequests := ForcedReducer(renderRequests);
      }
    }
  }
}
