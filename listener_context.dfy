/** The listener-set protocol of src/index.js. A context owns one listener
    set shared by all its consumers; the Provider calls every listener with
    the new value while it renders; each consumer keeps the record of its
    last render and, in its listener, forces an update unless the new value
    or its selected slice is unchanged. A consumer's listener is identified
    with the consumer object: the subscribing effect re-runs only when
    `forceUpdate` or the listener set changes, and a consumer here stays on
    one context, so its callback stays in the set while it is mounted. */
module ListenerContext {
  import opened Js
  import opened JsSet
  import opened Selection

  class Context<V(==)> {
    const defaultValue: V
    /** Whether the context carries the CONTEXT_LISTENERS marker. */
    const hasListenerMarker: bool
    var listeners: seq<Consumer<V>>

    ghost predicate Valid()
      reads this
    {
      Distinct(listeners)
    }

    /** Every subscribed listener finds its consumer's record populated. */
    ghost predicate ListenersPopulated()
      reads this, listeners
    {
      forall c :: c in listeners ==> c.record.Some?
    }

    /** `createContext(defaultValue)`: a React context plus an empty listener set. */
    constructor CreateContext(defaultValue: V)
      ensures this.defaultValue == defaultValue && hasListenerMarker && listeners == []
      ensures Valid() && ListenersPopulated()
    {
      this.defaultValue := defaultValue;
      hasListenerMarker := true;
      listeners := [];
    }

    /** A context made by React's own `createContext`, without the marker. */
    constructor Foreign(defaultValue: V)
      ensures this.defaultValue == defaultValue && !hasListenerMarker && listeners == []
      ensures Valid() && ListenersPopulated()
    {
      this.defaultValue := defaultValue;
      hasListenerMarker := false;
      listeners := [];
    }

    /** The Provider's render: `listeners.forEach(listener => listener(value))`,
        then the original Provider publishes `value` unchanged. */
    method RenderProvider(value: V) returns (published: V)
      requires Valid()
      modifies listeners
      ensures published == value
      ensures forall k :: 0 <= k < |listeners| ==>
        listeners[k].renderRequests ==
          RequestsAfterNotify(old(listeners[k].record), value, old(listeners[k].renderRequests))
      ensures forall k :: 0 <= k < |listeners| ==>
        listeners[k].record == old(listeners[k].record)
        && listeners[k].subscribed == old(listeners[k].subscribed)
    {
      var i := 0;
      while i < |listeners|
        invariant 0 <= i <= |listeners|
        invariant forall k :: 0 <= k < i ==>
          listeners[k].renderRequests ==
            RequestsAfterNotify(old(listeners[k].record), value, old(listeners[k].renderRequests))
        invariant forall k :: i <= k < |listeners| ==>
          listeners[k].renderRequests == old(listeners[k].renderRequests)
        invariant forall k :: 0 <= k < |listeners| ==>
          listeners[k].record == old(listeners[k].record)
          && listeners[k].subscribed == old(listeners[k].subscribed)
      {
        listeners[i].Callback(value);
        i := i + 1;
      }
      published := value;
    }
  }

  /** One `useContextSelector` hook instance across its renders. */
  class Consumer<V(==)> {
    const context: Context<V>
    /** `ref.current`; null until the first layout effect. */
    var record: Option<Record<V>>
    /** The `useReducer(forcedReducer, 0)` state that `forceUpdate` bumps. */
    var renderRequests: int
    /** The subscribing layout effect has run and not been cleaned up. */
    var subscribed: bool

    ghost predicate Valid()
      reads this, context
    {
      && (subscribed <==> this in context.listeners)
      && (subscribed ==> record.Some?)
    }

    /** Mounting: `useRef(null)` and `useReducer(forcedReducer, 0)`. On a
        context without the listener marker the hook throws before any of
        its hooks run, so no consumer mounts there. */
    constructor Mount(context: Context<V>)
      requires context.hasListenerMarker
      ensures this.context == context && record == None && renderRequests == 0
      ensures Valid()
    {
      this.context := context;
      record := None;
      renderRequests := 0;
      subscribed := false;
    }

    /** The two layout effects of a committed render, whose selector
        returned `selected` for `value`, in declaration order: the record is
        written first, then (on mount only) the listener is
        added to the context's set. */
    method CommitLayoutEffects(selector: Selector<V>, value: V, selected: V)
      requires selector(value) == Returned(selected)
      requires Valid() && context.Valid() && context.ListenersPopulated()
      modifies this`record, this`subscribed, context`listeners
      ensures Valid() && context.Valid() && context.ListenersPopulated()
      ensures record == Some(Record(selector, value, selected))
      ensures subscribed
      ensures context.listeners == Add(old(context.listeners), this)
    {
      record := Some(Record(selector, value, selected));
      if !subscribed {
        context.listeners := Add(context.listeners, this);
        subscribed := true;
      }
    }

    /** The cleanup of the subscribing effect: `listeners.delete(callback)`. */
    method Unmount()
      requires Valid() && context.Valid() && context.ListenersPopulated()
      modifies this`subscribed, context`listeners
      ensures Valid() && context.Valid() && context.ListenersPopulated()
      ensures !subscribed
      ensures context.listeners == Delete(old(context.listeners), this)
    {
      context.listeners := Delete(context.listeners, this);
      subscribed := false;
    }

    /** The listener: force an update unless the `try` block bails out; an
        exception in it is swallowed and falls through to `forceUpdate`. */
    method Callback(nextValue: V)
      modifies this`renderRequests
      ensures renderRequests ==
        RequestsAfterNotify(old(record), nextValue, old(renderRequests))
    {
      var exit := TryBlock(record, nextValue);
      if exit != BailOut {
        renderRequests := ForcedReducer(renderRequests);
      }
    }
  }

  /** How many updates a run of notifications forces. This variant never
      writes the record from the listener, so each notification is judged
      against the record of the last committed render. */
  function ForcedCount<V(==)>(current: Option<Record<V>>, values: seq<V>): nat
  {
    if values == [] then 0
    else (if ShouldForceUpdate(current, values[0]) then 1 else 0) + ForcedCount(current, values[1..])
  }

  /** The Provider calls listeners during render, and a render may be
      repeated: the same value announced `n` times forces `n` updates when it
      forces one, and none otherwise. */
  lemma {:induction false} RepeatedValueForcesEveryTime<V>(current: Option<Record<V>>, v: V, n: nat)
    ensures ForcedCount(current, seq(n, _ => v)) == if ShouldForceUpdate(current, v) then n else 0
  {
    if n > 0 {
      assert seq(n, _ => v)[1..] == seq(n - 1, _ => v);
      RepeatedValueForcesEveryTime(current, v, n - 1);
    }
  }
}
