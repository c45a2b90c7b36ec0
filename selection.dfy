/** The selector bail-out rule shared by the listener-set variants
    (src/index.js and dist/index.js): the record a consumer keeps, the
    decision its listener makes when the Provider announces a new value, and
    what the hook returns during render. Identity (`===` and `Object.is`) is
    Dafny equality. */
module Selection {
  import opened Js

  const RequiresSpecialContext := "useContextSelector requires special context"

  /** A selector may return a slice or throw. */
  type Selector<!V> = V -> Outcome<V>

  /** `ref.current`: what the consumer rendered last. */
  datatype Record<!V> = Record(selector: Selector<V>, value: V, selected: V)

  /** How the listener's `try` block ends: by `return` (bail out), by
      running off its end, or by a caught exception. */
  datatype TryExit = BailOut | FallThrough | Caught

  /** `forcedReducer`, the reducer behind `forceUpdate`: every dispatch makes
      the counter larger, so React always sees a new state. */
  function ForcedReducer(state: int): (next: int)
    ensures next > state
  {
    state + 1
  }

  /** `identity`, the selector behind `useContext`: it never throws and
      returns its argument. */
  function Identity<V>(value: V): (r: Outcome<V>)
    ensures r.Returned? && r.value == value
  {
    Returned(value)
  }

  /** The `try` block of the listener callback. `ref.current` is null before
      the first layout effect; reading `.value` from it throws a TypeError,
      which the `catch` swallows like any other exception. */
  function TryBlock<V(==)>(current: Option<Record<V>>, nextValue: V): (exit: TryExit)
    ensures current.Some? && current.value.value == nextValue ==> exit == BailOut
    ensures exit == Caught <==>
      current.None? || (current.value.value != nextValue && current.value.selector(nextValue).Threw?)
    ensures exit == FallThrough ==>
      current.Some? && current.value.selector(nextValue).Returned?
      && current.value.selector(nextValue).value != current.value.selected
  {
    match current
    case None => Caught
    case Some(r) =>
      if r.value == nextValue then BailOut
      else match r.selector(nextValue)
        case Threw(_) => Caught
        case Returned(s) => if s == r.selected then BailOut else FallThrough
  }

  /** The listener calls `forceUpdate` unless the `try` block returned. It
      asks for a re-render exactly when the announced value is a different
      value AND the recorded selector does not return the recorded slice for
      it: a different slice, or a throw. */
  function ShouldForceUpdate<V(==)>(current: Option<Record<V>>, nextValue: V): (force: bool)
    ensures current.None? ==> force
    ensures current.Some? ==>
      (force <==> current.value.value != nextValue
                  && current.value.selector(nextValue) != Returned(current.value.selected))
  {
    TryBlock(current, nextValue) != BailOut
  }

  /** The forceUpdate counter after the listener has handled `nextValue`. */
  function RequestsAfterNotify<V(==)>(current: Option<Record<V>>, nextValue: V, requests: int): int
  {
    if ShouldForceUpdate(current, nextValue) then ForcedReducer(requests) else requests
  }

  /** An identical value bails out before the selector is consulted: the
      decision is the same whatever the recorded selector is. */
  lemma IdenticalValueSkipsSelector<V>(r: Record<V>, other: Selector<V>)
    ensures TryBlock(Some(r), r.value) == BailOut
    ensures TryBlock(Some(r.(selector := other)), r.value) == BailOut
  {
  }

  /** A selector that throws on a new value never lets the exception out of
      the listener, and the listener still forces an update. */
  lemma ThrowingSelectorForcesUpdate<V>(r: Record<V>, nextValue: V)
    requires r.value != nextValue && r.selector(nextValue).Threw?
    ensures TryBlock(Some(r), nextValue) == Caught
    ensures ShouldForceUpdate(Some(r), nextValue)
  {
  }

  /** The render-time part of `useContextSelector`: a context without the
      listener marker is rejected before anything else; otherwise the hook
      returns what the selector returns for the context value, and a throw
      there propagates to the renderer. */
  function UseContextSelector<V, S>(hasListenerMarker: bool, value: V, selector: V -> Outcome<S>): (r: Outcome<S>)
    ensures !hasListenerMarker ==> r == Threw(RequiresSpecialContext)
    ensures hasListenerMarker ==> r == selector(value)
  {
    if !hasListenerMarker then Threw(RequiresSpecialContext) else selector(value)
  }

  /** `useContext(context)` is `useContextSelector(context, identity)`. */
  function UseContext<V>(hasListenerMarker: bool, value: V): (r: Outcome<V>)
    ensures hasListenerMarker ==> r == Returned(value)
    ensures !hasListenerMarker ==> r == Threw(RequiresSpecialContext)
  {
    UseContextSelector(hasListenerMarker, value, Identity)
  }
}
