/** `createProviderFromHook` (src/createProviderFromHook.ts): a context whose
    default is the MISSING_PROVIDER sentinel unless a default is given, a
    Provider that publishes the hook's result, and a `useSelector` that goes
    through `useContextSelector` with a selector refusing the sentinel. */
module ProviderFromHook {
  import opened Js
  import opened Selection

  const MissingProviderMessage := "Cannot use this hook without a Provider"

  /** The values the context can hold: the sentinel or a hook result. */
  datatype HookContextValue<T> = MissingProvider | Provided(value: T)

  /** The `defaultValue` argument: left out, passed as `undefined` (which
      JavaScript treats as left out, so the parameter default applies), or
      given as some other value. */
  datatype DefaultArgument<T> = Omitted | ExplicitUndefined | Given(value: T)

  /** The context default: the sentinel unless a value other than
      `undefined` is given, otherwise that value. */
  function ContextDefault<T>(defaultValue: DefaultArgument<T>): (d: HookContextValue<T>)
    ensures d.MissingProvider? <==> !defaultValue.Given?
    ensures defaultValue.Given? ==> d.value == defaultValue.value
  {
    match defaultValue
    case Given(v) => Provided(v)
    case _ => MissingProvider
  }

  /** The value the Provider publishes for the given props. */
  function ProviderValue<P, T>(providerHook: P -> T, props: P): (v: HookContextValue<T>)
    ensures v.Provided?
    ensures v.value == providerHook(props)
  {
    Provided(providerHook(props))
  }

  /** The selector `useSelector` hands to `useContextSelector`. */
  function GuardedSelector<T, S>(selector: T -> Outcome<S>, value: HookContextValue<T>): (r: Outcome<S>)
    ensures value.MissingProvider? ==> r == Threw(MissingProviderMessage)
    ensures value.Provided? ==> r == selector(value.value)
  {
    if value.MissingProvider? then Threw(MissingProviderMessage) else selector(value.value)
  }

  /** `useSelector(selector)` rendered against the context value `value`.
      The context is made by `createContext`, so it has the listener marker. */
  function UseSelector<T, S>(value: HookContextValue<T>, selector: T -> Outcome<S>): (r: Outcome<S>)
    ensures value.MissingProvider? ==> r == Threw(MissingProviderMessage)
    ensures value.Provided? ==> r == selector(value.value)
  {
    UseContextSelector(true, value, v => GuardedSelector(selector, v))
  }

  /** Under a Provider, `useSelector` sees exactly the hook's result. */
  lemma UnderProvider<P, T, S>(providerHook: P -> T, props: P, selector: T -> Outcome<S>)
    ensures UseSelector(ProviderValue(providerHook, props), selector) == selector(providerHook(props))
  {
  }

  /** Without a Provider: an omitted or `undefined` default throws, and a
      given default is selected from like any value. */
  lemma WithoutProvider<T, S>(defaultValue: DefaultArgument<T>, selector: T -> Outcome<S>)
    ensures !defaultValue.Given? ==> UseSelector(ContextDefault(defaultValue), selector) == Threw(MissingProviderMessage)
    ensures defaultValue.Given? ==> UseSelector(ContextDefault(defaultValue), selector) == selector(defaultValue.value)
  {
  }
}
