/** The reducer of the minimal example (examples/01_minimal/src/index.js):
    a counter and a text. */
module MinimalState {
  import opened Js

  datatype State = State(count: int, text: string)

  /** The action types the reducer handles, and any other `type` tag. */
  datatype Action = Increment | Decrement | SetText(text: string) | Unknown(actionType: string)

  const InitialState := State(0, "hello")

  /** `reducer(state, action)`: the counter moves by one on increment and
      decrement, the text takes the payload of setText, every other field
      is kept, and an unknown type throws with the type in the message. */
  function Reduce(state: State, action: Action): (r: Outcome<State>)
    ensures r.Threw? <==> action.Unknown?
    ensures action.Unknown? ==> r.message == "unknown action type: " + action.actionType
    ensures r.Returned? ==>
      r.value.count == state.count + (if action.Increment? then 1 else if action.Decrement? then -1 else 0)
    ensures r.Returned? ==> r.value.text == if action.SetText? then action.text else state.text
  {
    match action
    case Increment => Returned(state.(count := state.count + 1))
    case Decrement => Returned(state.(count := state.count - 1))
    case SetText(t) => Returned(state.(text := t))
    case Unknown(t) => Threw("unknown action type: " + t)
  }

  /** Decrement undoes increment, and the reverse. */
  lemma IncrementDecrementInverse(state: State)
    ensures Reduce(state, Increment).Returned? && Reduce(state, Decrement).Returned?
    ensures Reduce(Reduce(state, Increment).value, Decrement) == Returned(state)
    ensures Reduce(Reduce(state, Decrement).value, Increment) == Returned(state)
  {
  }

  /** Setting the text twice keeps only the last text. */
  lemma SetTextOverwrites(state: State, t1: string, t2: string)
    ensures Reduce(state, SetText(t1)).Returned?
    ensures Reduce(Reduce(state, SetText(t1)).value, SetText(t2)) == Reduce(state, SetText(t2))
  {
  }
}
