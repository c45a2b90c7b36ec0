/** The reducer of the person example (examples/02_person/src/state.ts):
    a counter and a person record, each action rewriting one field. */
module PersonState {
  import opened Js

  datatype Person = Person(age: int, firstName: string, lastName: string)

  datatype State = State(count: int, person: Person)

  /** The action types the reducer handles, and any other `type` tag. */
  datatype Action =
    | Increment
    | Decrement
    | SetFirstName(firstName: string)
    | SetLastName(lastName: string)
    | SetAge(age: int)
    | Unknown(actionType: string)

  const UnknownActionMessage := "unknown action type"

  const InitialState := State(0, Person(0, "", ""))

  /** How an action moves the counter. */
  function CountDelta(action: Action): int
  {
    match action
    case Increment => 1
    case Decrement => -1
    case _ => 0
  }

  /** `reducer(state, action)`, field by field: the counter moves by the
      action's delta, each person field takes the action's payload when the
      action sets it and keeps its value otherwise, and an unknown type
      throws. */
  function Reduce(state: State, action: Action): (r: Outcome<State>)
    ensures r.Threw? <==> action.Unknown?
    ensures r.Threw? ==> r.message == UnknownActionMessage
    ensures r.Returned? ==> r.value.count == state.count + CountDelta(action)
    ensures r.Returned? ==>
      r.value.person.firstName == if action.SetFirstName? then action.firstName else state.person.firstName
    ensures r.Returned? ==>
      r.value.person.lastName == if action.SetLastName? then action.lastName else state.person.lastName
    ensures r.Returned? ==>
      r.value.person.age == if action.SetAge? then action.age else state.person.age
  {
    match action
    case Increment => Returned(state.(count := state.count + 1))
    case Decrement => Returned(state.(count := state.count - 1))
    case SetFirstName(n) => Returned(state.(person := state.person.(firstName := n)))
    case SetLastName(n) => Returned(state.(person := state.person.(lastName := n)))
    case SetAge(a) => Returned(state.(person := state.person.(age := a)))
    case Unknown(_) => Threw(UnknownActionMessage)
  }

  /** Decrement undoes increment. */
  lemma IncrementThenDecrement(state: State)
    ensures Reduce(state, Increment).Returned?
    ensures Reduce(Reduce(state, Increment).value, Decrement) == Returned(state)
  {
  }

  /** A run of actions; the first unknown action throws. */
  function ReduceAll(state: State, actions: seq<Action>): Outcome<State>
    decreases |actions|
  {
    if actions == [] then Returned(state)
    else match Reduce(state, actions[0])
      case Threw(m) => Threw(m)
      case Returned(next) => ReduceAll(next, actions[1..])
  }

  function NetCount(actions: seq<Action>): int
  {
    if actions == [] then 0 else CountDelta(actions[0]) + NetCount(actions[1..])
  }

  /** A run of known actions ends with the counter moved by the number of
      increments minus the number of decrements, and never throws. */
  lemma {:induction false} ReduceAllCount(state: State, actions: seq<Action>)
    requires forall i :: 0 <= i < |actions| ==> !actions[i].Unknown?
    ensures ReduceAll(state, actions).Returned?
    ensures ReduceAll(state, actions).value.count == state.count + NetCount(actions)
    decreases |actions|
  {
    if actions != [] {
      ReduceAllCount(Reduce(state, actions[0]).value, actions[1..]);
    }
  }

  /** Counting actions never touch the person record. */
  lemma {:induction false} CountingLeavesPerson(state: State, actions: seq<Action>)
    requires forall i :: 0 <= i < |actions| ==> actions[i] == Increment || actions[i] == Decrement
    ensures ReduceAll(state, actions).Returned?
    ensures ReduceAll(state, actions).value.person == state.person
    decreases |actions|
  {
    if actions != [] {
      CountingLeavesPerson(Reduce(state, actions[0]).value, actions[1..]);
    }
  }
}
