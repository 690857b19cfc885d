/** The counter of exemple-redux.js: a reducer over a state with a `compteur`
    field, the fold of that reducer over a sequence of actions, and the store
    the script drives through four dispatches. */
module ExempleRedux {

  datatype Option<T> = None | Some(value: T)

  /** A JavaScript value held by a field of the state other than `compteur`. */
  datatype Value = Null | Bool(b: bool) | Num(n: int) | Str(s: string)

  /** A state object: its `compteur` field, and every other field by name
      (the reducer copies those with a spread and never reads them). */
  datatype State = State(compteur: int, others: map<string, Value>)

  /** An action object; the reducer only reads its `type` discriminant. */
  datatype Action = Action(kind: string)

  const Incrementer := "INCREMENTER"
  const Decrementer := "DECREMENTER"

  /** The type of the action `createStore` dispatches to obtain its first state. */
  const InitKind := "@@redux/INIT"

  /** `etatInitial`: the counter at zero and no other field. */
  const InitialState := State(0, map[])

  /** The state the reducer works on: the one it was given, or `etatInitial`
      when that argument is absent. */
  function Current(state: Option<State>): State {
    match state
    case Some(s) => s
    case None => InitialState
  }

  /** `reducer`: the transition function, with its default argument. */
  function Reducer(state: Option<State>, action: Action): (r: State)
    ensures r.others == Current(state).others
    ensures r.compteur == Current(state).compteur + 1 <==> action.kind == Incrementer
    ensures r.compteur == Current(state).compteur - 1 <==> action.kind == Decrementer
    ensures r == Current(state) <==> action.kind != Incrementer && action.kind != Decrementer
  {
    var s := Current(state);
    if action.kind == Incrementer then s.(compteur := s.compteur + 1)
    else if action.kind == Decrementer then s.(compteur := s.compteur - 1)
    else s
  }

  /** The state after dispatching `actions` in order, starting from `s`:
      the left fold of the reducer. */
  function Run(s: State, actions: seq<Action>): State
    decreases |actions|
  {
    if actions == [] then s else Run(Reducer(Some(s), actions[0]), actions[1..])
  }

  /** How many of `actions` have type `kind`. */
  function Count(actions: seq<Action>, kind: string): nat
    decreases |actions|
  {
    if actions == [] then 0
    else (if actions[0].kind == kind then 1 else 0) + Count(actions[1..], kind)
  }

  /** Calling the reducer without a state is calling it with `etatInitial`. */
  lemma AbsentStateIsInitial(action: Action)
    ensures Reducer(None, action) == Reducer(Some(InitialState), action)
    ensures InitialState.compteur == 0
  {
  }

  /** An increment and a decrement cancel out, in either order. */
  lemma IncrementDecrementCancel(s: State)
    ensures Reducer(Some(Reducer(Some(s), Action(Incrementer))), Action(Decrementer)) == s
    ensures Reducer(Some(Reducer(Some(s), Action(Decrementer))), Action(Incrementer)) == s
  {
  }

  /** Dispatching one more action applies the reducer once more to the folded state. */
  lemma {:induction false} RunSnoc(s: State, actions: seq<Action>, a: Action)
    ensures Run(s, actions + [a]) == Reducer(Some(Run(s, actions)), a)
    decreases |actions|
  {
    if actions != [] {
      assert (actions + [a])[1..] == actions[1..] + [a];
      RunSnoc(Reducer(Some(s), actions[0]), actions[1..], a);
    }
  }

  /** After any sequence of actions the counter has moved by the number of
      increments minus the number of decrements, and no other field changed. */
  lemma {:induction false} RunCounts(s: State, actions: seq<Action>)
    ensures Run(s, actions).compteur
         == s.compteur + Count(actions, Incrementer) - Count(actions, Decrementer)
    ensures Run(s, actions).others == s.others
    decreases |actions|
  {
    if actions != [] {
      RunCounts(Reducer(Some(s), actions[0]), actions[1..]);
    }
  }

  /** From `etatInitial`, the state is determined by the two counts alone. */
  lemma RunFromInitial(actions: seq<Action>)
    ensures Run(InitialState, actions)
         == State(Count(actions, Incrementer) - Count(actions, Decrementer), map[])
  {
    RunCounts(InitialState, actions);
  }

  /** Actions of any other type are ignored by the fold, however many there are. */
  lemma {:induction false} UnknownActionsIgnored(s: State, actions: seq<Action>)
    requires forall i :: 0 <= i < |actions| ==>
               actions[i].kind != Incrementer && actions[i].kind != Decrementer
    ensures Run(s, actions) == s
    decreases |actions|
  {
    if actions != [] {
      UnknownActionsIgnored(Reducer(Some(s), actions[0]), actions[1..]);
    }
  }

  /** The store `redux.createStore(reducer)` builds: it holds the current state
      and replaces it on every dispatch. */
  class Store {
    var state: State
    /** Every action dispatched so far, in order. */
    ghost var dispatched: seq<Action>

    /** The current state is the fold of the reducer over what was dispatched. */
    ghost predicate Valid()
      reads this
    {
      state == Run(InitialState, dispatched)
    }

    /** The store asks the reducer for its first state with an absent state. */
    constructor ()
      ensures Valid() && dispatched == [] && state == InitialState
    {
      state := Reducer(None, Action(InitKind));
      dispatched := [];
    }

    /** `store.getState()`: the counter is the number of increments minus the
        number of decrements dispatched, and no other field exists. */
    method GetState() returns (s: State)
      requires Valid()
      ensures s == state
      ensures s.compteur == Count(dispatched, Incrementer) - Count(dispatched, Decrementer)
      ensures s.others == map[]
    {
      RunFromInitial(dispatched);
      s := state;
    }

    /** `store.dispatch(action)`: replaces the state with the reducer's result. */
    method Dispatch(action: Action)
      requires Valid()
      modifies this
      ensures Valid()
      ensures dispatched == old(dispatched) + [action]
      ensures state == Reducer(Some(old(state)), action)
    {
      RunSnoc(InitialState, dispatched, action);
      state := Reducer(Some(state), action);
      dispatched := dispatched + [action];
    }
  }

  /** The script: the state it logs first and after each of its four dispatches. */
  method Script() returns (logged: seq<State>)
    ensures logged == [State(0, map[]), State(1, map[]), State(2, map[]),
                       State(1, map[]), State(0, map[])]
  {
    var store := new Store();
    var s := store.GetState();
    logged := [s];
    store.Dispatch(Action(Incrementer));
    s := store.GetState();
    logged := logged + [s];
    store.Dispatch(Action(Incrementer));
    s := store.GetState();
    logged := logged + [s];
    store.Dispatch(Action(Decrementer));
    s := store.GetState();
    logged := logged + [s];
    store.Dispatch(Action(Decrementer));
    s := store.GetState();
    logged := logged + [s];
  }
}
