/** The "stockage" slice of mon-react-application/src/stockage/index.js: a
    counter that moves in steps of five and a visibility flag. Its case
    reducers update the fields of a draft in place; the store sees the result
    as a new state value. */
module Stockage {

  /** The slice state `{compteur, visible}`. */
  datatype SliceState = SliceState(compteur: int, visible: bool)

  /** The two actions the slice declares. */
  datatype SliceAction = IncrementerCinq | ChangerVisible

  /** `initialState`: counter at zero, visible. */
  const InitialState := SliceState(0, true)

  /** The slice reducer as value replacement: the next state built from the old one. */
  function Reduce(s: SliceState, a: SliceAction): (r: SliceState)
    ensures a.IncrementerCinq? ==> r.visible == s.visible && r.compteur - s.compteur == 5
    ensures a.ChangerVisible? ==> r.compteur == s.compteur && r.visible != s.visible
  {
    match a
    case IncrementerCinq => s.(compteur := s.compteur + 5)
    case ChangerVisible => s.(visible := !s.visible)
  }

  /** The state after the actions in order, starting from `s`. */
  function Run(s: SliceState, actions: seq<SliceAction>): SliceState
    decreases |actions|
  {
    if actions == [] then s else Run(Reduce(s, actions[0]), actions[1..])
  }

  /** How many of `actions` are `a`. */
  function Count(actions: seq<SliceAction>, a: SliceAction): nat
    decreases |actions|
  {
    if actions == [] then 0
    else (if actions[0] == a then 1 else 0) + Count(actions[1..], a)
  }

  /** The state being updated by a case reducer: the draft whose two fields
      `state.compteur += 5` and `state.visible = !state.visible` assign. */
  class Draft {
    var compteur: int
    var visible: bool

    /** The value the draft currently holds. */
    function Value(): SliceState
      reads this
    {
      SliceState(compteur, visible)
    }

    /** A draft of the state `s`. */
    constructor (s: SliceState)
      ensures Value() == s
    {
      compteur := s.compteur;
      visible := s.visible;
    }

    /** `INCREMENTER_CINQ`: adds five to the counter, leaves the flag. */
    method IncrementerCinq()
      modifies this
      ensures compteur == old(compteur) + 5
      ensures visible == old(visible)
    {
      compteur := compteur + 5;
    }

    /** `CHANGER_VISIBLE`: negates the flag, leaves the counter. */
    method ChangerVisible()
      modifies this
      ensures visible == !old(visible)
      ensures compteur == old(compteur)
    {
      visible := !visible;
    }

    /** Runs the case reducer of `a` on this draft; the in-place update
        leaves exactly the value the pure reducer returns. */
    method Apply(a: SliceAction)
      modifies this
      ensures Value() == Reduce(old(Value()), a)
    {
      match a
      case IncrementerCinq => IncrementerCinq();
      case ChangerVisible => ChangerVisible();
    }
  }

  /** The slice reducer as the store runs it: copy the state into a draft,
      mutate the draft with the case reducer, hand back the draft's value.
      It agrees with the pure reducer. */
  method Produce(s: SliceState, a: SliceAction) returns (r: SliceState)
    ensures r == Reduce(s, a)
  {
    var draft := new Draft(s);
    draft.Apply(a);
    r := draft.Value();
  }

  /** `CHANGER_VISIBLE` twice gives the state back. */
  lemma ChangerVisibleInvolution(s: SliceState)
    ensures Reduce(Reduce(s, ChangerVisible), ChangerVisible) == s
  {
  }

  /** The two actions touch disjoint fields, so any two actions commute. */
  lemma ActionsCommute(s: SliceState, a: SliceAction, b: SliceAction)
    ensures Reduce(Reduce(s, a), b) == Reduce(Reduce(s, b), a)
  {
  }

  /** After any sequence of actions the counter has moved by five per
      `INCREMENTER_CINQ`, and the flag has flipped once per `CHANGER_VISIBLE`. */
  lemma {:induction false} RunCounts(s: SliceState, actions: seq<SliceAction>)
    ensures Run(s, actions).compteur == s.compteur + 5 * Count(actions, IncrementerCinq)
    ensures Run(s, actions).visible == (s.visible == (Count(actions, ChangerVisible) % 2 == 0))
    decreases |actions|
  {
    if actions != [] {
      RunCounts(Reduce(s, actions[0]), actions[1..]);
    }
  }

  /** From `initialState`, the counter is a non-negative multiple of five and
      the flag is set exactly when `CHANGER_VISIBLE` came an even number of times. */
  lemma RunFromInitial(actions: seq<SliceAction>)
    ensures Run(InitialState, actions).compteur == 5 * Count(actions, IncrementerCinq)
    ensures Run(InitialState, actions).compteur >= 0
    ensures Run(InitialState, actions).compteur % 5 == 0
    ensures Run(InitialState, actions).visible <==> Count(actions, ChangerVisible) % 2 == 0
  {
    RunCounts(InitialState, actions);
  }

  /** From `initialState`, n `INCREMENTER_CINQ` actions give the counter 5 * n. */
  lemma {:induction false} RunIncrementsOnly(actions: seq<SliceAction>)
    requires forall i :: 0 <= i < |actions| ==> actions[i] == IncrementerCinq
    ensures Run(InitialState, actions) == SliceState(5 * |actions|, true)
  {
    RunFromInitial(actions);
    CountAll(actions, IncrementerCinq);
    CountAll(actions, ChangerVisible);
  }

  /** The count of `a` is the number of positions holding `a`: all of them
      when every action is `a`, none when no action is. */
  lemma {:induction false} CountAll(actions: seq<SliceAction>, a: SliceAction)
    ensures (forall i :: 0 <= i < |actions| ==> actions[i] == a) ==> Count(actions, a) == |actions|
    ensures (forall i :: 0 <= i < |actions| ==> actions[i] != a) ==> Count(actions, a) == 0
    decreases |actions|
  {
    if actions != [] {
      CountAll(actions[1..], a);
      if forall i :: 0 <= i < |actions| ==> actions[i] == a {
        assert forall i :: 0 <= i < |actions[1..]| ==> actions[1..][i] == a;
      }
      if forall i :: 0 <= i < |actions| ==> actions[i] != a {
        assert forall i :: 0 <= i < |actions[1..]| ==> actions[1..][i] != a;
      }
    }
  }

  /** The count of `a` is its multiplicity in the multiset of the actions. */
  lemma {:induction false} CountIsMultiplicity(actions: seq<SliceAction>, a: SliceAction)
    ensures Count(actions, a) == multiset(actions)[a]
    decreases |actions|
  {
    if actions != [] {
      CountIsMultiplicity(actions[1..], a);
      assert actions == [actions[0]] + actions[1..];
    }
  }

  /** Since every pair of actions commutes, the final state depends only on
      which actions were dispatched, not on their order. */
  lemma RunOrderIrrelevant(s: SliceState, xs: seq<SliceAction>, ys: seq<SliceAction>)
    requires multiset(xs) == multiset(ys)
    ensures Run(s, xs) == Run(s, ys)
  {
    RunCounts(s, xs);
    RunCounts(s, ys);
    CountIsMultiplicity(xs, IncrementerCinq);
    CountIsMultiplicity(ys, IncrementerCinq);
    CountIsMultiplicity(xs, ChangerVisible);
    CountIsMultiplicity(ys, ChangerVisible);
  }
}
