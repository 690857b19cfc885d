# Counter reducers of React_Approndi

This project models the two pieces of original state logic in the repository.

- `ExempleRedux` (exemple-redux.js) covers three things. The first is the counter reducer over a state `{compteur}`: `INCREMENTER` adds one, `DECREMENTER` subtracts one, every other action type leaves the state as it is, and an absent state stands for `etatInitial`. The second is the left fold of that reducer over a sequence of actions. The third is the store `redux.createStore(reducer)` builds, with the script's four dispatches.
  - An action is a record holding its `type` string (`Action.kind`), so "any other type" means any other string.
  - A state carries its other fields in `others`. The reducer's spread copies them.
  - The `Store` class holds the current state. A ghost history of dispatched actions, with the invariant `Valid()`, ties that state to the fold.
- `Stockage` (mon-react-application/src/stockage/index.js) covers the slice `{compteur, visible}` with the case reducers `INCREMENTER_CINQ` and `CHANGER_VISIBLE`.
  - The source writes these case reducers as assignments to the fields of a draft. They are modelled as methods of the class `Draft`, which modify its two fields in place.
  - `Produce` runs them as the store does: it copies the state into a draft, mutates the draft and returns its value. Its contract proves the result equals the pure record-returning `Reduce`.
  - `Run` and `Count` are the fold and action counting used by the lemmas about action sequences.

## Model

| member | source | states |
|---|---|---|
| ExempleRedux.Reducer | exemple-redux.js:7-16 | other fields are copied unchanged; the counter rises by exactly one iff the type is `INCREMENTER`, falls by exactly one iff it is `DECREMENTER`, and the state comes back unchanged iff the type is neither; an absent state is read as `etatInitial` |
| ExempleRedux.AbsentStateIsInitial | exemple-redux.js:3-7 | `etatInitial` has counter 0, and calling the reducer without a state is calling it with `etatInitial` |
| ExempleRedux.IncrementDecrementCancel | exemple-redux.js:9-12 | an increment followed by a decrement, or a decrement followed by an increment, gives back the original state |
| ExempleRedux.RunSnoc | exemple-redux.js:7-16 | folding one more action applies the reducer once more to the folded state |
| ExempleRedux.RunCounts | exemple-redux.js:7-16 | after any action sequence, the counter equals the start value plus the number of increments minus the number of decrements, and the other fields are unchanged |
| ExempleRedux.RunFromInitial | exemple-redux.js:3-16 | from `etatInitial`, the folded state is exactly `{compteur: #INCREMENTER - #DECREMENTER}` |
| ExempleRedux.UnknownActionsIgnored | exemple-redux.js:13-14 | a sequence of actions of other types leaves any state unchanged |
| ExempleRedux.Store.constructor | exemple-redux.js:18 | the new store's state is `etatInitial`, obtained by calling the reducer with an absent state, and nothing has been dispatched |
| ExempleRedux.Store.GetState | exemple-redux.js:20 | returns the current state, whose counter is the number of increments minus the number of decrements dispatched so far and which has no other field |
| ExempleRedux.Store.Dispatch | exemple-redux.js:22 | the new state is the reducer applied to the old state and the action; the state stays the fold of the reducer over every dispatched action |
| ExempleRedux.Script | exemple-redux.js:18-30 | the logged states are 0, 1, 2, 1, 0 across the dispatches INCREMENTER, INCREMENTER, DECREMENTER, DECREMENTER |
| Stockage.Reduce | mon-react-application/src/stockage/index.js:10-18 | `INCREMENTER_CINQ` adds exactly 5 to the counter and keeps the flag; `CHANGER_VISIBLE` changes the flag and keeps the counter |
| Stockage.Draft.constructor | mon-react-application/src/stockage/index.js:4-9 | a draft holds exactly the state it was made from |
| Stockage.Draft.IncrementerCinq | mon-react-application/src/stockage/index.js:12-14 | in place: the counter field grows by 5 and the flag field is unchanged |
| Stockage.Draft.ChangerVisible | mon-react-application/src/stockage/index.js:15-17 | in place: the flag field is negated and the counter field is unchanged |
| Stockage.Draft.Apply | mon-react-application/src/stockage/index.js:10-18 | running the case reducer of an action on a draft leaves exactly the value the pure reducer returns for the old value |
| Stockage.Produce | mon-react-application/src/stockage/index.js:4-19 | mutating a draft copy of the state gives the same new state as the pure reducer |
| Stockage.ChangerVisibleInvolution | mon-react-application/src/stockage/index.js:15-17 | `CHANGER_VISIBLE` twice restores the state |
| Stockage.ActionsCommute | mon-react-application/src/stockage/index.js:12-17 | any two actions commute, since they touch disjoint fields |
| Stockage.RunCounts | mon-react-application/src/stockage/index.js:12-17 | after any action sequence, the counter has grown by 5 per `INCREMENTER_CINQ`, and the flag is unchanged iff `CHANGER_VISIBLE` occurred an even number of times |
| Stockage.RunFromInitial | mon-react-application/src/stockage/index.js:6-17 | from `initialState`, the counter is 5 times the number of `INCREMENTER_CINQ`, hence a non-negative multiple of 5, and `visible` holds iff the number of `CHANGER_VISIBLE` is even |
| Stockage.RunIncrementsOnly | mon-react-application/src/stockage/index.js:6-14 | from `initialState`, n `INCREMENTER_CINQ` actions give `{compteur: 5 * n, visible: true}` |
| Stockage.RunOrderIrrelevant | mon-react-application/src/stockage/index.js:10-18 | two action sequences with the same actions in any order lead to the same state |

## Left out

- JavaScript numbers are IEEE doubles. The counters here are unbounded integers, so rounding beyond 2^53 is not modelled.
- Library internals are not part of this model: `redux.createStore`, `configureStore`, `createSlice`, the Immer draft machinery, and subscriber notification (`subscribe`). The store keeps only the state-replacing part of `dispatch` and `getState`.
- The action `createStore` dispatches on creation has a type "@@redux/INIT" followed by a random suffix. It is modelled by the fixed type "@@redux/INIT"; the reducer treats both alike.
- The slice's action types are namespaced by the library ("stockage/INCREMENTER_CINQ"), and the slice reducer ignores actions it does not declare. That is library behaviour: slice actions are modelled as the two declared actions only.
- The slice store built by `configureStore` is not modelled separately. Its reducer is `Produce`, and it dispatches as `ExempleRedux.Store` does.
- A reducer that throws would leave the store's state unchanged. Neither reducer here can throw, so that path is not modelled.
- The `console.log` calls of exemple-redux.js are output. `Script` returns the sequence of states they print instead.
- The React components (App.jsx, AuthPage.jsx, HomePage.jsx, Enfant.jsx, Produit.jsx, ProduitDetaille.jsx, GrandFils.jsx, GrandFille.jsx) are rendering, routing and form UI with no original state logic, and are not part of this model.
