# ArchiTemplate item store, modelled in Dafny

ArchiTemplate's live store (`ArchiTemplate/ContentView4.swift`) is a small
effect-driven state machine over a list of `Item`s. Each item has an id, a name
and two fields that start empty: a score and a date. Two asynchronous lookups
fill them in. A caller sends commands (`add`, `delete`, `refresh`,
`initialize`). The store's `send` turns each command into an optional immediate
action and a list of side effects (`fetchScore`, `fetchDate`). `launch` applies
the action and dispatches the side effects. `WithMachine.setup` then does the
bookkeeping:

- every dispatched side effect is put in an in-flight list under a fresh id;
- when it resolves it leaves that list;
- a success feeds an `updateScore`/`updateDate` action back into the reducer;
- a failure appends one message to an error log and feeds back no action.

The store publishes the state, the in-flight count and the error log.

The project has three modules:

- `Items` (`items.dfy`): the `Item` record, `firstIndex(where:)` and
  `Array<Item>.updateItem`.
- `ItemStore` (`item_store.dfy`): `Input`, `Action` and `SideEffect`; the
  reducer and its fold (the `scan`); `send`'s command table; and
  `resolveSideEffect`, which takes the provider's outcome as a parameter.
- `Engine` (`engine.dfy`): the class `Machine`. Its mutable fields are `state`,
  `inFlight`, `errors` and `nextId`. Its ghost fields are `initial`, `received`
  and `resolved`. `Valid()` ties them together:
  - `state` is the fold of every action received so far;
  - in-flight dispatch ids are distinct and fresh;
  - in-flight count + resolved count = dispatched count.

  Three client methods exercise the machine: `AddThenBothResolve` (an add
  whose two lookups both succeed), `DeleteThenStrayScore` (a delete followed
  by a stray score result) and `FailedScoreLookup` (a failed lookup).

The machine is written for `ItemStore` only, not for every type that adopts
the `WithMachine` protocol. The caller picks the order of events: when a
command is submitted, which in-flight entry resolves next, and with what
outcome. `Resolve` requires that the id is in flight. In the source a
resolution exists only for an entry that was dispatched, so there is no other
case to model.

Two behaviours of the code are worth stating outright:

- `add` and `delete` take a whole `Item`. `delete` removes every item
  carrying that item's id.
- `updateScore`/`updateDate` change only the first item carrying the id
  (`firstIndex` at line 38), even when several items carry it.

## Model

| member | source | states |
|---|---|---|
| `Items.FirstIndex` | ArchiTemplate/ContentView4.swift:38 | finds nothing exactly when no item has the id; otherwise returns an index holding the id with no earlier index holding it |
| `Items.UpdateItem` | ArchiTemplate/ContentView4.swift:37-47 | same length, and the same id and name at every index; the input is returned unchanged when the id is absent; only the first match changes; a field changes only when its outer optional is present, and then to the given value |
| `Items.FirstIndexOfSameIds` | ArchiTemplate/ContentView4.swift:38 | two lists with the same ids index by index have the same first match for every id |
| `Items.UpdateItemIdempotent` | ArchiTemplate/ContentView4.swift:37-47 | applying the same update twice gives the same list as applying it once |
| `ItemStore.Without` | ArchiTemplate/ContentView4.swift:204-205 | the result holds exactly the elements of the input whose id differs from the given one, is no longer than the input, and equals it when no element has the id |
| `ItemStore.WithoutAppend` | ArchiTemplate/ContentView4.swift:205 | the filter distributes over concatenation, so the kept elements stay in their original order |
| `ItemStore.WithoutPresentUnique` | ArchiTemplate/ContentView4.swift:204-205 | with unique ids, removing an id that is present shortens the list by exactly one |
| `ItemStore.Reducer` | ArchiTemplate/ContentView4.swift:198-213 | `nil` leaves the state unchanged; `append` grows it by one, keeps the earlier elements and puts the item last; `remove` keeps exactly the items with another id; `set` replaces the state; both updates keep every id in place; `updateScore` never touches a date and `updateDate` never a score; an update for an absent id is a no-op |
| `ItemStore.FeedbackSetsFirstMatch` | ArchiTemplate/ContentView4.swift:208-211 | an update for a present id sets that field, to that value, on the first item carrying the id, and leaves every other index alone |
| `ItemStore.FeedbackCommutes` | ArchiTemplate/ContentView4.swift:208-211 | two feedback actions commute unless both are the same kind for the same id, so the order in which lookups complete does not matter |
| `ItemStore.Fold` | ArchiTemplate/ContentView4.swift:110 | the state after a series of actions: the initial state for none, and `items` for a history ending in `set(items)`; `FoldLast`, `FoldAppend`, `FeedbackKeepsIds` and `IdsIgnoreFeedback` are its lemmas |
| `ItemStore.FoldLast` | ArchiTemplate/ContentView4.swift:110 | each value the scan reaches is the reducer applied to the previous value and the latest action |
| `ItemStore.FoldAppend` | ArchiTemplate/ContentView4.swift:110 | folding actions a then b through the reducer equals folding a + b |
| `ItemStore.FeedbackKeepsIds` | ArchiTemplate/ContentView4.swift:108-110 | any series of fed-back actions (updates or `nil`), in any order, leaves the state's ids and their order unchanged |
| `ItemStore.Direct` | ArchiTemplate/ContentView4.swift:108-109 | the actions of a merged history that came from commands: exactly its entries that are not feedback (updates or `nil`), as a set; `DirectAppend` gives the order |
| `ItemStore.DirectAppend` | ArchiTemplate/ContentView4.swift:108-109 | dropping the feedback distributes over concatenation, so the commands' actions are replayed in their own order |
| `ItemStore.WithoutIds` | ArchiTemplate/ContentView4.swift:204-205 | removing an id from two lists with the same ids gives lists with the same ids |
| `ItemStore.StepIds` | ArchiTemplate/ContentView4.swift:198-213 | the ids after one reducer step depend only on the ids before it and the action |
| `ItemStore.IdsIgnoreFeedback` | ArchiTemplate/ContentView4.swift:108-110 | for any merged history of command actions and feedback, interleaved in any way, the state's ids are those the command actions alone produce |
| `ItemStore.FetchesFor` | ArchiTemplate/ContentView4.swift:194 | two effects per item, the score lookup then the date lookup for each item, in array order |
| `ItemStore.FetchesForTargets` | ArchiTemplate/ContentView4.swift:194 | every effect produced for an array is about an item of that array |
| `ItemStore.Send` | ArchiTemplate/ContentView4.swift:185-196 | `add` gives `append` plus both lookups; `delete` gives `remove` and no effects; `refresh` gives no action plus both lookups; `initialize` gives `set` plus 2·n lookups, score then date per item |
| `ItemStore.SendTargetsNewState` | ArchiTemplate/ContentView4.swift:185-196 | after `add` or `initialize`, every item that a dispatched lookup is about is in the state produced by the immediate action |
| `ItemStore.ResolveSideEffect` | ArchiTemplate/ContentView4.swift:215-226 | succeeds exactly when the lookup succeeded, and a failure keeps its message; a score lookup can only yield `updateScore` and a date lookup only `updateDate`; the id is the one the effect was issued for, and the value is the one fetched |
| `ItemStore.Feedback` | ArchiTemplate/ContentView4.swift:95-99 | a success feeds back its action; a failure feeds back `nil` |
| `ItemStore.ResolutionIsFeedback` | ArchiTemplate/ContentView4.swift:93-105 | whatever a resolution feeds back is `nil` or an update for the effect's item |
| `Engine.Entries` | ArchiTemplate/ContentView4.swift:90-92 | a batch dispatched from id n gets the entries (n, e0), (n+1, e1), … in order; their ids are distinct and lie in [n, n + batch size) |
| `Engine.Drop` | ArchiTemplate/ContentView4.swift:102 | keeps exactly the in-flight entries whose dispatch id differs from the given one (as a set; `DropAppend` gives the order) |
| `Engine.DropAppend` | ArchiTemplate/ContentView4.swift:102 | the filter distributes over concatenation, so the kept entries stay in dispatch order |
| `Engine.DropAbsent` | ArchiTemplate/ContentView4.swift:102 | dropping an id no entry has leaves the list unchanged |
| `Engine.DropPresent` | ArchiTemplate/ContentView4.swift:102 | with distinct ids, dropping a present id removes exactly one entry and keeps the ids distinct |
| `Engine.Lookup` | ArchiTemplate/ContentView4.swift:93 | finds a side effect exactly when the id is in flight, and then it is the effect recorded under that id |
| `Engine.Machine.constructor` | ArchiTemplate/ContentView4.swift:81-87 | starts from the initial state with nothing in flight and an empty error log |
| `Engine.Machine.Published` | ArchiTemplate/ContentView4.swift:115 | publishes the state, the error log and the in-flight count, which equals dispatched minus resolved and so is never negative; the published items carry the ids that the commands' actions alone produce |
| `Engine.Machine.Apply` | ArchiTemplate/ContentView4.swift:108-110 | the state becomes the reducer applied to the old state and the action; the action joins the folded history; nothing else changes |
| `Engine.Machine.Dispatch` | ArchiTemplate/ContentView4.swift:90-92 | appends one entry under a fresh id: the count goes up by one; state and errors are unchanged |
| `Engine.Machine.Launch` | ArchiTemplate/ContentView4.swift:119-122 | applies the action, then dispatches every effect in order under consecutive fresh ids; the error log is unchanged |
| `Engine.Machine.Submit` | ArchiTemplate/ContentView4.swift:185-196 | launches exactly what `send`'s table gives for the command |
| `Engine.Machine.Resolve` | ArchiTemplate/ContentView4.swift:93-106 | removes exactly the resolved entry on success and failure alike, so the count falls by one. A failure appends its one message, keeps all earlier ones and leaves the state unchanged. A success leaves the log alone and folds its feedback action into the state |

## Left out

- `MockService.fetch` and `ItemProvider` (timers, random delays, random values, the 1-in-100 failure): the outcome of every lookup is a parameter of `Resolve`.
- The Combine plumbing (subjects, the concurrent `flatMap`, `merge` ordering, `AnyCancellable` bags): the caller chooses the interleaving through sequential calls.
- `combineLatest` emission timing: the published triple is read at any moment through `Published`. In the source nothing is published until the first action has gone through the `scan`.
- The `state` subject (line 84, written at line 112): nothing in the live code reads it.
- The busy loop in the `append` case (line 202): it does not change the result.
- Foundation `Date` and `UUID`: a date is a whole number, an item id is a `nat`, and a dispatch id is the counter `nextId`.
- The error text built by `"\(error)"` (line 98): the message is an opaque string that passes through.
- `ItemStore`'s published copies `items`/`loading`/`errors` and the sink that assigns them (lines 128-130, 166-170): `Published` returns the same triple.
- `ContentViewModel`, the SwiftUI views and previews, and `ArchiTemplateApp.swift`: UI wiring only.
- `ContentView.swift`, `ContentView2.swift` and `ContentView3.swift`: every line in them is commented out.
