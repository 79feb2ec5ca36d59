# Skadi store core in Dafny

Skadi is a small redux-style store for Kotlin. A caller-supplied reducer maps the current
state and an incoming change to an *effect*: the next state, the actions to run as side
effects, and one-shot signals to publish. The store reduces changes one at a time on a
single actor. Each action runs in its own task, and the change that task returns is fed
back into the store.

This project models three parts of that core:

* **Effects and the effect builder, in both generations.** The newer `skadi-lib` API has
  three type parameters (state, action, signal). Modules: `Effects`, `Builder`, `States`.
  The older `skadi` API has no signals. Modules: `LegacyEffects`, `LegacyBuilder`,
  `LegacyStates`.
  - A builder is a record. Its state field is an `Option`, and `Build` returns a `Result`
    that fails with `MissingStateError`.
  - A Kotlin `effect { ... }` block becomes the sequence of builder calls it makes
    (`Call`), applied in order.
* **The store's reduction step, as a state machine** (module `Store`). A store record holds:
  - the current state;
  - the states the state flow has emitted;
  - the actor's channel of pending changes;
  - the launched action tasks;
  - the launched signal sends;
  - the exceptions surfaced on the scope;
  - whether the actor loop is still running.

  `Step` is one turn of the actor. `Drain` runs the actor until its channel is empty.
  `Resolve` completes one launched action task of the scheduler's choice. `Perform` and
  `PerformAction` are the public entry points. `Reduce` is the reference left fold of the
  reducer over a run of changes, and `Drain` is proved equal to it.
* **The store of the integration test** (module `StoreExample`). It is a concrete reducer
  over `Init`, `Loading` and `DisplayData`, with scenarios for the runs the tests exercise.

Shared pieces:
- `Wrappers` holds `Option` and `Result`.
- `Faults` names the three exceptions: missing state, unhandled action, unexpected change.

The reducer is a parameter of type `(S, C) -> Result<SkadiEffect, Fault>`. The action
handler is a parameter of type `A -> Result<C, Fault>`. `Failure` stands for a thrown
exception:
- A reducer that throws ends the actor loop, and its exception surfaces on the store's
  scope: it is appended to `uncaught`. No later change is ever reduced.
- A handler that throws only adds one entry to `uncaught`. This assumes a scope with no
  `Job` (the test scopes) or with a `SupervisorJob` (`viewModelScope`), where each failing
  coroutine reports to the scope's exception handler and nothing else is cancelled. Under a
  plain `Job`, a failing handler task or a failing actor would cancel the whole scope,
  pending tasks included.

The default handler `UnhandledAction` always throws.

Two consequences of the Kotlin runtime shape the model:
- **Consecutive equal states.** The state flow is a `MutableStateFlow`, which ignores an
  assignment equal to its current value. So `history` gains an entry only when the
  installed state differs from the current one, and never holds the same state twice in
  a row.
- **Signals.** Signals go out on a rendezvous `Channel()`, so a sender waits for a
  receiver. The model records one send per signal and nothing about delivery.

One observation about the tests: the store unit test's reducer is
`effect { state.same() }`. That block builds a `same()` effect and discards it, and never
sets the builder's state. So any change performed on that store would fail with the
missing-state error. The test only calls `performAction`, so this never shows
(`StoreExample.SameInsideEffect`, `StoreExample.PerformActionWithoutHandler`).

## Model

| member | source | states |
|---|---|---|
| `Effects.Defaults` | skadi-lib/src/main/kotlin/de/syex/skadi/SkadiEffect.kt:7-11 | `SkadiEffect(state)` and `SkadiEffect(state, actions)` fill each omitted list with an empty one |
| `Effects.EqualityIsStructural` | skadi-lib/src/main/kotlin/de/syex/skadi/SkadiEffect.kt:7 | data-class equality: two effects are equal iff state, actions and signals are all equal |
| `Builder.Empty` | skadi-lib/src/main/kotlin/io/github/syex/skadi/EffectBuilder.kt:11-13 | `EffectBuilder()` with its field initialisers: no state, empty actions and signals; no contract of its own, `Builder.EffectOf` and `Builder.StateOnly` state what building from it yields |
| `Builder.WithState` | skadi-lib/src/main/kotlin/io/github/syex/skadi/EffectBuilder.kt:18-20 | `state { s }` sets the state to `s` and leaves actions and signals untouched |
| `Builder.WithActions` | skadi-lib/src/main/kotlin/io/github/syex/skadi/EffectBuilder.kt:25-27 | `actions { xs }` stores `xs` verbatim and leaves state and signals untouched |
| `Builder.WithAction` | skadi-lib/src/main/kotlin/io/github/syex/skadi/EffectBuilder.kt:32-34 | `action { a }` makes the actions exactly `[a]` and leaves state and signals untouched |
| `Builder.WithSignals` | skadi-lib/src/main/kotlin/io/github/syex/skadi/EffectBuilder.kt:39-41 | `signals { gs }` stores `gs` verbatim and leaves state and actions untouched |
| `Builder.WithSignal` | skadi-lib/src/main/kotlin/io/github/syex/skadi/EffectBuilder.kt:46-48 | `signal { g }` makes the signals exactly `[g]` and leaves state and actions untouched |
| `Builder.Build` | skadi-lib/src/main/kotlin/io/github/syex/skadi/EffectBuilder.kt:55-61 | `build()` fails with the missing-state error iff no state was set; otherwise the effect carries the set state and both lists unchanged |
| `Builder.RunIsLastWriteWins` | skadi-lib/src/main/kotlin/io/github/syex/skadi/EffectBuilder.kt:18-48 | after any sequence of builder calls, each field holds the value of the last call that wrote it, independently of the other fields |
| `Builder.Run` | skadi-lib/src/main/kotlin/io/github/syex/skadi/EffectBuilder.kt:77 | `EffectBuilder().apply(lambda)`: the block's calls applied in order to a fresh builder; no contract of its own, `Builder.RunIsLastWriteWins` states what it yields |
| `Builder.LastStateUnset` | skadi-lib/src/main/kotlin/io/github/syex/skadi/EffectBuilder.kt:11-20 | the state stays unset iff no `state { }` call was made |
| `Builder.StateOnly` | skadi-lib/src/main/kotlin/io/github/syex/skadi/EffectBuilder.kt:67-69 | top-level `state { s }` never fails, equals what a builder with only `s` set builds, and has empty actions and signals |
| `Builder.StateEffect` | skadi-lib/src/main/kotlin/io/github/syex/skadi/EffectBuilder.kt:67-69 | top-level `state { s }`; no contract of its own (its action and signal types are fixed only by the caller), `Builder.StateOnly` states it |
| `Builder.EffectOf` | skadi-lib/src/main/kotlin/io/github/syex/skadi/EffectBuilder.kt:74-78 | `effect { block }` fails with the missing-state error iff the block never sets a state; otherwise state, actions and signals are those of the last call writing each, and the lists default to empty |
| `Builder.StateTwiceKeepsLast` | skadi-lib/src/main/kotlin/io/github/syex/skadi/EffectBuilder.kt:18-20 | calling `state { }` twice keeps the second value |
| `Builder.SingleReplacesEarlier` | skadi-lib/src/main/kotlin/io/github/syex/skadi/EffectBuilder.kt:25-48 | `action { a }` discards earlier `actions`; `signal { g }` discards earlier `signals` |
| `Builder.SettersCommute` | skadi-lib/src/main/kotlin/io/github/syex/skadi/EffectBuilder.kt:18-48 | setters of different fields commute, so none touches another's field |
| `States.SameKeepsState` | skadi-lib/src/main/kotlin/de/syex/skadi/SkadiState.kt:11 | `s.same()` keeps `s`, has no actions and no signals, and equals what a builder with only `s` set builds |
| `States.Same` | skadi-lib/src/main/kotlin/de/syex/skadi/SkadiState.kt:11 | `s.same()` as `state { s }`; no contract of its own, `States.SameKeepsState` states it |
| `States.SignalBlockBuilds` | skadi-lib/src/main/kotlin/de/syex/skadi/SkadiState.kt:20-26 | the `effect { }` block inside `s.signal(g)` always builds, with state `s`, no actions and signals exactly `[g]`: it never reaches the missing-state failure |
| `States.Signal` | skadi-lib/src/main/kotlin/de/syex/skadi/SkadiState.kt:20-26 | `s.signal(g)` as the `effect { }` of a state call then a signal call; no contract of its own, `States.SignalBlockBuilds` states that it builds `SkadiEffect(s, [], [g])` |
| `LegacyEffects.Defaults` | skadi/src/main/kotlin/de/syex/skadi/SkadiEffect.kt:7 | `SkadiEffect(state)` fills the omitted actions with an empty list |
| `LegacyEffects.EqualityIsStructural` | skadi/src/main/kotlin/de/syex/skadi/SkadiEffect.kt:7 | equality is structural over state and actions |
| `LegacyBuilder.Empty` | skadi/src/main/kotlin/de/syex/skadi/EffectBuilder.kt:11-12 | `EffectBuilder()` of the older API: no state, no actions; no contract of its own, `LegacyBuilder.EffectOf` and `LegacyBuilder.StateOnly` state what building from it yields |
| `LegacyBuilder.WithState` | skadi/src/main/kotlin/de/syex/skadi/EffectBuilder.kt:17-19 | `state { s }` sets the state and keeps the actions |
| `LegacyBuilder.WithActions` | skadi/src/main/kotlin/de/syex/skadi/EffectBuilder.kt:24-26 | `actions { xs }` stores `xs` verbatim and keeps the state |
| `LegacyBuilder.WithAction` | skadi/src/main/kotlin/de/syex/skadi/EffectBuilder.kt:31-33 | `action { a }` sets the actions to exactly `[a]` and keeps the state |
| `LegacyBuilder.Build` | skadi/src/main/kotlin/de/syex/skadi/EffectBuilder.kt:40-46 | `build()` fails with the missing-state error iff no state was set; otherwise it carries state and actions |
| `LegacyBuilder.RunIsLastWriteWins` | skadi/src/main/kotlin/de/syex/skadi/EffectBuilder.kt:17-33 | after any sequence of calls, state and actions each hold the last value written to them |
| `LegacyBuilder.Run` | skadi/src/main/kotlin/de/syex/skadi/EffectBuilder.kt:60 | `EffectBuilder().apply(lambda)` of the older API; no contract of its own, `LegacyBuilder.RunIsLastWriteWins` states what it yields |
| `LegacyBuilder.LastStateUnset` | skadi/src/main/kotlin/de/syex/skadi/EffectBuilder.kt:11-19 | the state stays unset iff no `state { }` call was made |
| `LegacyBuilder.StateOnly` | skadi/src/main/kotlin/de/syex/skadi/EffectBuilder.kt:52-54 | top-level `state { s }` never fails, has no actions, and equals a builder with only `s` set |
| `LegacyBuilder.StateEffect` | skadi/src/main/kotlin/de/syex/skadi/EffectBuilder.kt:52-54 | top-level `state { s }` of the older API; no contract of its own, `LegacyBuilder.StateOnly` states it |
| `LegacyBuilder.EffectOf` | skadi/src/main/kotlin/de/syex/skadi/EffectBuilder.kt:59-61 | `effect { block }` fails iff the block sets no state; otherwise state and actions are the last ones written |
| `LegacyBuilder.LastActionCallWins` | skadi/src/main/kotlin/de/syex/skadi/EffectBuilder.kt:24-33 | among `action` and `actions` calls the last one wins |
| `LegacyStates.SameKeepsState` | skadi/src/main/kotlin/de/syex/skadi/SkadiState.kt:11 | `s.same()` keeps `s`, has no actions, always succeeds and equals what a builder with only `s` set builds |
| `LegacyStates.Same` | skadi/src/main/kotlin/de/syex/skadi/SkadiState.kt:11 | `s.same()` of the older API; no contract of its own, `LegacyStates.SameKeepsState` states it |
| `Store.NewIsValid` | skadi-lib/src/main/kotlin/de/syex/skadi/SkadiStore.kt:104-115 | a new store's state is `initialState`; the flow has emitted only it; nothing is queued; the actor is alive; the invariant holds |
| `Store.New` | skadi-lib/src/main/kotlin/de/syex/skadi/SkadiStore.kt:104-115 | the constructor; no contract of its own, `Store.NewIsValid` states the fresh store |
| `Store.Push` | skadi-lib/src/main/kotlin/de/syex/skadi/SkadiStore.kt:146 | one assignment to the state flow as a collector sees it; no contract of its own, `Store.SetState` states it for the store |
| `Store.SetState` | skadi-lib/src/main/kotlin/de/syex/skadi/SkadiStore.kt:146 | installs the new state; the flow emits it iff it differs from the current one; nothing else changes; the invariant is preserved |
| `Store.Conflate` | skadi-lib/src/main/kotlin/de/syex/skadi/SkadiStore.kt:115 | a series of assignments to the state flow; no contract of its own, `Store.ConflateEmitsChanges` and `Store.ConflateEmitsOnlyAssignments` state both directions |
| `Store.ConflateEmitsChanges` | skadi-lib/src/main/kotlin/de/syex/skadi/SkadiStore.kt:115-122 | a series of assignments to the state flow extends its emissions, includes every assigned value, ends with the last one, and never repeats a value twice in a row |
| `Store.ConflateEmitsOnlyAssignments` | skadi-lib/src/main/kotlin/de/syex/skadi/SkadiStore.kt:115-122 | the converse: the emissions only extend the old ones, by at most one value per assignment; every new emission was assigned, and the new emissions keep assignment order (a subsequence of the assignments) |
| `Store.PerformSideEffect` | skadi-lib/src/main/kotlin/de/syex/skadi/SkadiStore.kt:156-163 | launches exactly one handler task per action, in order, and changes nothing else |
| `Store.SendSignals` | skadi-lib/src/main/kotlin/de/syex/skadi/SkadiStore.kt:165-173 | launches exactly one send per signal, in order, and changes nothing else |
| `Store.Perform` | skadi-lib/src/main/kotlin/de/syex/skadi/SkadiStore.kt:178-180 | the change joins the back of the actor's channel; nothing else changes |
| `Store.PerformAction` | skadi-lib/src/main/kotlin/de/syex/skadi/SkadiStore.kt:186-188 | launches exactly one task for the action without reducing: state, emissions, channel, sends and actor untouched |
| `Store.Step` | skadi-lib/src/main/kotlin/de/syex/skadi/SkadiStore.kt:142-150 | runs iff the actor is alive and a change is queued; consumes exactly the oldest change; on success installs `reducer(state, change).state` and appends that effect's actions and signals, surfacing nothing; on a throw stops the actor with the state, emissions, tasks and sends unchanged and surfaces the exception on the scope; the invariant is preserved |
| `Store.Reduce` | skadi-lib/src/main/kotlin/de/syex/skadi/SkadiStore.kt:143-150 | the left fold installs one state per change when nothing fails, fewer when one does, and ends in the last installed state |
| `Store.ReduceStepsInOrder` | skadi-lib/src/main/kotlin/de/syex/skadi/SkadiStore.kt:143-146 | the k-th installed state is the reducer's answer for the k-th change, given the state installed just before it |
| `Store.ReduceConcat` | skadi-lib/src/main/kotlin/de/syex/skadi/SkadiStore.kt:143-150 | reducing `c1 + c2` is reducing `c1`, then `c2` from the state `c1` left; a failure in `c1` means `c2` is never reduced |
| `Store.Drain` | skadi-lib/src/main/kotlin/de/syex/skadi/SkadiStore.kt:142-151 | running the actor to idleness equals the left fold: the final state, the actor's death cause, the launched actions and sends, the exception surfaced on the scope (exactly the fold's failure, if any) and the conflated emissions all match `Reduce`; the invariant is preserved |
| `Store.DrainSingle` | skadi-lib/src/main/kotlin/de/syex/skadi/SkadiStore.kt:142-150 | an actor with exactly one queued change runs exactly one turn: on success the reducer's state is installed and emitted if it differs, its actions and signals are launched and the channel is empty; on a throw the actor stops, the exception is appended to the scope's errors, and everything else is as it was |
| `Store.TwoChangesInOrder` | skadi-lib/src/main/kotlin/de/syex/skadi/SkadiStore.kt:143-150 | two changes performed back to back are reduced first against the current state, then against the state the first produced; a throw in either surfaces exactly that exception on the scope |
| `Store.Resolve` | skadi-lib/src/main/kotlin/de/syex/skadi/SkadiStore.kt:156-163 | a completing task is removed from the launched tasks (as a multiset); its change is appended to the channel, or its exception to the scope's errors; state, emissions, actor and sends are untouched |
| `Store.PerformActionThenResolve` | skadi-lib/src/main/kotlin/de/syex/skadi/SkadiStore.kt:178-188 | `performAction(a)` followed by that task's completion equals `perform(actions(a))`, or surfaces the handler's exception |
| `Store.UnhandledActionIsIsolated` | skadi-lib/src/main/kotlin/de/syex/skadi/SkadiStore.kt:196-197 | with the default handler, each task completion adds exactly one unhandled-action error and leaves channel, state, emissions and actor unchanged |
| `Store.WithoutActions` | skadi-lib/src/main/kotlin/de/syex/skadi/SkadiStore.kt:107 | a store built without `actions`, whose handler is the default; no contract of its own, `Store.UnhandledActionIsIsolated` states its effect |
| `Store.UnhandledAction` | skadi-lib/src/main/kotlin/de/syex/skadi/SkadiStore.kt:196-197 | the default `actions` argument, which throws for every action; no contract of its own, `Store.UnhandledActionIsIsolated` states its effect on the store |
| `StoreExample.TestReducer` | skadi-lib/src/test/kotlin/io/github/syex/skadi/StoreIntegrationTest.kt:19-44 | Init plus RequestData gives Loading with LoadData; Loading plus LoadData success gives DisplayData; DisplayData plus ButtonClicked keeps the state and signals ShowMessage; otherwise the state is kept; it fails iff the state is Init and the change is not RequestData |
| `StoreExample.RequestDataLoads` | skadi-lib/src/test/kotlin/io/github/syex/skadi/StoreIntegrationTest.kt:58-68 | RequestData on a new store moves to Loading, emits it after Init, and launches exactly one LoadData task |
| `StoreExample.LoadDataResolves` | skadi-lib/src/test/kotlin/io/github/syex/skadi/StoreIntegrationTest.kt:45-52 | the LoadData task completes by feeding `LoadData.Success("success")` into the channel and leaves no task pending |
| `StoreExample.TestActions` | skadi-lib/src/test/kotlin/io/github/syex/skadi/StoreIntegrationTest.kt:45-52 | the test's handler: `LoadData` resolves to `LoadData.Success("success")`; no contract of its own, `StoreExample.LoadDataResolves` states its use |
| `StoreExample.LoadArrivedDisplays` | skadi-lib/src/test/kotlin/io/github/syex/skadi/StoreIntegrationTest.kt:28-31 | reducing the arrived data in Loading installs and emits `DisplayData("success")`, launching nothing |
| `StoreExample.LoadResolvesToDisplay` | skadi-lib/src/test/kotlin/io/github/syex/skadi/StoreIntegrationTest.kt:67-70 | after RequestData, the LoadData completion leads to `DisplayData("success")` as the third emitted state |
| `StoreExample.RequestDataLoadsThenDisplays` | skadi-lib/src/test/kotlin/io/github/syex/skadi/StoreIntegrationTest.kt:58-72 | RequestData leads to Loading with one LoadData task; resolving it leads to DisplayData("success"); the flow emitted exactly Init, Loading, DisplayData |
| `StoreExample.SignalDependsOnSchedule` | skadi-lib/src/test/kotlin/io/github/syex/skadi/StoreIntegrationTest.kt:74-84 | ButtonClicked after the data arrived sends exactly ShowMessage; reduced before LoadData resolves, it sends nothing |
| `StoreExample.EarlyClickIsSilent` | skadi-lib/src/test/kotlin/io/github/syex/skadi/StoreIntegrationTest.kt:28-32 | ButtonClicked reduced while still Loading leaves the store exactly as it was: no emission, no task, no signal |
| `StoreExample.LateClickSignals` | skadi-lib/src/test/kotlin/io/github/syex/skadi/StoreIntegrationTest.kt:74-84 | ButtonClicked once the data is shown sends exactly ShowMessage and changes nothing else |
| `StoreExample.NeverEmitsSameStateTwice` | skadi-lib/src/test/kotlin/io/github/syex/skadi/StoreIntegrationTest.kt:86-103 | in DisplayData, performing RequestData emits nothing new |
| `StoreExample.UnexpectedChangeStopsTheActor` | skadi-lib/src/test/kotlin/io/github/syex/skadi/StoreIntegrationTest.kt:21-27 | ButtonClicked in Init stops the actor with the unexpected-change error, which surfaces on the scope, and the state Init; a later RequestData is never reduced |
| `StoreExample.SameInsideEffect` | skadi-lib/src/test/kotlin/de/syex/skadi/SkadiStoreTest.kt:16-24 | the unit test's reducer `effect { state.same() }` always fails with the missing-state error |
| `StoreExample.PerformActionWithoutHandler` | skadi-lib/src/test/kotlin/de/syex/skadi/SkadiStoreTest.kt:26-34 | on a store without `actions`, performAction then completion leaves exactly one unhandled-action error and an otherwise unchanged store |

## Left out

- Coroutine machinery is not modelled: the actor, channels, `launch`, `CoroutineScope`, cancellation, and flow completion. Explicit queues and step functions replace them. Scope cancellation and flow completion are runtime behaviour.
- A turn of the actor is one atomic `Step`. So "install the state before dispatching" is not an ordering inside the step. Instead, every later transition, including the completion of the actions this step launched, starts from a store that already holds the new state.
- Signal delivery is not modelled: no subscribers, no rendezvous waiting, no channel-closed check. `sent` records one send per signal in the effect.
- State-flow collectors that fall behind and skip intermediate values are not modelled. `history` is what a collector that keeps up would receive.
- After the actor dies, `Perform` and `Resolve` still append to the channel, because the model has no cancelled scope. Those changes are never reduced, which is what an observer sees.
- `unexpected(...)` and the `same(actions, signals)` overload are defined outside the files this model covers. The example reducer treats `unexpected` as a throw, which is what its own test checks (skadi-lib/src/test/kotlin/de/syex/skadi/SkadiEffectTest.kt:9-15).
- Builder lambdas are not modelled as lambdas. Each builder call takes the value its lambda returns, and an `effect { }` block is the sequence of calls it made.
- The `skadi` module's own store is not part of this model. Only its effect, builder and `same()` are modelled.
- The Android and JVM samples are left out: UI, view models, the use case with its delay, and test collectors. So are the Gradle build files.
- The business logic of reducers and action handlers is left out. They are function parameters.
- Store.Perform: `perform` launches a coroutine that later sends the change to the actor, and a completed handler task does the same through `perform`. The model appends the change to the channel at call time, so channel order is call order. That holds only under a dispatcher that starts launched coroutines in launch order (the test dispatcher, `Main`). On a multi-threaded dispatcher two performed changes can reach the channel in either order.
- Store.Resolve: the same applies to the change it appends. A completion puts its change in the channel at once, with no separate send step.
- Store.TwoChangesInOrder: its order of reduction is call order, which the program guarantees only under an in-order dispatcher, as for `Store.Perform`.
- Store.Step: its emission clause holds only when the store already satisfies `Valid`. That is always the case for stores reachable from `New`.
- Store.Drain: the same applies to its emission clause. It also does not relate the leftover channel to the fold after the actor dies.
