# fisma, modelled in Dafny

fisma is a small finite-state-machine library. A machine is an ordered list of
state descriptors. Each descriptor has a name (its `type`), optional `enter`
and `exit` hooks, and an optional `on` table that maps event names to targets.

The engine is a generator that holds a cursor into the list:

- a resume without a target advances to the next state, wrapping past the last one;
- a resume with a name jumps to the first state of that name;
- an unknown name keeps the cursor where it is.

On a move, the exit hooks of the state being left run first, then the enter
hooks of the new state. Both are handed the state being left.

The controller (`createMachine`) owns one engine and a set of listeners. It
offers `next`, `send(event)`, `subscribe`, `destroy`, and the getters
`current`/`active` and `done`.

The project models two versions of the library:

- the current engine (`src/fsm.ts`), its controller (`src/create.ts`) and the
  helpers `createState` and `runActions` (`src/utils.ts`);
- the older single-file variant (`src/index.ts`), which has its own engine and
  controller.

How the model is built:

- Callbacks (hooks, event actions, listeners) are opaque ids.
- What a call does to the outside world is the sequence of invocations it
  makes, appended to a `trace`. Each invocation records the callback, its
  role and the argument it was handed.
- The generators are classes whose `Resume` method follows the generator body
  line by line. Each `Resume` is proved against a pure step function
  (`StepFrom`), and the properties are proved about the step functions.
- The controllers are classes that own their engine. Their `Valid()`
  invariant ties the controller's last result to the engine's cursor.

Modules:

| module | file | models |
|---|---|---|
| `Types` | types.dfy | descriptors, snapshots, generator results, invocations |
| `Utils` | utils.dfy | `createState`, `runActions` |
| `Cursor` | cursor.dfy | `findIndex` and the cursor arithmetic shared by both engines |
| `Listeners` | listeners.dfy | the listener `Set`: add, delete, notify in insertion order |
| `Routing` | routing.dfy | how `send` reads the `on` table |
| `Fsm` | fsm.dfy | the current engine `_FSM` |
| `Create` | create.dfy | the current controller `createMachine` |
| `Legacy` | legacy.dfy | the older engine and controller |
| `Variants` | variants.dfy | where the two versions agree and where they part |

Some behaviours of the code are easy to miss. The model follows the code in
each case:

- An unknown target keeps the cursor, but the engine still runs the current
  state's exit and enter hooks.
- `send` with an event that is missing from a present `on` table throws; it is
  not a no-op.
- The older variant's priming resume runs the first state's enter hooks.
- In the older variant, `next` and `send` after `destroy` are not safe no-ops.
- In the current controller, a `next` after `destroy` can replace the snapshot
  with `undefined`.

## Model

| member | source | states |
|---|---|---|
| Cursor.FindIndex | src/fsm.ts:42 | the index of the FIRST state with the name, or -1 exactly when no state has it |
| Cursor.Resolve | src/fsm.ts:42-44 | the index the engine moves to is always within the list |
| Cursor.Hooks | src/fsm.ts:21-36 | a move makes only exit/enter calls, each handed the state being left |
| Cursor.FindIndexOfDistinct | src/fsm.ts:42 | with distinct names, looking up the current state's name finds the current index |
| Cursor.ResolveAdvance | src/fsm.ts:42-44 | with no target and distinct names, the cursor goes to the successor, or to 0 after the last state |
| Cursor.ResolveJump | src/fsm.ts:42 | a known name moves the cursor to the first state carrying it |
| Cursor.ResolveUnknown | src/fsm.ts:43 | an unknown name leaves the cursor where it was |
| Cursor.ResolveAdvanceDuplicate | src/fsm.ts:42-44 | with a repeated name, no target goes to the successor of the name's first holder, not of the current index |
| Utils.CreateState | src/utils.ts:3-7 | keeps the name; declared properties win; missing hooks become empty arrays and a missing `on` an empty table; a bare name gets all defaults |
| Utils.CreateStateShorthand | src/utils.ts:3-7 | a bare name normalises like an object holding only that name |
| Utils.CreateStateIdempotent | src/utils.ts:3-7 | normalising an already normalised descriptor changes nothing |
| Utils.Present | src/utils.ts:10 | the callbacks an array invokes are exactly its non-empty entries, never more than the array's length |
| Utils.Calls | src/utils.ts:9-11 | one call per invoked callback, all with the given role and the same argument |
| Utils.RunActions | src/utils.ts:9-11 | the loop over the copied array performs exactly the calls `Calls` prescribes, in order |
| Utils.CallsExtend | src/utils.ts:10 | one more array entry appends its own call, if it has one, at the end |
| Utils.PresentConcat | src/utils.ts:10 | invoking a concatenation invokes the first part, then the second |
| Utils.EmptyEntrySkipped | src/utils.ts:10 | an empty array entry is skipped and the rest still run in order |
| Utils.PresentHoleFree | src/utils.ts:10 | an array without empty entries invokes every element, in array order |
| Listeners.Add | src/create.ts:61 | `Set.add` keeps each listener once and adds exactly the new one |
| Listeners.Remove | src/create.ts:64 | `Set.delete` removes exactly the given listener, keeps the others and their uniqueness, and changes nothing if it was absent |
| Listeners.NotifyAll | src/create.ts:41 | the loop calls every listener in insertion order with the same snapshot |
| Listeners.NotNotified | src/create.ts:41 | a listener that is not registered is not called |
| Listeners.NotifiedOnce | src/create.ts:41 | each registered listener is called exactly once per notification round |
| Listeners.RemoveAfterAdd | src/create.ts:60-64 | unsubscribing a newly subscribed listener restores the registry exactly |
| Routing.Route | src/create.ts:66-77 | `send` follows an entry exactly when a present `on` table has the event, and goes to that entry's target; it throws exactly on a missing entry or a missing snapshot |
| Routing.BareEntryRunsNothing | src/create.ts:73-76 | a bare-name entry runs no action and requests exactly that name |
| Fsm.StepFrom | src/fsm.ts:34-44 | one resume keeps the cursor within the list; the only calls are exit and enter hooks, handed the state being left |
| Fsm.Run | src/fsm.ts:16-45 | successive resumes keep the cursor within the list |
| Fsm.SameStateIsSilent | src/fsm.ts:34 | a request for the current name runs no hook and keeps the cursor |
| Fsm.AdvanceStep | src/fsm.ts:17-44 | no target: the exit hooks of the current state, then the enter hooks of its successor, wrapping to the first state |
| Fsm.JumpStep | src/fsm.ts:36-42 | a known other name moves to its first holder; the exit hooks run, then that state's enter hooks |
| Fsm.UnknownStep | src/fsm.ts:36-43 | an unknown name keeps the cursor, yet the current state's exit and enter hooks both run |
| Fsm.RunConcat | src/fsm.ts:16-45 | resuming with one sequence of requests and then another equals resuming with their concatenation |
| Fsm.AdvanceRun | src/fsm.ts:17-44 | k untargeted resumes that do not pass the last state advance the cursor by k |
| Fsm.WrapStep | src/fsm.ts:17 | an untargeted resume from the last state lands on the first |
| Fsm.FullCycle | src/fsm.ts:16-45 | as many untargeted resumes as there are states bring the cursor back to where it started |
| Fsm.RepeatSilent | src/fsm.ts:34 | any number of requests for the current name run nothing and keep the cursor |
| Fsm.Engine.constructor | src/fsm.ts:10-14 | creating the generator runs nothing; it starts unprimed at index 0 |
| Fsm.Engine.Resume | src/fsm.ts:10-45 | the priming resume yields the first state and runs no hook; a later resume does `StepFrom` and yields the new state; a finished generator yields `undefined` and runs nothing |
| Fsm.Engine.Return | src/create.ts:84 | `return(value)` finishes the generator, keeps the cursor, and hands back `value` with `done` set |
| Create.NextMove | src/create.ts:31-42 | the guard (`Refuses`: a non-empty name that is no state key, or the current name) drops the request; otherwise one engine step, then every listener; the cursor stays within the list |
| Create.SameNameIsSilent | src/create.ts:36 | `next(current)` runs no hook and notifies nobody |
| Create.UnknownNameIsSilent | src/create.ts:33-38 | a non-empty name that is no state's runs nothing |
| Create.AcceptedReachesTarget | src/create.ts:31-41 | a named request that passes the guard reaches a different state with that name; the exit hooks, the enter hooks and then the listeners run |
| Create.EmptyNameSlipsThrough | src/create.ts:34 | the empty name passes the guard; the current state is left and re-entered and every listener hears it |
| Create.AcceptedNotifiesEachOnce | src/create.ts:40-41 | a request that passes the guard calls each registered listener exactly once with the new snapshot |
| Create.UnsubscribedHearsNothing | src/create.ts:41-64 | a removed listener is not called by any later `next` |
| Create.Machine.constructor | src/create.ts:13-22 | `initial` defaults to the first key; the engine is primed once; no hook runs; the current state is the first one |
| Create.Machine.Current | src/create.ts:48-50 | the `current` getter: the name of the state the engine's cursor is on while live, -1 after `destroy`, and a thrown TypeError (`None`) exactly when the snapshot is `undefined` |
| Create.Machine.Done | src/create.ts:51-53 | the `done` getter holds exactly when the engine has finished |
| Create.Machine.Next | src/create.ts:31-42 | a live machine performs `NextMove` and stays live; once destroyed, an accepted request turns the snapshot into `undefined` and notifies; with no snapshot, a non-empty unknown name is still dropped and any other request throws |
| Create.Machine.Subscribe | src/create.ts:60-63 | registers the listener once and calls it at once with the current snapshot |
| Create.Machine.Unsubscribe | src/create.ts:64 | deletes exactly that listener and reports whether it was registered |
| Create.Machine.Send | src/create.ts:66-78 | follows `Route`: ignores or throws without running anything, or runs the entry's actions on the current snapshot and then `next(target)`, even when that request is then dropped; afterwards the machine is live and its snapshot is the state the cursor is on |
| Create.Machine.Destroy | src/create.ts:82-87 | finishes the engine with the `-1` marker, so `done` holds and `current` is -1, and empties the listener set |
| Legacy.Normalize | src/index.ts:63 | keeps the name; a bare name has no hooks and no `on` table; an object keeps what it has |
| Legacy.Declared | src/index.ts:63-64 | a missing list is empty; otherwise each declaration is normalised one by one, keeping its name and the order |
| Legacy.NormalizeShorthand | src/index.ts:63 | a bare name normalises like an object holding only that name |
| Legacy.HoleFreeCallsAll | src/index.ts:28-33 | this variant's `runActions` calls every element of an array, in order |
| Legacy.PrimeHooks | src/index.ts:35-43 | priming runs only the first state's enter hooks, handed the first state |
| Legacy.StepFrom | src/index.ts:41-58 | one resume keeps the cursor within the list (at 0 for an empty list), and runs only exit/enter hooks handed the state being left |
| Legacy.NextMove | src/index.ts:103-106 | the cursor after `next` stays within the list |
| Legacy.SameStateRunsHooks | src/index.ts:51-58 | `next(current)` is not suppressed: the state is left and re-entered |
| Legacy.UnknownRunsHooks | src/index.ts:51-58 | an unknown name keeps the cursor and runs the current state's exit and enter hooks |
| Legacy.AdvanceRunsHooks | src/index.ts:41-58 | no target: exit hooks, then the successor's enter hooks, wrapping to the first state |
| Legacy.NextNotifiesEachOnce | src/index.ts:103-106 | every `next` calls each registered listener exactly once |
| Legacy.Engine.constructor | src/index.ts:27 | creating the generator runs nothing |
| Legacy.Engine.Resume | src/index.ts:27-60 | priming runs `PrimeHooks` and yields the first state (`undefined` for an empty list); a later resume does `StepFrom` |
| Legacy.Engine.Return | src/index.ts:111 | `return()` finishes the generator with `undefined` and keeps the cursor |
| Legacy.Machine.constructor | src/index.ts:62-67 | a missing list is empty; priming runs the first state's enter hooks; `active` is the first name, or -1 for an empty list |
| Legacy.Machine.Active | src/index.ts:71-73 | the `active` getter: the name of the state the cursor is on while live, otherwise -1 (empty list or after `destroy`) |
| Legacy.Machine.Done | src/index.ts:74-76 | the `done` getter holds exactly when the engine has finished |
| Legacy.Machine.Next | src/index.ts:103-106 | always resumes and notifies; after `destroy`, every listener hears `undefined` |
| Legacy.Machine.Subscribe | src/index.ts:81-84 | registers the listener once and calls it at once with the current snapshot |
| Legacy.Machine.Unsubscribe | src/index.ts:85 | deletes exactly that listener |
| Legacy.Machine.Send | src/index.ts:87-96 | follows `Route`: throws when the snapshot or the entry is missing, ignores a state without `on`, and otherwise runs the actions before `next(target)`, after which the machine is live and its snapshot is the state the cursor is on |
| Legacy.Machine.Destroy | src/index.ts:110-113 | finishes the engine, so `done` holds and `active` is -1, and empties the listener set |
| Variants.EnginesAgreeOnMoves | src/fsm.ts:34-44 | except on a request for the current name, both engines take the same step |
| Variants.EnginesDifferExactly | src/index.ts:51-58 | the engines differ exactly on a request for the current name whose state has an exit or enter hook |
| Variants.PrimingDiffers | src/index.ts:43 | the older engine's priming runs hooks exactly when the first state has enter hooks |
| Variants.UnknownNameControllers | src/create.ts:33-39 | for an unknown non-empty name, the current controller runs nothing; the older one runs the current state's hooks and notifies |
| Variants.ControllersAgreeOtherwise | src/index.ts:103-106 | any request the current controller lets through does exactly what the older controller does |

## Left out

- `Engine(states, initial, final)`, which `src/create.ts` calls, is not part of this model. The model stands `_FSM` over the list of descriptors in its place. `initial` is only reported and `final` is not modelled.
- Transition guards (a `cond` on a state descriptor, asserted only by tests/transition-guard.test.ts:5-20) are not modelled. No engine in this model has any guard handling.
- `createId` and the machine `id` are not modelled: they are opaque string handling.
- The development-mode checks on a missing config or an empty `states` are not modelled. They are build-time switches.
- Fsm.Engine.constructor, Create.Machine.constructor: these require a non-empty list, because `src/fsm.ts` throws on reading `type` of the missing first state.
- Create.Machine.constructor: this requires distinct names, because the source takes the states from an object's keys.
- Legacy.Engine.constructor, Legacy.Machine.constructor: these require `Typed`. `Typed` means no `null` entry in a hook array and no single function as an event's `actions`.
  - A `null` entry makes the older variant throw; that error path is not modelled.
  - A single function is skipped or throws, depending on its declared arity (`actions?.length`). Callbacks are opaque ids here, so they have no arity, and the case is excluded.
- Exceptions thrown by a callback, and callbacks that re-enter the machine (an action calling `next`), are not modelled.
- Callbacks are modelled by identity only. What they compute, and any aliasing between a descriptor and the snapshot a callback receives, are not modelled.
- Inherited object keys in an `on` table (such as `toString`) are not modelled. An event is either an own entry or missing.
- Values of a type other than string passed to `next` or `send` are not modelled, apart from the `-1` marker.
- Generator mechanics beyond `next` and `return` are not modelled; for example, `throw` is not.
- The closure that `subscribe` returns is modelled as the method `Unsubscribe`.
- `createState` building a fresh object without touching its argument, and `runActions` copying its array, hold trivially on values. The model does not capture them as separate facts.
