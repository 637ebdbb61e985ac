# Transparent-reactivity engine in Dafny

This project models the dependency-tracking core of a minimal "observable + autorun"
library (`src/index.js`, lines 6–67). It also proves properties of that model.

- `observable(target)` wraps a plain record. Every field that does not hold a function
  at wrap time gets a getter and a setter. The getter appends the field's property
  identity to the shared read log (`accessedProperties`) and returns the target's live
  value. The setter writes through to the target. It then invokes every callback listed
  under that identity in the shared subscriber graph (`derivationGraph`), in list order.
  Function-valued fields are copied by reference, with no interception.
- `createReaction(cb).track(fn)` does three things. It clears the read log, runs `fn`,
  and then subscribes `cb` to every identity in the log. A list is created when it is
  missing, and `cb` is appended only when it is not already there.
- `autorun(cb)` is `createReaction(cb).track(cb)`.

Layout:

- `identity.dfy` (module `Identity`): the property identity
  `"Observable(" + id + ":" + key + ")"`, with the instance id written in decimal.
  It proves that two identities are equal exactly when the instance and the key are.
- `graph.dfy` (module `Graph`): the subscriber graph as a value. `Subscribe` is the
  subscription loop of one `track` pass. `SubscribeSpec` is an independent reference
  definition of it. `Replay` is the graph after a whole history of passes. The lemmas
  cover registration, deduplication, append-only growth, framing, ordering and
  "no spurious triggers".
- `reactive.dfy` (module `Reactive`): the imperative engine.
  - `Engine` holds the read log and the graph.
  - `Target` is the wrapped record, shared by reference.
  - `ObservableObject` is the wrapper. Its constructor is `observable`. `Get` and
    `Set` are its interceptors.
  - `Reaction` is `createReaction`, and its `Track` is `track`.
  - `Autorun` is `autorun`.
  - A tracked function is a sequence of `Event`s (reads and writes on wrappers).
    `ReadLog`, `FiredBy`, `TargetAfter` and `OwnAfter` say what such a function
    does to the state.
- `scenarios.dfy` (module `Scenarios`): clients that state the engine's promised
  behaviour for arbitrary objects and reactions. `TrackedReadFiresOnce` and
  `UnreadWriteIsSilent` start from any graph. `AutorunThenWrite`, `TwoAutorunsInOrder`
  and `OtherInstanceIsSilent` start from an empty graph, as a freshly loaded module
  does. The module also states the concrete counter examples on the demo store's
  shape, with `count`, `somethingElse` and `increment`.

Modelling choices:

- Callbacks are opaque ids (`CallbackId = nat`). A write does not run callbacks.
  Instead it returns `fired`, the ordered list of callbacks it invokes. JavaScript's
  `forEach` fixes its range before the first call, so this list is the subscriber
  list as it stood at the moment of the write.
- The setter stores the new value before notifying. In the model, the store has
  already happened in the state `Set` returns, and that is the state the returned
  callbacks would run in.
- Field values are `Undefined | Number | Text | Function(code)`. A missing key reads
  as `Undefined`; members inherited through the prototype chain are not modelled.
  `typeof … === "function"` is `Value.IsFunction`.
- A tracked function is the sequence of reads and writes it makes itself. The reads
  that invoked callbacks would make during the same call are not part of it (see
  "Left out").
- The instance id is a caller-supplied `nat`, where the source uses `Math.random()`.
  Callers are expected to give each wrapper a fresh id. The identity string keeps the
  source's format, with the number written in decimal.

## Model

| member | source | states |
|---|---|---|
| `Identity.PropertyIdOf` | src/index.js:16 | `getId`: the identity opens with `Observable(`, continues with the instance id in decimal, and ends with `:`, the field name and `)`. |
| `Identity.DecimalRoundTrip` | src/index.js:16 | The decimal rendering of an instance id can be read back to that id, so the id part of an identity determines the instance. |
| `Identity.PropertyIdInjective` | src/index.js:14-19 | Two identities are equal iff both the instance id and the key are equal. So different keys of one object get different identities, and so does the same key on two objects with different ids. |
| `Graph.SubscribersLookup` | src/index.js:33-34 | The lookup a write makes. A non-empty list is reported only for an identity that has an entry, and then it is that entry's list. On a duplicate-free graph the list holds each callback once. |
| `Graph.AddOnce` | src/index.js:55-57 | The `indexOf` guard plus `push` keeps the old list as a prefix and makes the callback a member. It adds nothing else, and it never creates a duplicate. |
| `Graph.SubscribeOneEffect` | src/index.js:53-57 | One turn of the subscription loop. It creates the entry for the identity when missing. The old list stays a prefix, the callback becomes a member, and the list grows by at most one. Every other entry is unchanged. |
| `Graph.SubscribeKeys` | src/index.js:52-57 | After a pass of `Subscribe`, the entries are exactly the old ones plus one for each identity in the log. |
| `Graph.SubscribeMatchesSpec` | src/index.js:52-58 | The in-order subscription loop equals the reference definition. Every logged identity gets the callback added once, and every other entry is left untouched. |
| `Graph.SubscribersAfter` | src/index.js:52-58 | After a pass, an identity's list gains the callback once if the identity was logged, and is otherwise unchanged. |
| `Graph.SubscribeRegisters` | src/index.js:52-57 | After a pass, every logged identity has an entry, and that entry contains the pass's callback. |
| `Graph.SubscribeOnlyAppends` | src/index.js:53-57 | A pass only grows the graph. No entry is lost, and every old list is a prefix of its new list. |
| `Graph.SubscribeFramesUnread` | src/index.js:52-57 | An identity the pass did not log keeps both its entry (or its absence) and its list. |
| `Graph.SubscribeAddsOnlyItsCallback` | src/index.js:52-57 | The only callback a pass adds anywhere is its own. |
| `Graph.SubscribeKeepsWellFormed` | src/index.js:55-57 | If no list held a duplicate before the pass, none does after it. |
| `Graph.SubscribeDependsOnlyOnReadSet` | src/index.js:52-57 | Two logs with the same identities, in any order and with any repeats, record the same edges. |
| `Graph.SubscribeIdempotent` | src/index.js:52-57 | Tracking the same reads again leaves the graph unchanged. |
| `Graph.FiresExactlyOnce` | src/index.js:30-57 | After a pass that read an identity, starting from a duplicate-free graph, that identity's list holds the pass's callback exactly once. So one write invokes it exactly once. |
| `Graph.ReactionsFireInTrackOrder` | src/index.js:34-57 | Suppose two reactions both read an identity and are tracked in order, and neither was subscribed to it before. Then that identity's list is the old list followed by the first callback and then the second. |
| `Graph.ReplayCharacterised` | src/index.js:46-58 | After any history of passes from the empty graph, an identity has an entry iff some pass read it. Its list is the callbacks of the passes that read it, each once, in the order they were first tracked. So a field that nobody read invokes nothing. |
| `Graph.ReplayWellFormed` | src/index.js:7 | Every reachable graph is free of duplicates. |
| `Reactive.Engine.constructor` | src/index.js:6-7 | The read log starts empty, and so does the graph. |
| `Reactive.Engine.RecordReads` | src/index.js:52-58 | The subscription loop leaves the graph equal to `Subscribe` of the old graph over the current log. It also keeps the graph duplicate-free. |
| `Reactive.InterceptedIds` | src/index.js:18-24 | A key gets an interceptor iff it is present at wrap time and its value is not a function. Its identity is `getId` of that key. |
| `Reactive.CopiedMethods` | src/index.js:18-23 | A key is copied onto the wrapper iff it is present and holds a function, and the copy is the same function value. |
| `Reactive.WrapPartitionsFields` | src/index.js:18-41 | Every key present at wrap time is intercepted or copied, never both. Distinct intercepted keys get distinct identities. |
| `Reactive.ObservableObject.constructor` | src/index.js:9-44 | Only the keys present at wrap time whose value is not a function get interceptors. Each gets the identity built from the instance id and the key. Function-valued keys are copied unchanged onto the wrapper, and nothing else is. |
| `Reactive.ObservableObject.Get` | src/index.js:25-28 | Reading an intercepted key appends exactly its identity to the log and returns the target's current value. Any other key reads the wrapper's own property and logs nothing. |
| `Reactive.ObservableObject.Set` | src/index.js:30-38 | Writing an intercepted key stores the value in the target. It invokes the subscribers of its identity in list order, or none when the identity has no entry, and the graph is unchanged. Any other key sets the wrapper's own property and invokes nothing. |
| `Reactive.Perform` | src/index.js:25-37 | One read or write through the interceptors. It changes the log, the target and the wrapper exactly as the single-event functions say. |
| `Reactive.Run` | src/index.js:50 | Running a tracked function appends the identities of its own intercepted reads to the log, in order. It returns the callbacks its writes invoke, and applies its writes to each target and wrapper. |
| `Reactive.Reaction.constructor` | src/index.js:46-47 | A reaction holds the callback it was created with. |
| `Reactive.Reaction.Track` | src/index.js:48-59 | Afterwards the log is exactly the reads of `fn`'s own events. The graph is `Subscribe` of the old graph over those reads and this reaction's callback. Every identity read has the callback subscribed, every old list is a prefix of its new list, and freedom from duplicates is kept. |
| `Reactive.Autorun` | src/index.js:63-67 | `autorun(cb)` has the effect of a reaction with callback `cb` tracking the events of `cb`'s own body once. |
| `Reactive.ReadLogExact` | src/index.js:25-28 | An identity is in a function's read log iff the function made an intercepted read with that identity. Reads of copied methods or unknown keys log nothing. |
| `Reactive.FiredByExact` | src/index.js:33-36 | A callback is invoked by a function's writes iff it is subscribed to the identity of one of its intercepted writes. |
| `Reactive.InstancesIsolated` | src/index.js:14-19 | The interceptors of two wrappers share an identity only for the same key of the same instance. |
| `Scenarios.TrackedReadFiresOnce` | src/index.js:30-58 | After a reaction tracks a function that reads a field, a write to that field stores the value and invokes the reaction's callback exactly once. |
| `Scenarios.UnreadWriteIsSilent` | src/index.js:30-37 | Writing a field whose identity has no entry invokes nothing and leaves the graph unchanged. |
| `Scenarios.AutorunThenWrite` | src/index.js:63-80 | An autorun reading `count` invokes nothing on its first run. A later write to `count` invokes it exactly once, and then a read sees the new value. A write to a field it did not read invokes nothing. |
| `Scenarios.TwoAutorunsInOrder` | src/index.js:34-67 | Two autoruns on one field are invoked in the order they were set up. |
| `Scenarios.OtherInstanceIsSilent` | src/index.js:14-37 | After an autorun reads a field of one wrapper, writing the same key of a wrapper with a different identity invokes nothing. |

## Left out

- The UI binding and bootstrapping (`useForceUpdate`, `observer`, `App`, rendering,
  the stylesheet import; `src/index.js:1-4, 82-121`): framework calls with no logic of
  the engine.
- The demo `store` and its logging autorun (`src/index.js:69-80`): console output. The
  store's shape appears only in the scenarios `CounterScenario` and `MethodScenario`.
- `Math.random()` as the instance id: replaced by a caller-supplied natural number
  written in decimal. The model does not check that ids are fresh. Two wrappers given
  the same id would share identities, as two equal random numbers would.
- Running callbacks: callbacks are ids, and a write returns the list of callbacks it
  invokes instead of calling them. So recursive notification, a callback that writes
  back (unbounded recursion), and a callback that calls `track` while another `track`
  is in progress (which clears the shared read log) are not modelled.
- Reactive.Run: a write inside the tracked function returns the callbacks it would
  invoke instead of running them. In the program those callbacks run at once
  (`src/index.js:33-35`), and their reads are pushed onto the log (line 26) during the
  same call. So the model's log leaves out the reads of invoked callbacks.
- Reactive.Reaction.Track: its `fired` result lists the callbacks that the tracked
  function's own writes invoke, in order. It does not include what those callbacks
  would do. Also, its log and its new edges cover only `fn`'s own reads. In the program,
  lines 52-57 also subscribe `onChange` to every field read by a callback that `fn`'s
  writes invoke. Take `autorun(A)` where A reads `o.x`, then
  `createReaction(B).track(() => { o.x = 1 })`. The program then subscribes B to `o.x`,
  but the model adds no edge for B.
- Reactive.Autorun: the same gap as `Track`, since it is `Track` with the body as the
  callback. In addition, the later runs of an autorun are direct calls from a setter
  (line 35), not calls through `track`. They record no edges, but in the program they
  leave their reads in the shared log until the next `track` clears it. The model never
  runs those calls.
- Graph.ReplayCharacterised: a pass's log is the reads of its tracked function's own
  events. So its consequence "a write never invokes a callback whose reaction did not
  read the field" holds within the model, not for programs where a tracked function's
  writes invoke callbacks.
- Exceptions thrown by a tracked function: a function is a finite sequence of reads and
  writes and always completes. So the partly filled log with no edges recorded is not
  modelled.
- The `this` binding of copied methods such as `increment`: JavaScript runtime
  semantics. The model shows only that function-valued keys are not intercepted.
- JavaScript values beyond the `Value` datatype (objects, booleans, `null`), the
  prototype chain (a key such as `toString` that the wrapper, a plain `{}`, inherits
  from `Object.prototype` reads as `Undefined` here), property deletion and key
  enumeration order. The wrapper that results is the same whatever
  order `Object.keys` gives.
