# Podium event emitter, modelled in Dafny

Podium (`lib/index.js`) is an in-process event emitter. Each emitter has four
fields:

- `_eventListeners`: a table from event name to `{ subs, flags }`, where `subs`
  is `null` or an array of subscription objects;
- `_notificationsQueue`: the queue of pending notifications;
- `_eventsProcessing`: a busy flag;
- `_podiums`: the list of link targets.

The operations work on these fields:

- `registerEvent` adds names to an emitter and copies each new name one hop
  into its link targets.
- `registerPodium` links emitters together.
- `on`, `once`, `removeListener`, `removeAllListeners` and `hasListeners` edit
  and query the subscription lists.
- `emit` queues a notification and, when the emitter is idle, drains the queue
  in order. Each notification goes to a snapshot of its event's list, in
  parallel. A subscription can have a fire-count, can block until it calls
  `next` (optionally with a timeout), and can ask for a clone of the data.
- When an emitter has link targets, each notification's completion callback
  becomes a fan-out: the event is emitted again on every target, and the
  original callback runs once all of them complete.

The model has three layers:

- **Values** (`state.dfy`, `registry.dfy`, `listeners.dfy`, `dispatch.dfy`):
  - A `World` holds every emitter by id, plus a store of subscription objects
    by id. Event lists hold ids, so the in-place updates the dispatch cycle
    makes to `handler.count` are seen through every list and snapshot that
    holds the same object.
  - Each library function is a function on `World`.
  - The dispatch cycle is split into steps wherever a listener, a callback or
    a timer can run code: `Begin` (`each`), `Deliver` (`eachHandler`),
    `Finish` (a blocking handler's `next`, or its timer) and `Settle` (the
    serial drain's final callback).
- **Steps** (`steps.dfy`): `Next` applies any public call or dispatch step. A
  call that throws leaves the world as it was. `Run` folds a schedule of
  steps. `step_facts.dfy` proves, over every schedule from no emitters:
  - the world invariant;
  - the fire-count tally;
  - first-in-first-out completion per emitter;
  - that histories only grow;
  - the join invariant (`joins.dfy`, `join_steps.dfy`): each open join's count
    equals the number of pending notifications and open joins that will report
    to it when they complete. So the last target to complete runs the original
    callback, exactly once, and a closed join is never reported to again. A
    caller's `emit` can pass only its own callback, never a join's `next`;
  - that no emitter lists the same link target twice (`link_facts.dfy`), so a
    fan-out emits exactly once on each target.
- **Imperative layer** (`hub.dfy`): class `Hub` holds the same state as mutable
  fields. Its methods do what the library's functions do, with loops where the
  library loops (`forEach`, `filter`, `indexOf`, `Object.keys(...).forEach`,
  `Items.parallel` over link targets). Each method is proved to leave exactly
  the state the value model gives when it succeeds. When it throws, the nine
  dispatch methods listed under "Left out" pin only the error.

## Model

| member | source | states |
|---|---|---|
| Hubs.Hub.NewPodium | lib/index.js:14-26 | `new Podium(events)` allocates a fresh emitter with empty fields, then registers `events` on it; the state and error are those of `Registry.Create` |
| Hubs.Hub.RegisterEvent | lib/index.js:29-57 | entries are registered one after another; the first that throws stops the call and keeps the entries before it; the result equals `Registry.RegisterEvents` |
| Hubs.Hub.RegisterEntry | lib/index.js:32-49 | a falsy entry is skipped; an emitter entry is linked; a string becomes `{ name }`; a config object with an empty name throws "Missing event name" |
| Hubs.Hub.AddEvent | lib/index.js:46-55 | a duplicate name throws; otherwise the name gets `{ subs: null, flags }` on the emitter and on each link target that lacks it |
| Hubs.Hub.RegisterPodium | lib/index.js:60-76 | links each source in turn; equals `Registry.RegisterPodium` |
| Hubs.IndexOf | lib/index.js:64 | returns -1 exactly when the element is absent, and otherwise its first position |
| Hubs.Hub.Link | lib/index.js:62-75 | a source that already targets `t` is left alone; otherwise `t` is pushed onto its targets and `t` adopts every name it lacks, with the source's flags |
| Hubs.Hub.On | lib/index.js:178-196 | checks the listener options in the source's order; on success appends one new subscription, turning a `null` list into an array |
| Hubs.Hub.Once | lib/index.js:199-207 | `on` with the count forced to 1 |
| Hubs.Hub.RemoveListener | lib/index.js:210-223 | filters the list by listener, keeping order; an empty result becomes `null`; an unknown event or a missing listener throws |
| Hubs.Hub.Survivors | lib/index.js:220 | the `filter` loop keeps exactly the ids whose subscription is absent or has a different listener, in order |
| Hubs.Hub.RemoveAllListeners | lib/index.js:226-232 | sets the list to `null`; an unknown event throws |
| Hubs.Hub.HasListeners | lib/index.js:243-247 | throws exactly for an unknown event; when the list is `null` or non-empty, the answer is true iff at least one subscription is listed; changes nothing |
| Hubs.Hub.RemoveHandler | lib/index.js:235-240 | filters one subscription out of the list by identity; an empty result becomes `null`; a `null` list is left as it is (see Findings) |
| Hubs.Hub.Emit | lib/index.js:79-86 | an unknown event throws; otherwise the notification (wrapped for link targets) is queued, its id is issued, and the queue is pumped |
| Hubs.Hub.Pump | lib/index.js:109-123 | when the emitter is neither busy nor with an empty queue, sets the flag and swaps the whole queue out as the batch; otherwise changes nothing |
| Hubs.Hub.EmitAll | lib/index.js:99-103 | emits on each link target in order; the first throw ends it with that error |
| Hubs.Hub.Invoke | lib/index.js:99-103 | runs a completion callback: a fan-out reads the source's targets when it runs and emits on each of them under a join; the join's last `next` runs the original callback |
| Hubs.Hub.Spread | lib/index.js:99-102 | opens a join counting every target, then emits on each target in turn with the join as callback; equals `Dispatch.Spread` |
| Hubs.Hub.Arrive | lib/index.js:102 | one target completing: with more than one still pending the join only counts down; the last arrival deletes the join and hands back the original callback |
| Hubs.Hub.Complete | lib/index.js:163-167 | the head of the batch is recorded as completed and dropped, then its callback runs |
| Hubs.Hub.MaybeComplete | lib/index.js:163 | the parallel final callback runs only once every snapshot entry has been handed the item and has finished |
| Hubs.Hub.Begin | lib/index.js:125-133 | an item of an event with no subscribers completes at once; otherwise a cycle starts over a copy of the list |
| Hubs.Hub.Deliver | lib/index.js:134-167 | one `eachHandler` call, then completion if this handler was the last to finish |
| Hubs.Hub.Hand | lib/index.js:134-161 | decrements a truthy count in place and removes the handler when the count drops below 1; records the listener call with the clone decision; counts the handler finished unless it blocks |
| Hubs.Hub.Spend | lib/index.js:136-140 | a truthy count drops by one in the shared subscription; a count that reaches 0 takes the subscription off the live list; nothing else changes |
| Hubs.Hub.Call | lib/index.js:136-146 | spends the count, records the subscription as fired one more time and appends the delivery to the trace; nothing else changes |
| Hubs.Hub.Finish | lib/index.js:150-160 | a blocking handler's `next` (or its timer) counts it finished; a numeric block's `next` counts once, `true`'s every time |
| Hubs.Hub.Recount | lib/index.js:147-167 | installs the updated cycle and runs the final callback when every handler has been handed the item and finished; equals `Dispatch.Recount` |
| Hubs.Hub.Settle | lib/index.js:170-174 | clears the busy flag and pumps the queue again |
| ListenersFacts.OnSucceedsIff | lib/index.js:187-190 | `on` succeeds iff the event is known, the listener is a function, the count is undefined or positive, and the block is undefined, `true` or an integer; names the error for the first two checks |
| ListenersFacts.OnAppends | lib/index.js:192-193 | a successful `on` appends exactly one fresh subscription at the end of the list, carrying the caller's listener, its count (0 when none), its clone option and its block (`true`, a number, or none), with no deliveries yet; the event's flags, the emitter's other events, queue, batch and cycle, and every other emitter are unchanged |
| ListenersFacts.OnceForcesCount | lib/index.js:199-207 | `once` ignores the caller's count and registers a count and limit of 1 |
| ListenersFacts.KeepAppend | lib/index.js:220 | the listener filter distributes over concatenation, so it keeps order |
| ListenersFacts.KeepNone | lib/index.js:220 | removing a listener that no subscription has leaves the list unchanged |
| ListenersFacts.KeepDistinct | lib/index.js:220 | filtering a list without repeats yields a list without repeats |
| ListenersFacts.RemoveListenerKeeps | lib/index.js:215-221 | `removeListener` keeps exactly the subscriptions with a different listener, in order; it keeps a `null`-or-non-empty list `null`-or-non-empty; the event's flags, the emitter's other events, queue, batch and cycle (with its snapshot), every other emitter and the subscription store are unchanged |
| ListenersFacts.RemoveAllEmpties | lib/index.js:226-247 | after `removeAllListeners` the event has no subscribers and `hasListeners` is false; the event's flags, the emitter's other events, queue, batch and cycle (with its snapshot), every other emitter and the subscription store are unchanged |
| ListenersFacts.HasListenersIff | lib/index.js:243-247 | when the list is `null` or non-empty, `hasListeners` is true iff the event has at least one subscription |
| ListenersFacts.WithoutAppend | lib/index.js:238 | the identity filter distributes over concatenation |
| ListenersFacts.RemoveHandlerExact | lib/index.js:235-240 | `removeHandler` takes out exactly that subscription, keeps the flags, and leaves the list `null` or non-empty |
| ListenersFacts.RemoveHandlerRepair | lib/index.js:235-240 | the source's `removeHandler` throws iff the list is `null`; otherwise it agrees with the repaired one |
| Registry.InstallCovers | lib/index.js:50-55 | after copying a new name to the link targets, every target knows the name |
| Registry.InstallOnly | lib/index.js:50-55 | the copy touches only targets, and a target only by gaining the name with `subs: null` |
| Registry.InstallGrows | lib/index.js:50-55 | the copy overwrites no existing entry and no other field |
| RegistryFacts.DefineInstalls | lib/index.js:46-55 | registering a name succeeds iff it is new, and a duplicate throws; the name gets `{ subs: null, flags }`; every direct target knows it afterwards; no existing entry of any emitter is overwritten |
| RegistryFacts.RegisterOneCases | lib/index.js:34-49 | a falsy entry and the empty string are skipped; an object with an empty name throws; an emitter entry links; a string registers with default flags |
| RegistryFacts.RegisterEventsStops | lib/index.js:32-56 | once an entry has thrown, later entries change nothing; the entries registered earlier stay |
| RegistryFacts.LinkOneAlreadyLinked | lib/index.js:64-66 | linking a source that already targets `t` changes nothing |
| RegistryFacts.LinkOneIdempotent | lib/index.js:62-75 | linking twice is the same as linking once |
| RegistryFacts.RegisterPodiumTwice | lib/index.js:62-75 | listing a source twice in one `registerPodium` call is the same as listing it once |
| RegistryFacts.LinkOneCopies | lib/index.js:68-74 | a new link appends `t` once to the source's targets and changes nothing else of the source; `t` then knows exactly its old names plus the source's names, keeps its own entries, gets the source's flags for adopted names, and changes nothing but its table; no other emitter changes |
| DispatchFacts.EmitUnknown | lib/index.js:83 | `emit` throws iff the event is unknown, with "Unknown event" |
| DispatchFacts.EmitWhileBusy | lib/index.js:109-119 | while the emitter is processing, `emit` only appends to its queue and issues the next id; other emitters are untouched |
| DispatchFacts.EmitWhenIdle | lib/index.js:109-123 | on an idle emitter, `emit` swaps the queue out as the batch: the batch is that one notification, the queue is empty and the flag is set |
| DispatchFacts.DistributeKeeps | lib/index.js:89-105 | `distribute` keeps id, event and data; it returns the notification unchanged iff there are no link targets, and otherwise wraps the callback as a fan-out from this emitter |
| DispatchFacts.FanoutWithoutTargets | lib/index.js:99-102 | a fan-out whose source has no targets when it runs is the original callback |
| DispatchFacts.EmitAppends | lib/index.js:79-123 | on an idle or busy emitter alike, a successful `emit` adds exactly one notification (the distributed one, with the next id) after everything pending there and issues its id; nothing else in the world changes but the id counter |
| DispatchFacts.EmitAllReaches | lib/index.js:101-102 | emitting on distinct targets gives each target exactly one new notification, after everything pending there, with the event, the data and the callback, wrapped again when that target has targets of its own; ids are consecutive; no other emitter changes |
| Joins.FanoutDelivers | lib/index.js:99-102 | a fan-out over distinct targets opens the next join with one count per target and feeds each target exactly one copy with the join's `next` as callback; no other emitter or join changes |
| DispatchFacts.InvokeFramed | lib/index.js:99-103 | running a completion callback only emits: no subscription, delivery, table, link, cycle or completion changes |
| DispatchFacts.CompleteRecords | lib/index.js:163-167 | completing the head of a batch records its id as completed, drops it, and ends the cycle |
| DispatchFacts.BeginEmpty | lib/index.js:127-132 | an item whose event has no subscribers completes in the same step |
| DispatchFacts.BeginSnapshot | lib/index.js:163 | otherwise the cycle starts over a snapshot of the current list, with nobody handed the item yet |
| DispatchFacts.HandedDelivers | lib/index.js:134-161 | one handler call is recorded, with the clone decision `handler.clone \|\| flags.clone`; a truthy count drops by one; a count of 1 takes the subscription off the live list; a non-blocking handler counts as finished, a blocking one waits |
| DispatchFacts.DeliverRecords | lib/index.js:145-167 | the item completes in the delivery step exactly when the snapshot is exhausted and every handler has finished |
| DispatchFacts.FinishOnce | lib/index.js:151-153 | a numeric block's `next` is once-guarded: a second call changes nothing |
| DispatchFacts.FinishRecords | lib/index.js:150-167 | a `next` that still counts adds one finish (and marks a numeric block's `next` used); the item completes in that step, recorded as completed and dropped from the batch, exactly when the snapshot is exhausted and this was the last handler to finish; otherwise only the cycle changes |
| DispatchFacts.FinishRepeats | lib/index.js:156-159 | the unguarded `next` of `block: true` counts a finish on every call |
| DispatchFacts.FinishStale | lib/index.js:150-160 | a `next` or timer for a cycle that is over changes nothing |
| DispatchFacts.SettleRedrains | lib/index.js:170-174 | after a batch drains, the flag clears; whatever was queued meanwhile becomes the next batch |
| Joins.JoinOpen | lib/index.js:101-102 | while the join invariant holds, a join's `next` about to run finds its join open |
| Joins.JoinReleasesLast | lib/index.js:102 | a join's `next` releases the original callback exactly when nothing else reports to the join (its count is 1); otherwise it only counts down |
| Joins.SpreadDebt | lib/index.js:99-102 | opening a join over the targets and emitting on them keeps every join's count equal to what reports to it |
| Joins.InvokeDebt | lib/index.js:99-103 | running any completion callback that reports to its join keeps the join invariant and opens only new joins |
| Joins.CompleteDebt | lib/index.js:163-167 | completing an item hands its report to the callback it runs: the join invariant holds afterwards |
| JoinSteps.PublishDebt | lib/index.js:79-86 | a caller's `emit` adds a notification that reports to no join, so every count still matches |
| JoinSteps.NextJoins | lib/index.js:29-247 | every public call and dispatch step keeps the join invariant and opens only joins with new ids |
| JoinSteps.RunJoins | lib/index.js:79-175 | any schedule keeps the world invariant and the join invariant |
| JoinSteps.ClosedStaysClosed | lib/index.js:99-103 | once a join's original callback has run, no schedule reopens the join, and nothing pending anywhere reports to it again |
| JoinSteps.JoinsFromScratch | lib/index.js:14-247 | from no emitters, every schedule keeps each open join's count equal to what still reports to it |
| LinkFacts.LinkOneDistinct | lib/index.js:64-68 | `registerPodium` pushes a target only when `indexOf` did not find it, so the targets stay free of repeats |
| LinkFacts.RegisterPodiumDistinct | lib/index.js:60-76 | linking any list of sources keeps every emitter's targets free of repeats |
| LinkFacts.NextLinksDistinct | lib/index.js:29-247 | every public call and dispatch step keeps every emitter's targets free of repeats: only registration changes them |
| LinkFacts.LinksFromScratch | lib/index.js:14-247 | from no emitters, every schedule reaches a world where no emitter lists the same target twice |
| Invariants.EmitInv | lib/index.js:79-123 | `emit` keeps the world invariant |
| Invariants.InvokeInv | lib/index.js:99-103 | running a completion callback keeps the invariant |
| Invariants.SpreadInv | lib/index.js:99-102 | opening a join and emitting on every target keeps the invariant |
| Invariants.CompleteInv | lib/index.js:163-167 | completing an item keeps the invariant |
| Invariants.BeginInv | lib/index.js:125-133 | starting a cycle keeps the invariant |
| Invariants.DeliverInv | lib/index.js:134-167 | delivering to a handler keeps the invariant (see Invariants below) |
| Invariants.FinishInv | lib/index.js:150-160 | a blocking handler's completion keeps the invariant |
| Invariants.RecountInv | lib/index.js:147-167 | counting a handler finished, and completing the item when it was the last, keeps the invariant |
| Invariants.SettleInv | lib/index.js:170-174 | the end of a batch keeps the invariant |
| ApiInvariants.OnInv | lib/index.js:192-193 | `on` keeps the invariant |
| ApiInvariants.RemoveListenerInv | lib/index.js:215-221 | `removeListener` keeps the invariant |
| ApiInvariants.RemoveAllInv | lib/index.js:230 | `removeAllListeners` keeps the invariant |
| ApiInvariants.DefineInv | lib/index.js:46-55 | registering a name keeps the invariant |
| ApiInvariants.LinkOneInv | lib/index.js:64-74 | linking keeps the invariant |
| ApiInvariants.RegisterEventsInv | lib/index.js:29-57 | `registerEvent` keeps the invariant, whether or not it throws |
| ApiInvariants.CreateInv | lib/index.js:14-26 | the constructor keeps the invariant |
| Histories.CreateLater | lib/index.js:14-26 | the constructor changes no existing emitter's issued or completed ids |
| Histories.RegisterEventsSettled | lib/index.js:29-57 | registration changes no emitter's issued or completed ids |
| Histories.CompleteLater | lib/index.js:163-167 | completion only extends the histories |
| Histories.DeliverLater | lib/index.js:134-167 | delivery only extends the histories |
| Histories.FinishLater | lib/index.js:150-160 | a handler's completion only extends the histories |
| Histories.RecycleLater | lib/index.js:147-167 | counting a handler finished only extends the histories |
| Histories.TallyHanded | lib/index.js:136-146 | after one delivery, every subscription's `fired` still equals the number of deliveries made to it |
| StepFacts.NextInv | lib/index.js:29-247 | every public call and every dispatch step keeps the world invariant, whether it succeeds or throws |
| StepFacts.NextLater | lib/index.js:79-175 | every step only extends the issued ids, the completed ids and the delivery trace |
| StepFacts.NextTally | lib/index.js:136-146 | every step keeps the tally: `fired` counts exactly the deliveries made to the subscription |
| StepFacts.BusyStepTally | lib/index.js:79-207 | `on`, `once`, `emit` and the begin, delivery and finish steps keep the tally: a new subscription starts with no deliveries, and each delivery adds one to exactly its subscription |
| StepFacts.RunKeeps | lib/index.js:109-175 | any schedule keeps the invariant and the tally, and only extends the histories |
| StepFacts.CompletionOrder | lib/index.js:109-175 | each emitter completes notifications in exactly the order they were emitted on it: completed ids are a prefix of issued ids |
| StepFacts.FireCount | lib/index.js:136-140 | a subscription created with count k is handed at most k notifications; after k it is on no list and in no pending snapshot |
| StepFacts.FromScratch | lib/index.js:14-247 | from no emitters, every schedule ends with the invariant, the tally and FIFO completion on every emitter |
| Findings.NullListReachable | lib/index.js:226-240 | a legal schedule reaches a delivery (lines 136-140) whose `removeHandler` meets a `null` list: the source's version throws there, the repaired one completes the item |

The world invariant (`State.Inv`) has these parts:

- Every event list is `null` or non-empty, has no repeats, and lists only live
  subscriptions of that emitter and event.
- Every subscription satisfies `fired + count == limit`.
- The snapshot entries not yet handed the item are distinct, live
  subscriptions of the item's event.
- An idle emitter has an empty queue, no batch and no cycle.
- Queued and batched notifications name known events.
- `completed ++ batch ++ queue == issued` for each emitter.
- Every link target is an emitter.

## Left out

- Deep copying of the data (`Hoek.clone`) is not modelled. A delivery records whether the listener got a clone, and the payload stays an opaque number.
- Timers (`setTimeout`, `clearTimeout`) are not modelled as time. A numeric block's timer firing is a `Finish` step that a schedule may take. A `Finish` after the cycle has moved on changes nothing, which is what clearing the timer achieves.
- The `items` library (`Items.serial`, `Items.parallel`) is not part of this model. Its behaviour is stated through the steps: one item at a time per emitter; an item completes after all its handlers finish; a fan-out's join counts down once per target completion and runs the original callback at the last one.
- The model completes an item only once every snapshot entry has been handed it and has finished. The source's parallel counter could fire early if a `block: true` handler calls its `next` several times before later handlers are handed the item. That ordering is not modelled.
- The model lets any step come between `Publish`, `BeginItem` and `DeliverNext`, where the source runs them synchronously: on an idle emitter, `emit` swaps the queue out and `Items.serial` and `Items.parallel` hand the item to every handler before control returns to the caller. Every property is proved over all schedules, so it covers the source's.
- Listener bodies are not modelled. Whatever a listener does (emit, subscribe, unsubscribe, call `next`) is a separate step a schedule may interleave. A listener or callback that throws is not modelled.
- Argument juggling is not modelled: `options` passed as a function, `[].concat` and `Hoek.flatten` of `registerEvent`'s argument, `return this`. Operations take a flat sequence of entries and explicit options.
- `emit` without a callback uses `Ignore`, which stands for `Hoek.ignore`. A caller's callback is known by an id, and running it is recorded in `calls`.
- Counts and blocks are integers. A non-numeric `count` that JavaScript compares with `> 0` is not modelled.
- Event flags keep only `clone`. The source keeps the whole event object as flags, but only `clone` is ever read.
- A throw inside the dispatch cycle is reported as the step's error, with the world unchanged. An example is an `emit` on a link target that lacks the event, because names propagate one hop only. In the source such a throw escapes before `next()` is reached, so `_eventsProcessing` stays true and the emitter is wedged: later notifications are queued and never drained. The model does not capture that wedge.
- Hubs.Hub.EmitAll: on a throw, the contract pins only the error, not the partial state left by the emits that already ran.
- Hubs.Hub.Invoke: on a throw, the contract pins only the error, not the partial state.
- Hubs.Hub.Complete: on a throw, the contract pins only the error, not the partial state.
- Hubs.Hub.MaybeComplete: on a throw, the contract pins only the error, not the partial state.
- Hubs.Hub.Begin: on a throw, the contract pins only the error, not the partial state.
- Hubs.Hub.Deliver: on a throw, the contract pins only the error, not the partial state.
- Hubs.Hub.Finish: on a throw, the contract pins only the error, not the partial state.
- Hubs.Hub.Spread: on a throw, the contract pins only the error, not the partial state left by the emits that already ran.
- Hubs.Hub.Recount: on a throw, the contract pins only the error, not the partial state.
- Dispatch.Handed, Hubs.Hub.Hand and Hubs.Hub.Spend use the repaired `removeHandler`. On a `null` list (the state `Findings.NullListReachable` reaches) the model completes the item, while the source throws a `TypeError` at lib/index.js:238 and leaves the emitter stuck with `_eventsProcessing` true.
- Emitters are ids in one `Hub` object, not separate JavaScript objects. Aliasing between emitters appears only through the ids in `_podiums`.
- `test/index.js` is not part of this model.

Three behaviours of the code that the model follows as written:

- Only a numeric block's `next` is wrapped in `Hoek.once`. The `next` of `block: true` is not once-guarded, and counts a finish on every call (`FinishRepeats`).
- Any integer block is accepted. A block of 0 is falsy, so that handler does not block.
- `registerEvent` over several entries keeps the entries registered before the one that throws (`RegisterEventsStops`).

## Findings

| source | as written | input that shows it | evidently intended | confidence | as-written member | corrected member |
|---|---|---|---|---|---|---|
| lib/index.js:235-240 | `removeHandler` calls `filter` on the event's list without checking it, unlike `removeListener` (lines 215-218) | `on('x', f)`; `once`-style `on('x', {count: 1}, g)`; `emit('x')`; `f` calls `removeAllListeners('x')`; dispatch then reaches `g`, whose count drops to 0, and `removeHandler` calls `null.filter` and throws | a `null` list is treated as empty, as in `removeListener`, and the cycle goes on | not executed | Listeners.RemoveHandlerAsWritten, shown by Findings.NullListReachable | Listeners.RemoveHandler, proved by ListenersFacts.RemoveHandlerExact and ListenersFacts.RemoveHandlerRepair, and used by Dispatch.Handed and Hubs.Hub.RemoveHandler |
