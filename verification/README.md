# Reactive operators: group_by_until, skip_with_time, to_iterable

This project models three operators of a reactive-extensions library in Dafny and
proves their contracts.

- **`group_by_until`** (`group_by_until.dfy`, module `GroupByUntil`) splits an upstream
  sequence into groups keyed by a caller-supplied key mapper. Each live key owns one
  writer Subject, kept in an insertion-ordered dictionary.
  - A new key creates a writer and announces its group downstream. The group stays
    live until the first value or the completion of its duration observable.
  - Expiry deletes the key and completes that group's writer. A later element with
    the same key creates a fresh writer.
  - Any failure (a mapper that raises, an upstream error, an error from a duration
    observable) goes to every live writer in insertion order, then to the observer.
    Upstream completion fans out the same way.
  - One subscription is the class `Subscription`. Its methods (`OnNext`, `OnError`,
    `OnCompleted`, `Expire`, `DurationError`) update the dictionary in place and
    append to a trace of every call made on a writer or on the observer.
  - Each method is proved to produce the state given by a pure function (`AfterNext`,
    `AfterExpire`, ...) and to keep the invariant `Inv`. The lemmas prove what those
    functions promise.
  - `NoneLeftOpen` says that every writer that has left the dictionary has received an
    error or a completion. Every step keeps it, so once upstream completes or fails,
    no group is left open.
  - Writers are numbered in creation order, so a reborn group is a different writer.
    Mappers are function values that return `Ok(value)`, or `Err(e)` when they raise.
- **`skip_with_time`** (`skip_with_time.dfy`, module `SkipWithTime`) drops upstream
  values until a scheduled action opens a gate. Errors and completion always pass.
  - The scheduled action is the input `Opened`. `Subscription` holds the gate cell
    and what was forwarded.
  - `Output` gives what is forwarded for any interleaving of inputs.
- **`to_iterable`** (`to_iterable.dfy`, module `ToIterable`) turns a push source into
  a generator. Materialized notifications are appended to a FIFO list (`Bridge.Push`).
  The generator pops them one at a time (`Bridge.Pull`):
  - a value is yielded;
  - an error is raised unchanged;
  - a completion ends iteration.

  `Bridge.Drain` runs the generator loop until it would wait. It is proved equal to
  the pure `Iterate` on the queue.

`events.dfy` (module `Events`) holds the shared observer events, the mapper result
type and the sequence helpers.

Two behaviours of the code that a reader might not expect, which the model keeps:

- **After a failure or completion.** The `group_by_until` code does not stop or
  unsubscribe after it sends an error downstream from `on_next`. It keeps accepting
  calls, and the model lets further calls happen and defines their effect.
- **An absent key at expiry.** At groupbyuntil.py:90, expiry reads the dictionary
  with `writers[key]`. That raises for an absent key rather than doing nothing.
  - The model's `Expire` requires the key to be present with its duration
    subscription still held.
  - This is always the case for the single expiry that `take(1)` allows: a key's
    writer can only be removed by its own group's expiry.
  - The truthiness test on the writer is modelled as a presence check, because a
    Subject is always truthy.

## Model

| member | source | states |
|---|---|---|
| GroupByUntil.IdentityElementMapper | rx/operators/observable/groupbyuntil.py:46 | `ElementMapperOrIdentity` defines `element_mapper or identity`; without an element mapper, the element reaches its key's writer unchanged: an existing writer gets exactly `x`, and for a new key the group is announced and then the born writer gets exactly `x` |
| GroupByUntil.Broadcast | rx/operators/observable/groupbyuntil.py:60-61 | the fan-out is one call per key, in insertion order, each on that key's writer |
| GroupByUntil.BroadcastLog | rx/operators/observable/groupbyuntil.py:121-122 | when distinct keys have distinct writers, every writer of the map gets the event exactly once, no other writer gets anything, and the observer gets nothing |
| GroupByUntil.Without | rx/operators/observable/groupbyuntil.py:91 | deleting a key from the ordered dict keeps exactly the other keys |
| GroupByUntil.WithoutAt | rx/operators/observable/groupbyuntil.py:91 | deleting a key keeps the other keys in their insertion order |
| GroupByUntil.AfterNext | rx/operators/observable/groupbyuntil.py:53-118 | every key of the order has a writer after `on_next`, and the insertion order is only ever extended at the end |
| GroupByUntil.Terminate | rx/operators/observable/groupbyuntil.py:120-130 | the fan-out of an event to each key's writer in insertion order followed by the observer call, leaving the dict as it is; its properties are `TerminateLogs` and `TerminatePreservesInv` |
| GroupByUntil.Abort | rx/operators/observable/groupbyuntil.py:60-63 | the error fan-out shared by every failure path; its properties are `AbortLogs` |
| GroupByUntil.Route | rx/operators/observable/groupbyuntil.py:109-118 | the element mapper's outcome: the mapped element to the writer, or the error fan-out; its properties are `RoutePreservesInv`, `ExistingKeyReusesWriter` and `ElementMapperFailure` |
| GroupByUntil.Insert | rx/operators/observable/groupbyuntil.py:66-71 | a new writer numbered after all earlier ones, inserted last for the key; its properties are `InsertKeyed` and `InsertPreservesInv` |
| GroupByUntil.Announce | rx/operators/observable/groupbyuntil.py:85-87 | the group goes downstream and its duration subscription is held; its properties are `AnnouncePreservesInv` and `AnnouncedLogs` |
| GroupByUntil.AfterError | rx/operators/observable/groupbyuntil.py:120-124 | the upstream error as the error fan-out; its properties are `ErrorFansOut` |
| GroupByUntil.AfterCompleted | rx/operators/observable/groupbyuntil.py:126-130 | upstream completion as the completion fan-out; its properties are `CompletedFansOut` |
| GroupByUntil.Remove | rx/operators/observable/groupbyuntil.py:89-94 | the key leaves the dict and the order and its duration subscription is released; its properties are `RemoveKeyed` and `RemovePreservesInv` |
| GroupByUntil.AfterExpire | rx/operators/observable/groupbyuntil.py:89-94 | `Remove` followed by the writer's completion; its properties are `ExpireRemovesOnlyItsKey`, `ExpireCompletesOnlyItsWriter` and `ExpirePreservesInv` |
| GroupByUntil.AfterDurationError | rx/operators/observable/groupbyuntil.py:99-102 | the duration observable's error as the error fan-out, the dict kept; its properties are `AbortLogs` |
| GroupByUntil.InitialInv | rx/operators/observable/groupbyuntil.py:49-51 | a fresh subscription (empty dict, no duration subscriptions, nothing sent) satisfies the invariant |
| GroupByUntil.LiveWriters | rx/operators/observable/groupbyuntil.py:67-70 | under the invariant, distinct keys have distinct writers, and "some key maps to w" is exactly "w is a live writer" |
| GroupByUntil.NextPreservesInv | rx/operators/observable/groupbyuntil.py:53-118 | every outcome of `on_next` keeps the invariant: the dict and its order agree, one writer per key created for it, held duration subscriptions belong to live writers, writers not yet created got nothing, each group announced at most once |
| GroupByUntil.InsertPreservesInv | rx/operators/observable/groupbyuntil.py:66-71 | inserting a new writer for an absent key keeps the invariant |
| GroupByUntil.InsertKeyed | rx/operators/observable/groupbyuntil.py:66-71 | inserting a new writer for an absent key keeps the dict and the insertion order in agreement, one writer per key |
| GroupByUntil.AnnouncePreservesInv | rx/operators/observable/groupbyuntil.py:85-87 | announcing the new group and holding its duration subscription keeps the invariant, the group being announced once and after all earlier groups |
| GroupByUntil.RoutePreservesInv | rx/operators/observable/groupbyuntil.py:109-118 | mapping the element and delivering it, or fanning out the mapper's error, keeps the invariant |
| GroupByUntil.DeliverPreservesInv | rx/operators/observable/groupbyuntil.py:118 | a call on an existing writer keeps the invariant |
| GroupByUntil.TerminatePreservesInv | rx/operators/observable/groupbyuntil.py:120-130 | a fan-out of an error or completion followed by the observer call keeps the invariant |
| GroupByUntil.RemovePreservesInv | rx/operators/observable/groupbyuntil.py:89-94 | deleting a key and releasing its duration subscription keeps the invariant |
| GroupByUntil.RemoveKeyed | rx/operators/observable/groupbyuntil.py:91 | deleting a key keeps the dict and the insertion order holding the same keys, each once, with their writers unchanged |
| GroupByUntil.AnnouncedOnceSnoc | rx/operators/observable/groupbyuntil.py:85 | a group for the newest writer can be announced after all earlier ones, keeping each writer announced once and in creation order |
| GroupByUntil.ExpirePreservesInv | rx/operators/observable/groupbyuntil.py:89-94 | expiry keeps the invariant |
| GroupByUntil.AppendPreservesInv | rx/operators/observable/groupbyuntil.py:118 | calls that reach only existing writers and announce no group keep the invariant |
| GroupByUntil.TerminateLogs | rx/operators/observable/groupbyuntil.py:126-130 | after a fan-out each writer's history grows by the event iff it is live, and the observer's by the observer event |
| GroupByUntil.AbortLogs | rx/operators/observable/groupbyuntil.py:120-124 | a failure leaves the dict, order, created writers and duration subscriptions unchanged; the calls made are the error to each key's writer in insertion order, then to the observer; so each live writer gets it once and other writers nothing |
| GroupByUntil.CompletedFansOut | rx/operators/observable/groupbyuntil.py:126-130 | upstream completion completes every live writer exactly once in insertion order, then the observer; the dict is not cleared |
| GroupByUntil.ErrorFansOut | rx/operators/observable/groupbyuntil.py:120-124 | an upstream error reaches every live writer exactly once in insertion order, then the observer |
| GroupByUntil.KeyMapperFailure | rx/operators/observable/groupbyuntil.py:57-64 | a raising key mapper creates no writer and delivers the element nowhere; the calls made are its error to each key's writer in insertion order, then to the observer |
| GroupByUntil.DurationMapperFailure | rx/operators/observable/groupbyuntil.py:76-83 | a raising duration mapper leaves the just-inserted writer last in the dict; the calls made are the error to each writer in insertion order, the new one last, then to the observer; no group is announced and no duration subscription is held |
| GroupByUntil.ElementMapperFailure | rx/operators/observable/groupbyuntil.py:109-116 | a raising element mapper sends its error to each writer in insertion order, then to the observer; for an existing key the dict, order and duration subscriptions are unchanged; for a new key the writer is inserted last, its group is announced and its duration held before the fan-out, which includes it; the element reaches no writer |
| GroupByUntil.AnnouncedLogs | rx/operators/observable/groupbyuntil.py:85 | announcing a group adds it to the observer's history and nothing to any writer's |
| GroupByUntil.ExistingKeyReusesWriter | rx/operators/observable/groupbyuntil.py:109-118 | an element whose key is live adds exactly one call, the mapped element to that key's writer; the dict is unchanged and nothing goes downstream |
| GroupByUntil.NewKeyCreatesGroup | rx/operators/observable/groupbyuntil.py:66-118 | an element with a new key gets a writer never used before, inserted last; its group goes downstream before the element reaches the writer, and its duration subscription is held |
| GroupByUntil.ExpireRemovesOnlyItsKey | rx/operators/observable/groupbyuntil.py:89-94 | expiry removes exactly its key, leaves the other keys with their writers in their relative order, and releases exactly that group's duration subscription |
| GroupByUntil.ExpireCompletesOnlyItsWriter | rx/operators/observable/groupbyuntil.py:89-92 | expiry completes the expired writer once, no other writer gets anything, and nothing goes downstream |
| GroupByUntil.ExpiredGroupIsReborn | rx/operators/observable/groupbyuntil.py:66-92 | after expiry, the next element with that key creates a new writer distinct from every writer live before, and a new group is announced |
| GroupByUntil.GroupAnnouncedAtMostOnce | rx/operators/observable/groupbyuntil.py:85 | no writer is announced downstream twice |
| GroupByUntil.InitialNoneLeftOpen | rx/operators/observable/groupbyuntil.py:49 | with no writer created yet, no writer has left the dict unclosed |
| GroupByUntil.NextKeepsNoneLeftOpen | rx/operators/observable/groupbyuntil.py:53-118 | `on_next` removes no key and keeps every live writer, so every writer that has left the dict still has an error or completion in its log |
| GroupByUntil.ExpireKeepsNoneLeftOpen | rx/operators/observable/groupbyuntil.py:89-92 | expiry is the only way a key leaves the dict, and it completes that key's writer, so every writer that has left the dict has an error or completion in its log |
| GroupByUntil.TerminateKeepsNoneLeftOpen | rx/operators/observable/groupbyuntil.py:99-102 | a fan-out (every failure path, a failed duration, upstream termination) keeps every writer that has left the dict closed |
| GroupByUntil.TerminateLeavesNoneOpen | rx/operators/observable/groupbyuntil.py:120-130 | after an error or completion fan-out, every writer ever created has an error or completion in its log: the live ones from the fan-out, the expired ones from their expiry |
| GroupByUntil.CompletedLeavesNoneOpen | rx/operators/observable/groupbyuntil.py:126-130 | once upstream completes, no group is left open: every writer ever created has been completed or failed |
| GroupByUntil.ErrorLeavesNoneOpen | rx/operators/observable/groupbyuntil.py:120-124 | once upstream fails, no group is left open: every writer ever created has been completed or failed |
| GroupByUntil.ThreeRecordsTrace | rx/operators/observable/groupbyuntil.py:53-118 | records (1,"a"), (2,"b"), (1,"c") produce exactly: group 1, "a" to writer 0, group 2, "b" to writer 1, "c" to writer 0 |
| GroupByUntil.ThreeRecordsTwoGroups | rx/operators/observable/groupbyuntil.py:53-118 | for those records, the observer gets exactly two groups keyed 1 and 2; group 1's writer gets "a" then "c", group 2's gets "b" |
| GroupByUntil.Subscription.constructor | rx/operators/observable/groupbyuntil.py:48-51 | a subscription starts with an empty dict, no writers and nothing sent |
| GroupByUntil.Subscription.FanOut | rx/operators/observable/groupbyuntil.py:60-61 | the loop over `writers.values()` sends the event to each key's writer in insertion order and changes nothing else |
| GroupByUntil.Subscription.Fail | rx/operators/observable/groupbyuntil.py:111-116 | fan-out of the error and then the observer's `on_error`, keeping the invariant |
| GroupByUntil.Subscription.OnNext | rx/operators/observable/groupbyuntil.py:53-118 | the upstream `on_next` produces the state of `AfterNext` and keeps the invariant |
| GroupByUntil.Subscription.NewWriter | rx/operators/observable/groupbyuntil.py:66-71 | a new writer, numbered after all earlier ones, is inserted last for the absent key |
| GroupByUntil.Subscription.Deliver | rx/operators/observable/groupbyuntil.py:109-118 | maps the element and hands it to the writer, or fans out the mapper's error |
| GroupByUntil.Subscription.OnError | rx/operators/observable/groupbyuntil.py:120-124 | the upstream error fans out, then reaches the observer |
| GroupByUntil.Subscription.OnCompleted | rx/operators/observable/groupbyuntil.py:126-130 | upstream completion completes each live writer in insertion order, then the observer |
| GroupByUntil.Subscription.Expire | rx/operators/observable/groupbyuntil.py:89-94 | expiry deletes the key, completes its writer and releases its duration subscription, keeping the invariant |
| GroupByUntil.Subscription.DurationError | rx/operators/observable/groupbyuntil.py:99-102 | an error from a duration observable fans out to all live writers, then the observer; the dict is left as it is |
| SkipWithTime.Emit | rx/operators/observable/skipwithtime.py:37-46 | what one input sends downstream: nothing for the timer action, a value only while open, an error or completion always |
| SkipWithTime.Run | rx/operators/observable/skipwithtime.py:37-46 | what a sequence of inputs sends downstream from a given gate state; its properties are `RunSnoc`, `RunOpen`, `RunClosed` and `TerminalsPassThrough` |
| SkipWithTime.Output | rx/operators/observable/skipwithtime.py:35 | `Run` from the closed gate a subscription starts with; its properties are `OutputSplit` and `ForwardedValues` |
| SkipWithTime.RunSnoc | rx/operators/observable/skipwithtime.py:42-44 | one more input adds exactly what it emits under the gate reached so far, which is open iff the timer action has run |
| SkipWithTime.RunOpen | rx/operators/observable/skipwithtime.py:42-44 | once open, every upstream event is forwarded unchanged and in order |
| SkipWithTime.RunClosed | rx/operators/observable/skipwithtime.py:42-46 | before the timer action, exactly the errors and completions are forwarded |
| SkipWithTime.SplitRun | rx/operators/observable/skipwithtime.py:37-38 | the output before and after the gate opens concatenate, the gate staying open |
| SkipWithTime.OutputSplit | rx/operators/observable/skipwithtime.py:33-47 | the output is the terminal events received before opening followed by everything received after it |
| SkipWithTime.ForwardedValues | rx/operators/observable/skipwithtime.py:42-44 | the values forwarded are exactly those received after the timer fired |
| SkipWithTime.NothingForwardedWhileClosed | rx/operators/observable/skipwithtime.py:35 | no value is forwarded before the timer fires |
| SkipWithTime.TerminalsPassThrough | rx/operators/observable/skipwithtime.py:46 | whatever the gate, the errors and completions forwarded are those received, in order |
| SkipWithTime.Subscription.constructor | rx/operators/observable/skipwithtime.py:35 | the gate starts closed and nothing has been forwarded |
| SkipWithTime.Subscription.Open | rx/operators/observable/skipwithtime.py:37-38 | the action opens the gate and forwards nothing |
| SkipWithTime.Subscription.OnNext | rx/operators/observable/skipwithtime.py:42-44 | a value is forwarded unchanged iff the gate is open |
| SkipWithTime.Subscription.OnError | rx/operators/observable/skipwithtime.py:46 | an error is always forwarded |
| SkipWithTime.Subscription.OnCompleted | rx/operators/observable/skipwithtime.py:46 | completion is always forwarded |
| ToIterable.Iterate | rx/operators/observable/blocking/toiterable.py:31-44 | iteration never consumes more notifications than are queued |
| ToIterable.Interpret | rx/operators/observable/blocking/toiterable.py:37-44 | a popped notification is a value to yield, an error to raise, or the end; used by `Bridge.Pull` |
| ToIterable.IterateConsumed | rx/operators/observable/blocking/toiterable.py:31-44 | the values yielded are exactly the values of the notifications popped, which hold at most one error or completion, the one iteration stopped at |
| ToIterable.IterateShape | rx/operators/observable/blocking/toiterable.py:31-44 | iteration consumes a run of values, then either the end of the queue or exactly the first terminal notification and nothing after it |
| ToIterable.IterateNexts | rx/operators/observable/blocking/toiterable.py:43-44 | values at the front of the queue are all yielded in order before iteration goes on with what follows them |
| ToIterable.IterateCompleted | rx/operators/observable/blocking/toiterable.py:40-41 | values then completion are read back as exactly those values in order, then the end of iteration |
| ToIterable.IterateRaises | rx/operators/observable/blocking/toiterable.py:37-38 | values then an error are read back as those values, then the same error is raised |
| ToIterable.IterateBlocks | rx/operators/observable/blocking/toiterable.py:33-34 | values alone are all yielded in order, then the consumer waits |
| ToIterable.Bridge.constructor | rx/operators/observable/blocking/toiterable.py:16 | the queue starts empty and the generator unfinished |
| ToIterable.Bridge.Push | rx/operators/observable/blocking/toiterable.py:18-24 | the producer appends the notification at the back of the queue and changes nothing else |
| ToIterable.Bridge.Pull | rx/operators/observable/blocking/toiterable.py:32-44 | one `next()` pops the oldest notification and yields, raises or returns accordingly; a finished generator only reports the end |
| ToIterable.Bridge.Drain | rx/operators/observable/blocking/toiterable.py:31-44 | the generator loop yields what `Iterate` gives for the queue and removes exactly the notifications it used |

## Left out

- Threads, the condition variable and its `acquire`/`wait`/`notify`/`release` calls (toiterable.py:15-34) are not modelled. The model is the sequential queue discipline.
  - The wait for a non-empty queue is the caller's obligation: `Bridge.Pull` requires a non-empty queue or a finished generator.
  - The generator's error and completion paths (toiterable.py:37-41) exit while still holding the lock, unlike the value path. The model has no lock, so this defect is not represented.
- `materialize()` and the subscription of the producer callback (toiterable.py:26) are not modelled. `Bridge.Push` stands for each callback.
- After it has returned or raised, a Python generator answers every `next()` with `StopIteration`. `Bridge.Pull` returns `Done` in that case.
- Schedulers, `schedule_relative`, `timedelta` durations and the remark that a zero duration may still drop values (skipwithtime.py:34-40) are not modelled. The timer firing is the input `Opened`, which may arrive at any point or never.
- Disposables are not modelled: `CompositeDisposable`, `RefCountDisposable`, `SingleAssignmentDisposable` and disposal of subscriptions. Only the held duration subscriptions are tracked (`durations`).
- `Subject`, `GroupedObservable` and `take(1)` are not part of this model.
  - A writer is a number, and both group views are the same `Group(key, writer)` value.
  - `take(1)` is reflected by `Expire` requiring the group's duration subscription to be held: after expiry it is released, so a group expires at most once. A duration error does not release it (groupbyuntil.py:99-102 does not call `group_disposable.remove`), so the model still admits an `Expire` or a second `DurationError` for that group afterwards, which `take(1)` rules out in the source.
  - The duration observer's `on_next` (groupbyuntil.py:96-97) is a no-op. Through `take(1)`, a first value ends in completion, which is `Expire`.
- A duration observable that signals synchronously while it is being subscribed (groupbyuntil.py:107) is not modelled. That would expire the group before its first element is mapped. In the model, `Expire` and `DurationError` happen between upstream calls.
- Re-entrant calls are not modelled: an observer or a writer subscriber calling back into the operator during a delivery.
- GroupByUntil.Subscription.OnCompleted, GroupByUntil.Subscription.OnError, GroupByUntil.Subscription.DurationError, GroupByUntil.Subscription.OnNext, GroupByUntil.Subscription.Fail: cover only duration observables that are independent of their own group.
  - `duration_mapper` receives a view of the group's own writer (groupbyuntil.py:75-77). A duration derived from it terminates as soon as the writer is terminated inside a fan-out loop.
  - Completion loop (groupbyuntil.py:127-128): the derived duration completes, and `expire()` deletes from `writers` while the loop is still iterating over it, which Python's `OrderedDict` rejects with a `RuntimeError`.
  - Error loops (groupbyuntil.py:60, 79, 100-101, 112, 121-122): the derived duration fails, and its `take(1)` observer re-enters the duration `on_error` at groupbyuntil.py:99-102. That runs a nested fan-out over `writers` (no mutation, so no `RuntimeError`) and calls `observer.on_error` before the outer loop finishes, and the outer path then calls it a second time (for example groupbyuntil.py:124).
  - In the model, `Expire` and `DurationError` only happen between upstream calls, so neither interleaving arises.
- Mappers are total: a mapper that does not terminate or that has side effects is not modelled.
- GroupByUntil.Subscription.Expire: requires the key to be present with its duration subscription held. The source raises `KeyError` for an absent key at groupbyuntil.py:90, a case that cannot arise through `take(1)`.
- GroupByUntil.Subscription.DurationError: requires the group to be live, like `Expire`. The source's `on_error` does not look at the key, and would fan out the same way for an expired group.
