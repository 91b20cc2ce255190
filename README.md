# gpframe core, modelled in Dafny

gpframe runs "frames": a routine plus lifecycle handlers, each frame on its own thread.
Frames exchange data through typed message channels. A session keeps track of the frames'
errors. This project models four parts of that system and proves their documented
behaviour:

1. **Typed message channel** (`message_model.dfy`, `message_channel.dfy`).
   - A channel is a store of keys. Each key is defined once, with a declared type and a value.
   - A key stays defined for ever. Its value can be removed ("consumed") and set again.
   - `MessageModel` gives each operation as a function from store to store and reply:
     `get`, `set`, `swap`, `apply`, `offer`, `ensure`, `consume`, `consume_and`, `define`,
     and the `BatchOperator` accessors.
   - `MessageChannel.Channel` is the shared object. Its methods update the store in place.
   - A `batch()` block is a loop over `BatchOperator` calls that stops at the first error.
2. **Session error bookkeeping** (`session.dfy`).
   - Each frame has a record: running, its error, and three one-way flags (checked, thrown by
     `reraise`, returned by `gather`).
   - The session has an "abandoned" flag.
   - `SessionCoordinator.FrameCoordinator` holds this state and implements each session call.
   - `SessionModel.Next` gives the same calls as events, so lemmas can reason about any series
     of calls.
3. **Frame lifecycle** (`lifecycle.dfy`).
   - `Circuit` gives the hooks in the order they run, for given handler answers and exceptions.
   - `RunCircuit` is the loop driven by `on_redo`, proved equal to `Circuit`.
4. **Executors and errors** (`executor.dfy`, `aggregate_error.dfy`, `lat_state.dfy`).
   - Root and sub-frame executors keep a run state that is published once and an end that is
     recorded once.
   - The root counts live sub-frames. In the model it also keeps the failed ones, which the
     code as written never records (see Findings).
   - `FrameAggregateError` builds its message from a loop over the failed frames.
   - `LATState` is the three-phase enum. Its guard/transition core is kept beside it in the
     source as a reference design.

`wrappers.dfy` holds `Option`, `Result` and `Outcome`, and `Errors.Exc`. An exception is
reduced to its class name and its text.

Type checks use a small model of Python classes. A `PyType` has a name and base classes.
`IsInstance` follows the bases. The declared type must match the requested type exactly,
which is the invariance check of `MessageTypeError` (`src/gpframe/contracts/__ja/api.py:711-718`).

## Model

| member | source | states |
|---|---|---|
| MessageModel.Get | src/gpframe/contracts/api.py:565-570 | succeeds iff the key is defined, holds a value and the requested type is the declared one; MessageKeyError for an undefined key, ConsumedError for a consumed slot, MessageTypeError(not identical) for a different type; on a well-typed store the result is an instance of the requested type |
| MessageModel.Set | src/gpframe/contracts/api.py:645-650 | succeeds iff the key is defined, the type is the declared one and the value an instance of it, even on a consumed slot; MessageKeyError for an undefined key, MessageTypeError(not identical) for a different type, MessageTypeError(not an instance) for a wrong value; a failure leaves the store unchanged; only that key changes and `get` then returns the value; typing is kept |
| MessageModel.Swap | src/gpframe/contracts/api.py:652-659 | succeeds iff the key holds a value, the type is the declared one and the value an instance; MessageKeyError for an undefined key, ConsumedError for a consumed slot, MessageTypeError(not identical) for a different type, MessageTypeError(not an instance) for a wrong value, each with the store unchanged; on success returns what `get` returned before and `get` afterwards returns the new value |
| MessageModel.Apply | src/gpframe/contracts/api.py:661-668 | succeeds iff the key holds a value, the type is the declared one and `fn(old)` is an instance; MessageKeyError for an undefined key, ConsumedError for a consumed slot, MessageTypeError(not identical) for a different type, MessageTypeError(not an instance) for a wrong `fn` result, each with the store unchanged; otherwise stores and returns `fn(old)` |
| MessageModel.Offer | src/gpframe/contracts/api.py:670-676 | writes and returns true exactly when the slot is consumed, returns false and changes nothing when a value is present; MessageKeyError on an undefined key; corrected to refuse, with MessageTypeError, a value that is not an instance of the declared type, whether or not the slot is consumed |
| MessageModel.Ensure | src/gpframe/contracts/api.py:678-684 | writes and returns true exactly when a value is present, returns false and changes nothing when consumed; MessageKeyError on an undefined key; corrected like Offer to refuse a non-instance value with MessageTypeError |
| MessageModel.Consume | src/gpframe/contracts/api.py:686-694 | succeeds iff the key holds a value and the type is the declared one; MessageKeyError for an undefined key, MessageTypeError(not identical) for a different type, ConsumedError for a consumed slot; returns the value `get` would return and leaves the slot consumed with its key and type |
| MessageModel.ConsumeAnd | src/gpframe/contracts/api.py:696-704 | succeeds iff the key holds a value, the type is the declared one and the new value an instance; MessageKeyError for an undefined key, MessageTypeError(not identical) for a different type, MessageTypeError(not an instance) for a wrong value, ConsumedError for a consumed slot, each with the store unchanged; on success returns the old value and `get` then returns the new one |
| MessageModel.Define | src/gpframe/contracts/api.py:722-728 | succeeds iff the key is new, the type is not NoneType and the value is an instance; RedefineError for a defined key, MessageTypeError for NoneType, MessageTypeError(not an instance) for a wrong value, each with the store unchanged; afterwards exactly that key is added and `get` returns the value |
| MessageModel.ExistsKey | src/gpframe/contracts/api.py:745-747 | true exactly when `define` of that key would fail with RedefineError |
| MessageModel.GetValue | src/gpframe/contracts/api.py:749-754 | succeeds iff the key holds a value; MessageKeyError for an undefined key, ConsumedError for a consumed slot; agrees with `get` when the declared type is given |
| MessageModel.IsConsumed | src/gpframe/contracts/api.py:756-758 | MessageKeyError exactly for an undefined key; true exactly when `get_value` fails with ConsumedError |
| MessageModel.SetValue | src/gpframe/contracts/api.py:760-765 | is `set` with the key's declared type; MessageKeyError on an undefined key |
| MessageModel.BatchStep | src/gpframe/contracts/api.py:739-775 | each accessor changes at most the key it names, never removes a key, changes nothing when it fails, and keeps the store well typed |
| MessageModel.RunBatch | src/gpframe/contracts/api.py:706-713 | at most one reply per call; every reply but the last succeeds; a batch cut short ends with a failure |
| MessageModel.BatchKeepsKeys | src/gpframe/contracts/api.py:706-713 | a batch never removes a key |
| MessageModel.BatchKeepsTyping | src/gpframe/contracts/api.py:706-713 | a batch keeps every value an instance of its key's declared type |
| MessageModel.OpKeepsKeys | src/gpframe/contracts/api.py:100-105 | every operation keeps every defined key, keeps its declared type, and keeps the store well typed |
| MessageModel.KeysArePermanent | src/gpframe/contracts/api.py:100-105 | over any series of operations, a defined key stays defined with the same declared type |
| MessageModel.TypingIsPermanent | src/gpframe/contracts/api.py:100-105 | over any series of operations, the store stays well typed |
| MessageModel.DefineTwiceFails | src/gpframe/contracts/api.py:102 | defining a key a second time fails with RedefineError and changes nothing |
| MessageModel.ConsumeRemovesOnlyTheValue | src/gpframe/contracts/api.py:686-694 | after consume the key is still defined with its declared type; `get`, a second consume and `swap` raise ConsumedError, and `consumed` answers true |
| MessageModel.ConsumeSetGet | src/gpframe/contracts/api.py:645-650 | after consume, `set` revives the slot and `get` returns the new value |
| MessageModel.SwapRoundTrip | src/gpframe/contracts/api.py:652-659 | swap returns exactly what `get` returned before, and `get` afterwards returns the new value |
| MessageModel.OfferEnsureDuality | src/gpframe/contracts/api.py:670-684 | for a defined key and an instance value, offer returns true exactly when ensure returns false; after offer the slot holds a value, after ensure it does exactly when it did before |
| MessageModel.ConsumeAndIsConsumeThenSet | src/gpframe/contracts/api.py:696-704 | a successful consume_and returns what consume returns and leaves the store that consume then set leave |
| MessageModel.OfferAsWritten | src/gpframe/contracts/api.py:670-676 | the documented offer, with no type check: MessageKeyError for an undefined key; writes and returns true exactly when the slot is consumed, and `get` then returns the value; returns false exactly when a value is present, and then changes nothing |
| MessageModel.EnsureAsWritten | src/gpframe/contracts/api.py:678-684 | the documented ensure, with no type check: MessageKeyError for an undefined key; writes and returns true exactly when a value is present, and `get` then returns the value; returns false exactly when the slot is consumed, and then changes nothing |
| MessageModel.OfferAsWrittenBreaksTypedGet | src/gpframe/contracts/api.py:670-676 | the documented offer puts a str into an int slot and `get(key, int)` then returns it; the corrected offer refuses it |
| MessageModel.EnsureAsWrittenBreaksTypedGet | src/gpframe/contracts/api.py:678-684 | the same for ensure |
| MessageChannel.Channel.constructor | src/gpframe/contracts/api.py:99-105 | a new channel has no keys and is well typed |
| MessageChannel.Channel.Get | src/gpframe/contracts/api.py:565-570 | returns `MessageModel.Get` of the current store, and its result is an instance of the requested type |
| MessageChannel.Channel.Set | src/gpframe/contracts/api.py:645-650 | the store becomes `MessageModel.Set` of the old store, and stays well typed |
| MessageChannel.Channel.Swap | src/gpframe/contracts/api.py:652-659 | the store becomes `MessageModel.Swap` of the old store; a success returns the old value and installs the new one |
| MessageChannel.Channel.Apply | src/gpframe/contracts/api.py:661-668 | the store becomes `MessageModel.Apply` of the old store |
| MessageChannel.Channel.Offer | src/gpframe/contracts/api.py:670-676 | the store becomes `MessageModel.Offer` of the old store |
| MessageChannel.Channel.Ensure | src/gpframe/contracts/api.py:678-684 | the store becomes `MessageModel.Ensure` of the old store |
| MessageChannel.Channel.Consume | src/gpframe/contracts/api.py:686-694 | the store becomes `MessageModel.Consume` of the old store, with the same keys |
| MessageChannel.Channel.ConsumeAnd | src/gpframe/contracts/api.py:696-704 | the store becomes `MessageModel.ConsumeAnd` of the old store |
| MessageChannel.Channel.Define | src/gpframe/contracts/api.py:722-728 | the store becomes `MessageModel.Define` of the old store |
| MessageChannel.Channel.Batch | src/gpframe/contracts/api.py:706-713 | the loop over one operator leaves the store and the replies that `RunBatch` gives, stopping at the first error |
| MessageChannel.BatchOperator.constructor | src/gpframe/contracts/api.py:706-713 | the operator works on the channel it was handed out by |
| MessageChannel.BatchOperator.ExistsKey | src/gpframe/contracts/api.py:745-747 | true exactly when the key is defined |
| MessageChannel.BatchOperator.GetValue | src/gpframe/contracts/api.py:749-754 | returns `MessageModel.GetValue` of the current store |
| MessageChannel.BatchOperator.Consumed | src/gpframe/contracts/api.py:756-758 | returns `MessageModel.IsConsumed` of the current store |
| MessageChannel.BatchOperator.SetValue | src/gpframe/contracts/api.py:760-765 | the store becomes `MessageModel.SetValue` of the old store |
| MessageChannel.BatchOperator.ConsumeValue | src/gpframe/contracts/api.py:767-775 | the store becomes `MessageModel.Consume` of the old store |
| MessageChannel.BatchOperator.Perform | src/gpframe/contracts/api.py:739-775 | dispatches one call to its accessor; store and reply are `BatchStep`'s |
| SessionModel.UncheckedErrors | src/gpframe/contracts/__ja/api.py:489-501 | holds exactly the frames whose error is unchecked, each with its error |
| SessionModel.Faulted | src/gpframe/contracts/__ja/api.py:478-480 | true iff the unchecked-error map `drain` would return is not empty |
| SessionModel.CheckAll | src/gpframe/contracts/__ja/api.py:482-494 | marks every error checked and changes nothing else; afterwards the session is not faulted |
| SessionModel.MarkReturned | src/gpframe/contracts/__ja/api.py:443-451 | marks the given frames returned and changes nothing else |
| SessionModel.Throw | src/gpframe/contracts/__ja/api.py:453-460 | `reraise` of a frame marks it thrown, so it is no longer eligible; unwrapping also checks its error, wrapping leaves it as it was; every other frame is unchanged |
| SessionModel.CheckCause | src/gpframe/contracts/__ja/api.py:689-698 | `check()` on a wrapper checks the error of its frame when that frame still holds the cause, and otherwise changes nothing; it never adds an unchecked error |
| SessionModel.GetFrameStatus | src/gpframe/contracts/__ja/api.py:420-427 | KeyError exactly for an unknown name; otherwise the running flag and the error |
| SessionModel.ClearEndedFrame | src/gpframe/contracts/__ja/api.py:429-441 | KeyError for an unknown name, FrameStillRunningError for a running frame, with nothing changed; otherwise removes the frame, warns iff its error is unchecked and not suppressed, logs iff unchecked and `log` |
| SessionModel.CloseScope | src/gpframe/contracts/__ja/api.py:503-511 | leaving the session warns iff unchecked errors remain and they were not abandoned; after abandoning it logs instead when asked to |
| SessionModel.Next | src/gpframe/contracts/__ja/api.py:414-511 | one session call or frame event: only starting a frame adds a record, only clearing removes one, only a frame's end sets its error, and only abandoning sets the abandoned flag |
| SessionModel.NextKeepsWellFormed | src/gpframe/contracts/__ja/api.py:414-511 | every session event keeps every frame record well formed |
| SessionModel.RunKeepsWellFormed | src/gpframe/contracts/__ja/api.py:414-511 | any series of events keeps every frame record well formed |
| SessionModel.NextKeepsFlags | src/gpframe/contracts/__ja/api.py:443-460 | any event other than clearing an ended frame keeps that frame ended, keeps its error and never resets its checked, thrown or returned flag |
| SessionModel.CheckedOnlyThrough | src/gpframe/contracts/__ja/api.py:171-180 | an unchecked error becomes checked only through `reraise(unwrap=True)` of its frame, `check()` on its wrapper, `drain()` or `raise_if_faulted()` |
| SessionModel.EndedErrorStartsUnchecked | src/gpframe/contracts/__ja/api.py:174 | the error a frame ends with starts unchecked and not yet thrown |
| SessionModel.FlagsArePermanent | src/gpframe/contracts/__ja/api.py:443-460 | until a frame is cleared, its error stays the same and its checked, thrown and returned flags are never reset |
| SessionModel.NextKeepsThrownAndReturned | src/gpframe/contracts/__ja/api.py:443-460 | unless the event starts `n`, one event keeps an absent `n` absent and keeps a thrown or returned frame thrown or returned (or removes it) |
| SessionModel.ReraiseNeverRepeats | src/gpframe/contracts/__ja/api.py:453-460 | once thrown, or once cleared, a frame's error is never eligible for `reraise` again, even while unchecked, as long as the name is not started again |
| SessionModel.GatherNeverRepeats | src/gpframe/contracts/__ja/api.py:443-451 | a name `gather` has returned once, or one `clear_ended_frame` has erased, is never returned by `gather` again, as long as the name is not started again |
| SessionModel.AbandonIsPermanent | src/gpframe/contracts/__ja/api.py:503-511 | after `abandon_unchecked_errors` the session stays abandoned whatever happens |
| SessionModel.DrainEmptiesUnchecked | src/gpframe/contracts/__ja/api.py:489-494 | after `drain` no unchecked error is left, and no frame or error has been removed or changed |
| SessionCoordinator.FrameCoordinator.constructor | src/gpframe/contracts/__ja/api.py:414 | a new session knows no frames and is not abandoned |
| SessionCoordinator.FrameCoordinator.FrameStarted | src/gpframe/contracts/__ja/api.py:414-418 | a newly started frame is recorded as running |
| SessionCoordinator.FrameCoordinator.FrameEnded | src/gpframe/contracts/__ja/api.py:171-174 | a running frame ends with its error, unchecked |
| SessionCoordinator.FrameCoordinator.Running | src/gpframe/contracts/__ja/api.py:416-418 | true iff some frame of the session is running |
| SessionCoordinator.FrameCoordinator.GetFrameStatus | src/gpframe/contracts/__ja/api.py:420-427 | returns `SessionModel.GetFrameStatus` and changes nothing, so the error stays unchecked |
| SessionCoordinator.FrameCoordinator.ClearEndedFrame | src/gpframe/contracts/__ja/api.py:429-441 | the state becomes the Clear event's, and the reply is `SessionModel.ClearEndedFrame`'s, which does not depend on the abandoned flag |
| SessionCoordinator.FrameCoordinator.Gather | src/gpframe/contracts/__ja/api.py:443-451 | returns each gatherable frame exactly once (an empty list when there is none) and marks them returned |
| SessionCoordinator.FrameCoordinator.Reraise | src/gpframe/contracts/__ja/api.py:453-460 | raises nothing iff no unchecked, never-thrown error exists; otherwise raises one such error, wrapped with its frame name and cause, or unwrapped and then checked |
| SessionCoordinator.FrameCoordinator.Check | src/gpframe/contracts/__ja/api.py:689-698 | `check()` on a wrapper marks its cause checked |
| SessionCoordinator.FrameCoordinator.Faulted | src/gpframe/contracts/__ja/api.py:478-480 | true iff some error is unchecked |
| SessionCoordinator.FrameCoordinator.RaiseIfFaulted | src/gpframe/contracts/__ja/api.py:482-487 | raises exactly when faulted, with all unchecked errors, and every error is checked afterwards |
| SessionCoordinator.FrameCoordinator.WaitDoneAndRaise | src/gpframe/contracts/__ja/api.py:469-476 | after the wait, raises exactly when faulted, with all unchecked errors |
| SessionCoordinator.FrameCoordinator.Drain | src/gpframe/contracts/__ja/api.py:489-494 | returns exactly the unchecked errors (empty when there are none) and checks them all |
| SessionCoordinator.FrameCoordinator.PeekDrain | src/gpframe/contracts/__ja/api.py:496-501 | returns exactly the unchecked errors and changes nothing |
| SessionCoordinator.FrameCoordinator.AbandonUncheckedErrors | src/gpframe/contracts/__ja/api.py:503-511 | sets the abandoned flag |
| SessionCoordinator.FrameCoordinator.Close | src/gpframe/contracts/__ja/api.py:172 | leaving the `with` block warns iff unchecked errors remain and were not abandoned |
| Lifecycle.HooksUpTo | src/gpframe/contracts/__ja/api.py:224-231 | the hooks of a cycle that run before an exception form a non-empty prefix of on_start, routine, on_end, on_redo |
| Lifecycle.LastCycle | src/gpframe/contracts/__ja/api.py:231-233 | the last cycle is the first that raises or whose `on_redo` answers false |
| Lifecycle.Cycles | src/gpframe/contracts/__ja/api.py:224-235 | the hooks of the cycles start with on_start; when no hook raised, they are whole cycles ending with on_redo |
| Lifecycle.Circuit | src/gpframe/contracts/__ja/api.py:222-246 | the trace starts with on_open and ends with on_close; the frame ends with an error only when on_exception did not suppress it, and then it is the raised error; with no error the last cycle's on_redo runs just before on_close |
| Lifecycle.RunCircuit | src/gpframe/contracts/__ja/api.py:222-246 | the loop driven by `on_redo` produces exactly the trace and error of `Circuit` |
| Lifecycle.CyclesHooks | src/gpframe/contracts/__ja/api.py:222-235 | the cycles run only cycle hooks, start with on_start, and run on_start once per cycle |
| Lifecycle.OpenFirstCloseLast | src/gpframe/contracts/__ja/api.py:222-246 | on_open runs exactly once and first, on_close exactly once and last, whether or not a hook raised |
| Lifecycle.CycleCount | src/gpframe/contracts/__ja/api.py:224-233 | one cycle runs for every `on_redo` that answered true, plus the cycle that stopped |
| Lifecycle.ExceptionHandling | src/gpframe/contracts/__ja/api.py:238-246 | on_exception runs iff a hook raised; the frame ends with that error iff on_exception answered false |
| Lifecycle.CyclesErrorIsLastCycle | src/gpframe/contracts/__ja/api.py:238-243 | the error that ends the cycles is the one the last cycle raised, and there is one iff that cycle raised |
| LATPhase.Value | src/gpframe/impl/frame/lat_behavior.py:19-22 | the three phases have values 0, 1 and 2 |
| LATPhase.FromValue | src/gpframe/impl/frame/lat_behavior.py:26-28 | a member exists exactly for the values 0 to 2 and has that value |
| LATPhase.GetNext | src/gpframe/impl/frame/lat_behavior.py:24-28 | the member with value plus one; None exactly for TERMINATED |
| LATPhase.Transitionable | src/gpframe/impl/frame/lat_behavior.py:30-31 | true iff the target's value is one more: no self-transition, no skip, no move back |
| LATPhase.ValueIsInjective | src/gpframe/frame/lat_behavior.py:19-22 | different phases have different values |
| LATPhase.ChainShape | src/gpframe/impl/frame/lat_behavior.py:19-31 | a chain of transitionable steps goes up one value per step, so it has at most two steps, and ends at TERMINATED if it reaches it |
| LATPhase.TerminatedIsFinal | src/gpframe/frame/lat_behavior.py:24-31 | TERMINATED has no next phase and no transitionable target |
| LATPhase.Maintain | src/gpframe/impl/frame/lat_behavior.py:77-82 | runs `fn` iff the current phase is the kept one, and raises a state error otherwise |
| LATPhase.IfOn | src/gpframe/impl/frame/lat_behavior.py:84-87 | runs `fn` iff the current phase matches, and otherwise does nothing |
| LATPhase.TransitState | src/gpframe/impl/frame/lat_behavior.py:89-93 | moves to the target iff it is transitionable, and raises an invalid-transition error otherwise |
| LATPhase.TransitStateWith | src/gpframe/impl/frame/lat_behavior.py:95-98 | the transition happens first, then `fn` runs in the new phase; a refused transition raises InvalidTransition and `fn` does not run |
| LATPhase.Perform | src/gpframe/impl/frame/lat_behavior.py:123-143 | `to_started` succeeds iff in LOAD, `to_terminated` iff in STARTED; a move is always to the immediate successor; `if_terminated` and `on_any` always succeed without moving, and `if_terminated` runs its callback iff in TERMINATED |
| LATPhase.PerformMovesOnlyForward | src/gpframe/impl/frame/lat_behavior.py:123-143 | only a `to_*` call moves the phase, and only to the immediate successor; an `on_*` call succeeds iff the phase matches |
| LATPhase.PhaseIsMonotone | src/gpframe/impl/frame/lat_behavior.py:123-143 | over any series of calls the phase rises by one per move, moves at most twice, and never leaves TERMINATED |
| AggregateError.NewFrameAggregateError | src/gpframe/contracts/exceptions.py:64-90 | the loop keeps the three arguments unchanged and builds the message as the header plus the parts joined by ", " |
| AggregateError.Build | src/gpframe/contracts/exceptions.py:64-90 | the error keeps its three arguments; its message starts with the header, and is the header alone iff no frame failed |
| AggregateError.PartsShape | src/gpframe/contracts/exceptions.py:76-82 | there is one part per failed frame; the root part comes first when there is a root error; then one part per sub-frame error, in map order |
| AggregateError.JoinLength | src/gpframe/contracts/exceptions.py:84-88 | the joined text is all parts plus one separator between each two neighbours |
| AggregateError.JoinEnds | src/gpframe/contracts/exceptions.py:84-88 | the joined text starts with the first part and ends with the last |
| AggregateError.MessageNamesFirstFailure | src/gpframe/contracts/exceptions.py:76-88 | the message starts with the header and then the first failed frame: the root itself when it failed |
| FrameExecutor.StartStep | src/tmp/frame/future.py:93-98 | RuntimeError, with nothing changed, iff the run state was already published; otherwise it is published |
| FrameExecutor.EndStep | src/tmp/frame/future.py:100-106 | RuntimeError, with nothing changed, iff the end was already recorded; otherwise the circuit error is recorded |
| FrameExecutor.StartAndEndHappenOnce | src/tmp/frame/future.py:93-106 | after one successful start or end, a second one fails and the first run state or error stays |
| FrameExecutor.DictSet | src/tmp/frame/future.py:113 | a dict assignment keeps keys distinct, holds the new entry, keeps every other entry, and grows only for a new key |
| FrameExecutor.DictSetKeepsPlace | src/tmp/frame/future.py:113 | assigning to an existing key replaces that entry at its place and leaves every other entry where it was |
| FrameExecutor.DictSetAppends | src/tmp/frame/future.py:113 | assigning to a new key appends the entry after all existing ones, as dict insertion order does |
| FrameExecutor.RootWaitDone | src/tmp/frame/future.py:119-124 | TimeoutError iff not ended; after the end, raises the aggregate of the root error and the failed frames iff either exists |
| FrameExecutor.SubWaitDone | src/tmp/frame/future.py:199-204 | TimeoutError iff not ended; after the end, SubFrameError with its own error iff there is one |
| FrameExecutor.RaiseIfStep | src/tmp/frame/future.py:130-135 | removes exactly the first failed frame and raises it; does nothing when there is none |
| FrameExecutor.RaiseIfDrainsInOrder | src/tmp/frame/future.py:130-135 | repeated `raise_if` raises every failed frame exactly once, in map order |
| FrameExecutor.EndSubFrameAsWritten | src/tmp/frame/future.py:152-156 | the count goes down by one, RuntimeError iff it goes negative, and the failed frames never change |
| FrameExecutor.EndSubFrame | src/tmp/frame/future.py:152-156 | the same count rule, and the error of a failed sub-frame is added to the failed frames |
| FrameExecutor.SubFrameErrorIsLost | src/tmp/frame/future.py:152-156 | as written, after a sub-frame fails, a cleanly ended root's `wait_done` returns normally |
| FrameExecutor.SubFrameErrorIsReported | src/tmp/frame/future.py:119-124 | with the failure recorded, the root's `wait_done` raises an aggregate whose sub-frame errors and parts name the sub-frame |
| FrameExecutor.RootFrameExecutor.constructor | src/tmp/frame/future.py:36-44 | a new root has nothing published, nothing ended, no live sub-frame and no failed frame |
| FrameExecutor.RootFrameExecutor.Start | src/tmp/frame/future.py:138-140 | the root's state follows StartStep; nothing else changes |
| FrameExecutor.RootFrameExecutor.End | src/tmp/frame/future.py:142-144 | the root's state follows EndStep; nothing else changes |
| FrameExecutor.RootFrameExecutor.WaitDone | src/tmp/frame/future.py:119-124 | the outcome is RootWaitDone's, with the aggregate built by the error's constructor |
| FrameExecutor.RootFrameExecutor.Processing | src/tmp/frame/future.py:126-128 | true iff the circuit has ended and the started-sub-frame count is zero; while the count tracks the live sub-frames, true iff the circuit has ended and no sub-frame is live |
| FrameExecutor.RootFrameExecutor.RaiseIf | src/tmp/frame/future.py:130-135 | failed frames and outcome follow RaiseIfStep |
| FrameExecutor.RootFrameExecutor.OnStartSubFrame | src/tmp/frame/future.py:146-150 | RuntimeError iff the root has ended; otherwise the count goes up by one and the sub-frame is live |
| FrameExecutor.RootFrameExecutor.OnEndSubFrame | src/tmp/frame/future.py:152-156 | corrected, see Findings: follows EndSubFrame, which records the sub-frame's error; for a live sub-frame the count still matches the live sub-frames and nothing is raised |
| FrameExecutor.SubFrameExecutor.constructor | src/tmp/frame/future.py:182-187 | a new sub-frame executor is bound to its root and has nothing published |
| FrameExecutor.SubFrameExecutor.Start | src/tmp/frame/future.py:189-192 | updates its own state first, then reports once to the root (not at all when its own start failed); the root's count matches its live sub-frames afterwards |
| FrameExecutor.SubFrameExecutor.End | src/tmp/frame/future.py:194-197 | records its own end first, then reports to the root with its error; the root follows the corrected EndSubFrame (see Findings); a live sub-frame's end is accepted and never drives the count negative |
| FrameExecutor.SubFrameExecutor.WaitDone | src/tmp/frame/future.py:199-204 | the outcome is SubWaitDone's |
| FrameExecutor.SubFrameExecutor.Processing | src/tmp/frame/future.py:206-208 | true iff its circuit has ended |
| FrameExecutor.RootWithOneSubFrame | src/tmp/frame/future.py:59-69 | corrected, see Findings: a root and one failing sub-frame, started and ended in the order the workers use, on the corrected root: its `wait_done` raises an aggregate whose sub-frame errors are exactly that sub-frame with its error (as written, `wait_done` returns normally, see SubFrameErrorIsLost) |

## Left out

- Threads, locks, event loops and `threading.Event` waits are not modelled. Every method runs as one atomic step. A wait with a timeout is reduced to "has the circuit ended".
- `run_circuit_in_thread` and `cancel` (`src/tmp/frame/future.py:46-82`) are thread plumbing. Only their call order (`_start` before `_end`) is used, in `RootWithOneSubFrame`.
- The session's `wait_done` only waits, so it has no bookkeeping to model.
- The lock and deadlock warning of `batch()` are not modelled. A batch is a series of operator calls applied in one step.
- IPC and pickling failures (`IPCValueError`, `IPCConnectionError`) and the string-parsing readers (`string`, `string_to_int`, `string_to_float`) are not modelled. They depend on transport code and Python's number parsing.
- The timeout exception classes and the message text of `FrameError` (`src/tmp/frame/future.py:14-21`) are not modelled. An exception is its class name and text.
- Python's `object` base class is not modelled. `NoneType` is a class with no bases, so `None` is never an instance of a declared type. This is how the rule that values cannot be None (`src/gpframe/contracts/api.py:101`) shows up.
- Exceptions are compared by value, not by identity. `check()` marks a cause checked when its frame still holds an equal error.
- MessageModel.Apply: an `fn` that raises is not modelled; `fn` is a total function.
- Lifecycle.Circuit: `on_exception` and `on_close` raising, cancellation, and hooks that are coroutines are not modelled.
- LATPhase.TransitStateWith: `fn` is total. A raising `fn` would leave the phase moved, because the transition happens before `fn` runs. The same holds for `Maintain` and `IfOn`, whose `fn` cannot raise in the model.
- FrameExecutor.RootFrameExecutor.WaitDone: the aggregate gets a copy of the failed frames. In the code, `FrameAggregateError` keeps a reference to the root's live `failed_frames` dict (`src/tmp/frame/future.py:124`, `src/gpframe/contracts/exceptions.py:73`). A later `raise_if` pop (`src/tmp/frame/future.py:133-134`) therefore also shrinks the `sub_frame_errors` of an error that was already raised. The model does not capture this aliasing.
- Lifecycle.RunCircuit requires that `on_open` raises or that some cycle stops. A frame whose `on_redo` always answers true never ends, and is not modelled.
- SessionCoordinator.FrameCoordinator.FrameStarted requires a new frame name. Re-using the name of a frame that is still recorded is not modelled.
- SessionModel.Next: a name erased by `clear_ended_frame` may be started again. In the code, `start_subframes` starts all of a session's frames once, when the session opens (`src/gpframe/contracts/__ja/api.py:650-659`). SessionModel.GatherNeverRepeats and SessionModel.ReraiseNeverRepeats therefore hold for event series that do not start the name again.
- SessionCoordinator.FrameCoordinator.WaitDoneAndRaise leaves the errors it raises unchecked, because its docstring does not say that they become checked.
- SessionCoordinator.FrameCoordinator.Running is read as "some frame of the session is running".
- `on_any` of the phase core only takes the lock. It has no state check, so it is only the `OnAny` call of `LATPhase.Perform`.
- The phase core is the commented-out reference design (`src/gpframe/impl/frame/lat_behavior.py:66-152`). The model follows its interface (`to_started`, `on_started`, `if_terminated`). The live `LATBehavior` protocol names the middle phase "active" and lists `if_load`/`if_active`, which the reference interface does not implement.
- The `FrameResult` marking scheme, superseded drafts of the contracts, logging, handler-capability casts and `create_frame` name defaulting are not part of this model.

### Reading of the documentation

- `get` on a consumed slot fails with ConsumedError. Its docstring says that a missing value gives MessageKeyError (`src/gpframe/contracts/api.py:567`). The exception classes say otherwise: MessageKeyError is for a key that does not exist, and ConsumedError for a value that does not exist (`src/gpframe/contracts/__ja/api.py:707-722`). Every other reader (`swap`, `consume`, `get_value`) raises ConsumedError on a consumed slot. The model follows the exception classes. Type is checked after presence, in docstring order.
- `BatchOperator.consumed` on an undefined key fails with MessageKeyError. The class works on existing keys only (`src/gpframe/contracts/api.py:742`).
- `BatchOperator.get_value` has no type check, as its docstring lists none.
- The phase after LOAD is called STARTED, as in the enum (`src/gpframe/impl/frame/lat_behavior.py:21`).
- The root's `processing()` is true once the root has ended and no sub-frame is live. This reads like "done", not "processing". It is modelled as written.

## Findings

| source | as written | input that shows it | evidently intended | confidence | as-written member | corrected member |
|---|---|---|---|---|---|---|
| src/gpframe/contracts/api.py:670-676 | `offer` writes any value into a consumed slot, with no type check | a consumed `int` slot, offered a `str`: `get(key, int)` then returns the `str` | refuse a value that is not an instance of the declared type, with MessageTypeError, as every other writer does | medium, not executed | MessageModel.OfferAsWrittenBreaksTypedGet | MessageModel.Offer |
| src/gpframe/contracts/api.py:678-684 | `ensure` overwrites a present value with any value, with no type check | an `int` slot holding a value, ensured with a `str`: `get(key, int)` then returns the `str` | refuse a value that is not an instance of the declared type, with MessageTypeError | medium, not executed | MessageModel.EnsureAsWrittenBreaksTypedGet | MessageModel.Ensure |
| src/tmp/frame/future.py:152-156 | `_on_end_sub_frame` ignores its `exc` argument, so `failed_frames` is never written | a sub-frame ends with an error and the root ends cleanly: the root's `wait_done` returns normally and `raise_if` raises nothing | record the failed sub-frame in `failed_frames`, which `wait_done` and `raise_if` read | high, not executed | FrameExecutor.SubFrameErrorIsLost | FrameExecutor.SubFrameErrorIsReported |
