# elastic-momentum, modelled in Dafny

A model of the animation engine of `elastic-momentum` with proofs about it. The engine keeps a FIFO queue of validated animation records, and the head record is the active one. Each display frame, the engine runs one tick. A tick does the following:

- It reads the clock and computes how far the head is through its duration.
- It passes that progress through the record's easing curve. The curve is reflected in time on the odd passes of an alternating record.
- It scales the result by `target` and offsets it by `start`.
- It tracks the slope between ticks as an angle.
- It calls the record's sink.
- Then it either asks for another frame, restarts a looping record, or resolves the record's promise and shifts the queue.

`pause`/`resume`, `stop`, `clearQueue`, `loop`, `animate` and `queue` act on that state. Curves are composed with the reflection and blending combinators of the helper module.

The project has three modules:

- `Curves` (`curves.dfy`) covers the curve combinators `flipX`, `flipY`, `flip`, `mergeCurves` and `mergeCurveToLine`, and their algebraic laws. Curves are total functions on exact reals. `linear`, `overshootIn` and `overshootOut` serve as sample curves.
- `AnimationRecords` (`records.dfy`) covers:
  - the option sets and the `Object.assign` overlay of the defaults;
  - `_validate`;
  - `isNatural`/`isWhole`;
  - the loop count, which is a finite number or `Infinity`, where `Infinity - 1` is `Infinity`.
- `Scheduler` (`scheduler.dfy`) holds class `Animation`. Its fields are the engine's fields. It also holds the host capabilities the engine uses:
  - **Frames:** `pending` is the set of requested, not yet fired or cancelled frame ids. `requestAnimationFrame` hands out the fresh id `framesRequested + 1`.
  - **Promises:** `promisesMade` counts the promises created.
  - **Event log:** `log` records every call of a sink (`Rendered`) and every promise continuation (`Resolved`, `Rejected`).

  The clock is the `now` argument. `Math.atan2`, `Math.tan` and the cosine `ease` curve are a `Transcendentals` value that the engine is built with.

Each state-changing operation is a method that changes the fields in place. Each method is proved against a function on the value `SchedulerState`:

| Method | Specification function |
|---|---|
| `NextStep` | `Ticked` |
| `StartNext` | `Started` |
| `Stop` | `Stopped` |
| `Animate` | `Animated` |
| `Queue` | `Queued` |
| `Pause` | `Paused` |
| `Resume` | `Resumed` |
| `ClearQueue` | `Cleared` |

Every public method keeps the invariant `Valid()`:

- frame ids are fresh;
- queued records carry distinct promises that the engine made and has not settled;
- the log settles no promise twice.

The lemmas state what each transition does to the queue, the flags, the pending frames and the log.

The model follows the code as written, including these behaviours:

- `queue` on an empty queue appends without starting the record. On a non-empty queue it overwrites the head and starts it. So two `queue` calls on an idle engine leave only the second record, and the first promise is never settled (`QueueTwiceFromEmpty`).
- `animate` stops the engine and blends the easing only when the queue is empty. On a non-empty queue it overwrites the head without settling the head's promise (`AnimateDropsHead`).
- On an empty queue `animate` also writes the blended easing into the caller's options object. A caller who passes the same object again gets the blended easing, not the defaults' easing (`ReusedOptionsKeepBlend`). The options are a value here, so `Animate` returns the object as the call leaves it.
- `animate` and `queue` on a busy engine request a new frame without cancelling the remembered one. Two frames are then pending, and `pause` cancels only the newer one (`AnimateBusyTwoFrames`).
- No public operation puts a second record in the queue (`AtMostOneRecord`). The `> 1` test after a record finishes, the truncation in `clearQueue` and rejecting more than one record in `stop` only matter for a queue changed through the array `currentQueue` returns.
- After a record finishes, the next one is started only when more than one record remains. A single remaining record is left unstarted, and the engine is marked paused (`TickFinishes`).
- The infinite-loop refusal in `queue` is only consulted on an empty queue, whose loop total is 0, so it is never taken (`QueueOnEmptyDoesNotStart`).
- `_startNext` seeds the value delta with `start` included, while a tick's delta excludes it (`FirstTickSeesMinusStart`).

Two `queue` calls might be expected to start the first record and run the second after it. The code instead leaves only the second record, started, and `QueueTwiceFromEmpty` states this.

## Model

| member | source | states |
|---|---|---|
| Curves.Linear | src/index.ts:3 | the identity curve; its laws are in `LinearEndpoints` |
| Curves.OvershootIn | src/index.ts:16-17 | the cubic `x*x*((s + 1)*x - s)` with default shape 1.70158; its laws are in `OvershootEndpoints` |
| Curves.OvershootOut | src/index.ts:18 | `flip` of `overshootIn`; its laws are in `OvershootEndpoints` |
| Curves.FlipX | src/helpers.ts:4 | the curve `1 - f(x)`; its laws are in `FlipXInvolutive` and `FlipAt` |
| Curves.FlipY | src/helpers.ts:5 | the curve `f(1 - x)`; its laws are in `FlipYInvolutive` and `FlipAt` |
| Curves.Flip | src/helpers.ts:6-7 | the output flip of the input flip; its laws are in `FlipAt` and `FlipInvolutive` |
| Curves.MergeCurves | src/helpers.ts:8-12 | the blend of `f1` into `f2` under `blend`; its laws are in `MergeIsInterpolation`, `MergeWithItself` and `MergeIsBetween` |
| Curves.MergeCurveToLine | src/helpers.ts:13-14 | the blend of the line of slope `k` into `curve`; its laws are in `MergeCurveToLineAt` and `MergeCurveToLineFollowsLine` |
| Curves.FlipXInvolutive | src/helpers.ts:4 | flipping the output twice gives the curve back at every point |
| Curves.FlipYInvolutive | src/helpers.ts:5 | flipping the input twice gives the curve back at every point |
| Curves.FlipAt | src/helpers.ts:4-7 | `flip(f)(x) = 1 - f(1 - x)`, and flipping output then input equals flipping input then output |
| Curves.FlipInvolutive | src/helpers.ts:6-7 | `flip(flip(f))(x) = f(x)` for every `x` |
| Curves.MergeIsInterpolation | src/helpers.ts:8-12 | the merge is `f1(x) + (f2(x) - f1(x)) * b(x)`; it is `f1(x)` where the blend is 0 and `f2(x)` where it is 1 |
| Curves.MergeWithItself | src/helpers.ts:8-12 | merging a curve with itself returns it, whatever the blend |
| Curves.MergeIsBetween | src/helpers.ts:8-12 | with a blend weight in [0, 1] the merged value lies between the two curves' values |
| Curves.MergeCurveToLineAt | src/helpers.ts:13-14 | the line blend equals `k*x*(1 - b(x)) + curve(x)*b(x)`; it is 0 at 0 when the blend is 0 there, and equals `curve` where the blend is 1 |
| Curves.MergeCurveToLineFollowsLine | src/helpers.ts:13-14 | where the blend weight is 0 the line blend is exactly the line of slope `k` |
| Curves.LinearEndpoints | src/index.ts:3 | `linear(0) = 0`, `linear(1) = 1`, and `linear` is its own point reflection |
| Curves.OvershootEndpoints | src/index.ts:16-18 | `overshootIn` runs from 0 to 1 for every shape parameter, and so does `overshootOut = flip(overshootIn)` |
| AnimationRecords.LoopCount.Truthy | src/index.ts:145 | JavaScript truthiness of a loop count; its laws are in `FiniteLoopRestarts` and `InfiniteLoopRestarts` |
| AnimationRecords.LoopCount.Decrement | src/index.ts:146 | `loop--`, with `Infinity` unchanged; its laws are in `FiniteLoopRestarts`, `InfiniteLoopRestarts` and `DecrementKeepsWhole` |
| AnimationRecords.IsNatural | src/index.ts:37 | a number passing `isNatural` is at least 1 |
| AnimationRecords.IsWhole | src/index.ts:38 | a loop count passing `isWhole` is `Infinity` or non-negative |
| AnimationRecords.Assign | src/index.ts:105-117 | every field of the result is the supplied option when present and the default otherwise |
| AnimationRecords.AssignIdempotent | src/index.ts:252 | assigning the same options a second time changes nothing more |
| AnimationRecords.Validate | src/index.ts:178-218 | each option comes from the input when present and from the defaults otherwise; `fn` and the promise are kept; `startTime = 0` and `iterations = 0` whatever the checks say |
| AnimationRecords.LibraryDefaultsChecked | src/index.ts:105-113 | the built-in defaults pass the duration and loop checks |
| AnimationRecords.ValidateChecked | src/index.ts:178-206 | checked defaults and checked supplied fields give a record that passes the duration and loop checks |
| AnimationRecords.ValidateAfterAssign | src/index.ts:250-257 | validating options against defaults those options were just assigned into gives exactly the assigned defaults |
| AnimationRecords.FiniteLoopRestarts | src/index.ts:145-147 | a record with whole loop count `n` stays truthy through its first `n` decrements and is falsy after the `n`-th, so it restarts exactly `n` times |
| AnimationRecords.InfiniteLoopRestarts | src/index.ts:145-146 | an `Infinity` loop count stays `Infinity` after any number of decrements |
| AnimationRecords.DecrementKeepsWhole | src/index.ts:38 | decrementing a truthy whole loop count keeps it whole |
| Scheduler.PercentTime | src/index.ts:124-127 | progress is at most 1, at least 0 for a positive duration and a non-negative elapsed time, and below 1 exactly while the elapsed time is below a positive duration |
| Scheduler.PercentTimeMonotone | src/index.ts:124-127 | for a positive duration, progress never decreases as the elapsed time grows |
| Scheduler.Resolve | src/index.ts:123-138 | the tick's elapsed time, bounded progress, eased value (through `flipY(easing)` exactly on odd passes of an alternating record), `value = percentValue*target + start`, `deltaValue = value - start`, and the tangent as `atan2` of the deltas |
| Scheduler.StartValue | src/index.ts:172-173 | the value delta `_startNext` seeds; its laws are in `StartValueIsStart` and `FirstTickSeesMinusStart` |
| Scheduler.StartValueIsStart | src/index.ts:172-173 | for an easing that starts at 0 the seed is `start` itself |
| Scheduler.FirstTickSeesMinusStart | src/index.ts:133-138 | because `_startNext` seeds the value delta with `start` included, a tick at the very start of a forward pass sees a value change of exactly `-start` |
| Scheduler.AlternatePingPong | src/index.ts:128-134 | with linear easing from 0 to 1, an alternating record's value follows progress on even passes and runs from 1 back to 0 on odd passes |
| Scheduler.LoopSum | src/index.ts:266-268 | the queue's loop total, where a falsy loop count adds 0 and `Infinity` absorbs; its law is in `LoopSumInfinite` |
| Scheduler.LoopSumInfinite | src/index.ts:266-268 | the queue's loop total is `Infinity` exactly when some queued record loops forever |
| Scheduler.AppendEvent | src/index.ts:150 | appending one continuation call settles at most its own promise, and settles a promise twice exactly when that promise was settled before |
| Scheduler.Rejections | src/index.ts:160-167 | one rejection per queued record, carrying the reason, in queue order |
| Scheduler.AppendRejections | src/index.ts:160-167 | rejecting distinct unsettled promises settles exactly those promises, and none twice |
| Scheduler.TickContinues | src/index.ts:143-144 | before the end of the duration a tick renders once, keeps the queue and flags, and requests one fresh frame |
| Scheduler.TickLoops | src/index.ts:145-148 | at the end of a looping pass the same record stays at the head with one loop fewer (Infinity stays), one more iteration, `startTime = now`, the time delta reset, and nothing settled |
| Scheduler.TickFinishes | src/index.ts:149-156 | at the end of a pass that does not loop, the head is resolved and removed and the rest keep their order; the next record starts only if more than one remains, otherwise the engine is marked paused and asks for no frame |
| Scheduler.TickResolvesOnce | src/index.ts:149-150 | the finishing head's promise was unsettled, is settled by the tick, and the log still settles no promise twice |
| Scheduler.StopRejectsEachOnce | src/index.ts:295-301 | `stop` rejects every queued record, in order and with the reason, each exactly once |
| Scheduler.WithFrameConsistent | src/index.ts:144 | requesting a fresh frame keeps the engine consistent |
| Scheduler.CancelledConsistent | src/index.ts:230 | cancelling a frame keeps the engine consistent |
| Scheduler.SamePromisesConsistent | src/index.ts:221-224 | changing queued records without changing their promises keeps the engine consistent |
| Scheduler.StartedConsistent | src/index.ts:169-176 | `_startNext` keeps the engine consistent |
| Scheduler.StoppedConsistent | src/index.ts:295-301 | `stop` keeps the engine consistent |
| Scheduler.RenderingConsistent | src/index.ts:123-142 | the render step of a tick keeps the engine consistent |
| Scheduler.LoopingConsistent | src/index.ts:145-148 | restarting a looping head keeps the engine consistent |
| Scheduler.FinishingConsistent | src/index.ts:149-151 | resolving and shifting the head keeps the engine consistent |
| Scheduler.TickedConsistent | src/index.ts:120-157 | a whole tick keeps the engine consistent |
| Scheduler.FreshHeadConsistent | src/index.ts:256-257 | a record with a freshly made promise may replace the head or fill an empty queue |
| Scheduler.AnimatedConsistent | src/index.ts:248-258 | `animate` keeps the engine consistent |
| Scheduler.QueuedConsistent | src/index.ts:261-281 | `queue` keeps the engine consistent |
| Scheduler.AnimateStartsRecord | src/index.ts:248-258 | `animate` leaves the new record at the head, running from `now` in its first pass with the next promise and a frame requested, and settles nothing; on an empty queue the defaults keep the assigned options and the record takes them with the blended easing; otherwise the defaults and the rest of the queue are untouched |
| Scheduler.AnimateOptions | src/index.ts:250-254 | the caller's options after `animate`: with the blended easing written in when the queue was empty, unchanged otherwise |
| Scheduler.ReusedOptionsKeepBlend | src/index.ts:250-257 | after `animate` on an idle engine the options object holds the blended easing; passed again to `animate` or `queue` on the now busy engine, nothing more is written and the new record's easing is that blend |
| Scheduler.AnimateBusyTwoFrames | src/index.ts:226-233 | `animate` on a busy engine requests a new frame and keeps the old one pending; a following `pause` pauses and cancels only the new frame, so the old one stays pending |
| Scheduler.AtMostOneRecord | src/index.ts:248-289 | starting from at most one record, `animate` leaves exactly one, `stop` none, and `queue`, `pause`, `resume`, `clearQueue` and a tick at most one |
| Scheduler.AnimateDropsHead | src/index.ts:256-257 | replacing a head drops it: its promise is neither settled nor queued any longer |
| Scheduler.QueueOnEmptyDoesNotStart | src/index.ts:264-276 | `queue` on an empty queue appends the record, never takes the refusal, and leaves the paused flag and the frames unchanged |
| Scheduler.QueueIsAnimateWhenBusy | src/index.ts:277-280 | on a non-empty queue `queue` and `animate` reach the same state |
| Scheduler.QueueTwiceFromEmpty | src/index.ts:261-281 | two `queue` calls on an idle engine leave only the second record, started; the first promise is never settled and no longer queued |
| Scheduler.PauseIdempotent | src/index.ts:226-233 | pausing leaves the engine paused with queue and log unchanged, and pausing again changes nothing |
| Scheduler.PauseResumeKeepsElapsed | src/index.ts:226-242 | after pause at `t1` and resume at `t2` the head is as far into its pass at `t2` as at `t1`; the rest of the queue is unchanged, and the cancelled frame is replaced by one fresh frame |
| Scheduler.ResumeWhileRunning | src/index.ts:235-236 | resuming a running engine changes nothing |
| Scheduler.ClearQueueDropsRest | src/index.ts:283-289 | `clearQueue` keeps exactly the head (loop reset on request) and settles nothing; the dropped records' promises are neither settled nor queued |
| Scheduler.PausedConsistent | src/index.ts:226-233 | `pause` keeps the engine consistent |
| Scheduler.ResumedConsistent | src/index.ts:235-242 | `resume` keeps the engine consistent |
| Scheduler.ClearedConsistent | src/index.ts:283-289 | `clearQueue` keeps the engine consistent |
| Scheduler.Animation.constructor | src/index.ts:96-117 | an idle, paused engine with an empty queue whose defaults are the built-in ones overridden by the argument |
| Scheduler.Animation.RequestFrame | src/index.ts:144 | a fresh frame id becomes pending and is remembered |
| Scheduler.Animation.CancelFrame | src/index.ts:230 | the frame is no longer pending; nothing else changes |
| Scheduler.Animation.StartNext | src/index.ts:169-176 | the new state is `Started`: the head starts now, the deltas are seeded, and a frame is requested |
| Scheduler.Animation.RejectAll | src/index.ts:160-167 | the loop appends exactly the rejections of the queue, in order; nothing else changes |
| Scheduler.Animation.NextStep | src/index.ts:120-157 | the fired frame leaves `pending`; on an empty queue reading the head throws; otherwise the new state is `Ticked`; consistency is kept |
| Scheduler.Animation.Tick | src/index.ts:121-157 | the new state is `Ticked` of the old |
| Scheduler.Animation.Render | src/index.ts:121-142 | the result is `Resolve` of the head, and the new state is the render step |
| Scheduler.Animation.Loop | src/index.ts:221-224 | only the loop count of the record at `which` changes; an index outside the queue throws and changes nothing |
| Scheduler.Animation.Pause | src/index.ts:226-233 | the new state is `Paused`; consistency is kept |
| Scheduler.Animation.Resume | src/index.ts:235-242 | the new state is `Resumed`; it throws exactly when resuming a paused engine with an empty queue |
| Scheduler.Animation.Animate | src/index.ts:248-258 | returns the next promise and the caller's options as the call leaves them (`AnimateOptions`); the new state is `Animated`; consistency is kept |
| Scheduler.Animation.PutHead | src/index.ts:256-257 | a fresh promise is made and the record takes index 0 |
| Scheduler.Animation.Queue | src/index.ts:261-281 | returns the next promise; the new state is `Queued`; consistency is kept |
| Scheduler.Animation.ClearQueue | src/index.ts:283-289 | the new state is `Cleared`; it throws exactly when resetting the loop of an empty queue |
| Scheduler.Animation.Stop | src/index.ts:295-301 | the new state is `Stopped`; consistency is kept |

## Left out

- Floating point is not modelled. JavaScript numbers are exact reals, and `NaN` and the infinities are not modelled, except for the loop count `Infinity`.
- `Scheduler.Animation.NextStep`: requires a nonzero head duration, where JavaScript would divide by zero and carry `Infinity` or `NaN` through the tick.
- `Scheduler.PercentTime`: requires a nonzero duration for the same reason.
- `Scheduler.Resolve`: requires a nonzero duration for the same reason.
- `Scheduler.Ticked`: requires a nonzero head duration for the same reason.
- `Scheduler.Animation.Tick`: requires a nonzero head duration for the same reason.
- `Scheduler.Animation.Render`: requires a nonzero head duration for the same reason.
- `Math.atan2` and `Math.tan` are uninterpreted parameters, supplied as a `Transcendentals` value, and so is the cosine `ease` curve that `mergeCurves` blends with by default. The trigonometric and power easings of `src/easings.ts` are not part of this model.
- The `console.assert` diagnostics of `_validate` are not modelled. Only the checks themselves are (`Checked`), and validation never refuses.
- These `typeof` checks hold by typing: the sink and the easing are functions, and `alternate` is a boolean.
- The getter `paused` is a read of the `paused` field, so it has no member of its own.
- The getter `currentQueue` hands out the engine's own queue array, and a caller may change the queue through it. That aliasing is not modelled: the queue is a field the engine alone changes.
- `Scheduler.Animation.Animate`: the caller's options object is modelled as a value. The write-back is the returned `written`, and a caller reusing the object passes `written` on.
- The `@bind` decorator is not modelled.
- Promise values are not modelled: what a promise resolves to (the engine itself) and the `{message, animation}` object it is rejected with. The log keeps the promise id and the message.
- The continuation of a promise runs later, as a JavaScript microtask. Here its call is appended to the log where the engine invokes it.
- A sink runs synchronously inside a tick. Reentrant calls from a sink and exceptions thrown by a sink are not modelled.
- Each operation reads the clock once, as `now`. The engine itself calls `Date.now()` again inside `_startNext` during a tick. Here both readings are the same `now`.
- The option keys present with the value `undefined` are not distinguished from absent keys: an option is either present with a value or absent.
- A non-integer or non-numeric `which` in `loop` is not modelled: `which` is an `int`.
- `Scheduler.Animation.Loop`, `Scheduler.Animation.Resume`, `Scheduler.Animation.ClearQueue` and `Scheduler.Animation.NextStep` model a thrown `TypeError` as the outcome `ThrewTypeError`, with the partial state change made before the throw. How the exception then propagates is not modelled.
