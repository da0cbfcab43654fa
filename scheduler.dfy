/**
 * The animation engine: a FIFO queue of validated records whose head is the
 * active animation, driven one tick per display frame.
 *
 * The host capabilities are modelled explicitly:
 *  - the clock is the `now` argument of every operation that reads it;
 *  - the frame scheduler is the set `pending` of requested, not yet fired or
 *    cancelled frame ids, which `requestAnimationFrame` extends with a fresh
 *    id and `cancelAnimationFrame` shrinks; a tick names the frame it fires;
 *  - each `new Promise` is a fresh `PromiseId`, and calling its resolve or
 *    reject continuation, like calling a record's sink, appends an `Event`
 *    to `log`;
 *  - `Math.atan2`, `Math.tan` and the cosine `ease` curve are the
 *    `Transcendentals` the engine is built with.
 */
module Scheduler {
  import opened Curves
  import opened AnimationRecords

  /** What the sink receives each tick besides the value. */
  datatype Resolution = Resolution(
    deltaTime: int,
    percentTime: real,
    percentValue: real,
    deltaValue: real,
    value: real,
    tangent: real)

  /** A continuation the engine invoked. */
  datatype Event =
    | Rendered(fn: SinkId, value: real, details: Resolution)
    | Resolved(promise: PromiseId)
    | Rejected(promise: PromiseId, message: string)
  {
    /** Whether this event settles a promise. */
    predicate Settlement() {
      Resolved? || Rejected?
    }
  }

  /** How a public operation ends: normally, or by JavaScript throwing a TypeError. */
  datatype Outcome = Returned | ThrewTypeError

  /** The floating-point functions the engine calls but this model does not define. */
  datatype Transcendentals = Transcendentals(
    atan2: (real, real) -> real,
    tan: real -> real,
    ease: Curve)

  const StopManually: string := "Animation stopped manually"
  const ChangedBeforeCompleted: string := "Animation changed before it was completed"
  const LoopsForever: string :=
    "An animation in the queue is set to loop infinitely, so requested animation would never be executed. Consider using .modifyLoop() or .clearQueue() before queuing."

  // ---------------------------------------------------------------------------
  // One tick's arithmetic

  function Min(a: real, b: real): real {
    if a <= b then a else b
  }

  /**
   * The fraction of the duration that has elapsed, capped at 1. It is below 1
   * exactly while the elapsed time is below a positive duration.
   */
  function PercentTime(deltaTime: int, duration: real): (pt: real)
    requires duration != 0.0
    ensures pt <= 1.0
    ensures duration > 0.0 && deltaTime >= 0 ==> pt >= 0.0
    ensures duration > 0.0 ==> (pt < 1.0 <==> (deltaTime as real) < duration)
  {
    var q := deltaTime as real / duration;
    assert duration > 0.0 ==> (q < 1.0 <==> (deltaTime as real) < duration) by {
      if duration > 0.0 {
        assert q * duration == deltaTime as real;
        assert q < 1.0 <==> q * duration < duration;
      }
    }
    Min(q, 1.0)
  }

  /** Within one pass the progress never decreases as the elapsed time grows. */
  lemma PercentTimeMonotone(d1: int, d2: int, duration: real)
    requires duration > 0.0 && d1 <= d2
    ensures PercentTime(d1, duration) <= PercentTime(d2, duration)
  {
    assert (d1 as real) / duration <= (d2 as real) / duration;
  }

  /**
   * The tick result for record `r` at time `now`, given the engine's
   * previous time and value deltas: the progress runs through the easing,
   * backwards on the odd passes of an alternating record, and the value is
   * the eased progress scaled by `target` and offset by `start`.
   */
  function Resolve(r: Record, now: int, lastDeltaTime: int, lastDeltaValue: real,
                   atan2: (real, real) -> real): (res: Resolution)
    requires r.duration != 0.0
    ensures res.deltaTime == now - r.startTime
    ensures res.percentTime <= 1.0
    ensures r.duration > 0.0 && now >= r.startTime ==> res.percentTime >= 0.0
    ensures r.iterations % 2 == 1 && r.alternate ==> res.percentValue == r.easing(1.0 - res.percentTime)
    ensures !(r.iterations % 2 == 1 && r.alternate) ==> res.percentValue == r.easing(res.percentTime)
    ensures res.value == res.percentValue * r.target + r.start
    ensures res.deltaValue == res.value - r.start
    ensures res.tangent == atan2(res.deltaValue - lastDeltaValue, (res.deltaTime - lastDeltaTime) as real)
  {
    var deltaTime := now - r.startTime;
    var percentTime := PercentTime(deltaTime, r.duration);
    var percentValue :=
      if r.iterations % 2 == 1 && r.alternate then FlipY(r.easing)(percentTime)
      else r.easing(percentTime);
    var deltaValue := percentValue * r.target;
    Resolution(deltaTime, percentTime, percentValue, deltaValue, deltaValue + r.start,
               atan2(deltaValue - lastDeltaValue, (deltaTime - lastDeltaTime) as real))
  }

  /** The value delta `_startNext` seeds the engine with; unlike a tick's, it includes `start`. */
  function StartValue(r: Record): real {
    r.easing(0.0) * r.target + r.start
  }

  /**
   * For an easing that starts at 0 the seed is `start` itself, not the zero
   * delta a tick at the start of the pass computes.
   */
  lemma StartValueIsStart(r: Record)
    requires r.easing(0.0) == 0.0
    ensures StartValue(r) == r.start
  {
  }

  /**
   * Because the seed includes `start` and a tick's delta does not, the first
   * tick of a pass at its very start sees a value change of exactly `-start`
   * against the seed (for a curve run forwards).
   */
  lemma FirstTickSeesMinusStart(r: Record, atan2: (real, real) -> real)
    requires r.duration > 0.0
    requires !(r.iterations % 2 == 1 && r.alternate)
    ensures Resolve(r, r.startTime, 0, StartValue(r), atan2).deltaValue - StartValue(r) == -r.start
    ensures Resolve(r, r.startTime, 0, StartValue(r), atan2).tangent == atan2(-r.start, 0.0)
  {
    var res := Resolve(r, r.startTime, 0, StartValue(r), atan2);
    assert res.percentTime == 0.0;
  }

  /**
   * With the linear easing from 0 to 1, an alternating record's value follows
   * the progress on even passes and runs back from 1 to 0 on odd passes.
   */
  lemma AlternatePingPong(r: Record, now: int, lastDeltaTime: int, lastDeltaValue: real,
                          atan2: (real, real) -> real)
    requires r.duration != 0.0
    requires r.easing == Linear && r.start == 0.0 && r.target == 1.0 && r.alternate
    ensures var res := Resolve(r, now, lastDeltaTime, lastDeltaValue, atan2);
      res.value == if r.iterations % 2 == 0 then res.percentTime else 1.0 - res.percentTime
  {
  }

  // ---------------------------------------------------------------------------
  // The queue-wide loop total consulted by `queue`

  /** JavaScript `+` on loop counts, where Infinity absorbs. */
  function AddLoops(a: LoopCount, b: LoopCount): LoopCount {
    if a.Infinite? || b.Infinite? then Infinite else Finite(a.n + b.n)
  }

  /** `queue.reduce((acc, curr) => (curr.loop || 0) + acc, 0)`. */
  function LoopSum(q: seq<Record>): LoopCount {
    if q == [] then Finite(0.0)
    else AddLoops(if q[|q| - 1].loop.Truthy() then q[|q| - 1].loop else Finite(0.0), LoopSum(q[..|q| - 1]))
  }

  /** The loop total is Infinity exactly when some queued record loops forever. */
  lemma {:induction false} LoopSumInfinite(q: seq<Record>)
    ensures LoopSum(q).Infinite? <==> exists i :: 0 <= i < |q| && q[i].loop.Infinite?
  {
    if q != [] {
      var init := q[..|q| - 1];
      LoopSumInfinite(init);
      if LoopSum(init).Infinite? {
        var i :| 0 <= i < |init| && init[i].loop.Infinite?;
        assert q[i].loop.Infinite?;
      }
      if exists i :: 0 <= i < |q| && q[i].loop.Infinite? {
        var i :| 0 <= i < |q| && q[i].loop.Infinite?;
        if i < |q| - 1 {
          assert init[i].loop.Infinite?;
        }
      }
    }
  }

  // ---------------------------------------------------------------------------
  // Promise settlement

  /** Event `e` settles promise `p`. */
  predicate Settles(e: Event, p: PromiseId) {
    e.Settlement() && e.promise == p
  }

  /** The promises `log` settles. */
  function SettledBy(log: seq<Event>): set<PromiseId> {
    set k | 0 <= k < |log| && log[k].Settlement() :: log[k].promise
  }

  /** No two events of `log` settle the same promise. */
  ghost predicate SettlesAtMostOnce(log: seq<Event>) {
    forall i, j :: 0 <= i < j < |log| && log[i].Settlement() && log[j].Settlement() ==>
      log[i].promise != log[j].promise
  }

  /** Appending one event settles at most its own promise, and settles it twice exactly when it was settled before. */
  lemma AppendEvent(log: seq<Event>, e: Event)
    ensures SettledBy(log + [e]) == SettledBy(log) + (if e.Settlement() then {e.promise} else {})
    ensures SettlesAtMostOnce(log + [e]) <==>
              SettlesAtMostOnce(log) && (e.Settlement() ==> e.promise !in SettledBy(log))
  {
    var l := log + [e];
    forall p | p in SettledBy(l) ensures p in SettledBy(log) + (if e.Settlement() then {e.promise} else {}) {
      var k :| 0 <= k < |l| && l[k].Settlement() && l[k].promise == p;
      if k < |log| {
        assert log[k] == l[k];
      }
    }
    forall p | p in SettledBy(log) ensures p in SettledBy(l) {
      var k :| 0 <= k < |log| && log[k].Settlement() && log[k].promise == p;
      assert l[k] == log[k];
    }
    if e.Settlement() {
      assert l[|log|] == e;
    }
    if SettlesAtMostOnce(l) {
      forall i, j | 0 <= i < j < |log| && log[i].Settlement() && log[j].Settlement()
        ensures log[i].promise != log[j].promise
      {
        assert l[i] == log[i] && l[j] == log[j];
      }
    }
    if e.Settlement() && e.promise in SettledBy(log) {
      var k :| 0 <= k < |log| && log[k].Settlement() && log[k].promise == e.promise;
      assert l[k] == log[k] && l[|log|] == e;
      assert !SettlesAtMostOnce(l);
    }
    if SettlesAtMostOnce(log) && (e.Settlement() ==> e.promise !in SettledBy(log)) {
      forall i, j | 0 <= i < j < |l| && l[i].Settlement() && l[j].Settlement()
        ensures l[i].promise != l[j].promise
      {
        assert l[i] == log[i];
        if j < |log| {
          assert l[j] == log[j];
        } else {
          assert l[j] == e;
          assert log[i].promise in SettledBy(log);
        }
      }
    }
  }

  /** `_rejectAll`: one rejection per queued record, in queue order. */
  function Rejections(q: seq<Record>, message: string): (r: seq<Event>)
    ensures |r| == |q|
    ensures forall k :: 0 <= k < |q| ==> r[k] == Rejected(q[k].promise, message)
  {
    seq(|q|, k requires 0 <= k < |q| => Rejected(q[k].promise, message))
  }

  /** Rejecting one more record appends its rejection. */
  lemma RejectionsSnoc(q: seq<Record>, message: string)
    requires q != []
    ensures Rejections(q, message) == Rejections(q[..|q| - 1], message) + [Rejected(q[|q| - 1].promise, message)]
  {
    assert Rejections(q, message)[..|q| - 1] == Rejections(q[..|q| - 1], message);
  }

  /** The promises of the records of `q`. */
  function Promises(q: seq<Record>): set<PromiseId> {
    set i | 0 <= i < |q| :: q[i].promise
  }

  /** The records of `q` carry pairwise distinct promises. */
  ghost predicate DistinctPromises(q: seq<Record>) {
    forall i, j :: 0 <= i < j < |q| ==> q[i].promise != q[j].promise
  }

  /**
   * Rejecting a queue of distinct, unsettled promises settles exactly those
   * promises, and still settles none twice.
   */
  lemma AppendRejections(log: seq<Event>, q: seq<Record>, message: string)
    requires SettlesAtMostOnce(log) && DistinctPromises(q)
    requires forall i :: 0 <= i < |q| ==> q[i].promise !in SettledBy(log)
    ensures SettledBy(log + Rejections(q, message)) == SettledBy(log) + Promises(q)
    ensures SettlesAtMostOnce(log + Rejections(q, message))
  {
    var r := Rejections(q, message);
    var l := log + r;
    forall p | p in SettledBy(l) ensures p in SettledBy(log) + Promises(q) {
      var k :| 0 <= k < |l| && l[k].Settlement() && l[k].promise == p;
      if k < |log| {
        assert log[k] == l[k];
      } else {
        assert l[k] == r[k - |log|];
      }
    }
    forall p | p in SettledBy(log) ensures p in SettledBy(l) {
      var k :| 0 <= k < |log| && log[k].Settlement() && log[k].promise == p;
      assert l[k] == log[k];
    }
    forall p | p in Promises(q) ensures p in SettledBy(l) {
      var k :| 0 <= k < |q| && q[k].promise == p;
      assert l[|log| + k] == r[k];
    }
    forall i, j | 0 <= i < j < |l| && l[i].Settlement() && l[j].Settlement()
      ensures l[i].promise != l[j].promise
    {
      if j < |log| {
        assert l[i] == log[i] && l[j] == log[j];
      } else if i >= |log| {
        assert l[i] == r[i - |log|] && l[j] == r[j - |log|];
      } else {
        assert l[i] == log[i] && l[j] == r[j - |log|];
        assert log[i].promise in SettledBy(log);
      }
    }
  }

  // ---------------------------------------------------------------------------
  // The engine's state as a value, and its transitions

  datatype SchedulerState = SchedulerState(
    paused: bool,
    queue: seq<Record>,
    tangent: real,
    deltaTime: int,
    deltaValue: real,
    defaults: Options,
    nextFrame: int,
    pauseTime: int,
    pending: set<int>,
    framesRequested: nat,
    promisesMade: nat,
    log: seq<Event>)

  /**
   * What the engine keeps true between operations: frame ids are handed out
   * fresh; queued records have distinct promises, made by the engine and not
   * yet settled; and no promise is ever settled twice.
   */
  ghost predicate Consistent(s: SchedulerState) {
    && (forall f :: f in s.pending ==> 0 < f <= s.framesRequested)
    && (forall i :: 0 <= i < |s.queue| ==>
          s.queue[i].promise < s.promisesMade && s.queue[i].promise !in SettledBy(s.log))
    && DistinctPromises(s.queue)
    && (forall p :: p in SettledBy(s.log) ==> p < s.promisesMade)
    && SettlesAtMostOnce(s.log)
  }

  /** `requestAnimationFrame`: a fresh frame id becomes pending and is remembered. */
  function WithFrame(s: SchedulerState): SchedulerState {
    var id := s.framesRequested + 1;
    s.(framesRequested := id, nextFrame := id, pending := s.pending + {id})
  }

  /** `_startNext`: the head starts now, the deltas are seeded, a frame is requested. */
  function Started(s: SchedulerState, now: int): SchedulerState
    requires s.queue != []
  {
    WithFrame(s.(queue := s.queue[0 := s.queue[0].(startTime := now)],
                 paused := false,
                 deltaValue := StartValue(s.queue[0]),
                 deltaTime := 0))
  }

  /** `stop`: cancel the remembered frame, reject every queued record, empty the queue. */
  function Stopped(s: SchedulerState, reason: string): SchedulerState {
    s.(pending := s.pending - {s.nextFrame},
       log := s.log + Rejections(s.queue, reason),
       queue := [],
       paused := true)
  }

  /** The tick's render step: the tracking scalars move to `res` and the sink is called. */
  function Rendering(s: SchedulerState, res: Resolution): SchedulerState
    requires s.queue != []
  {
    s.(tangent := res.tangent, deltaValue := res.deltaValue, deltaTime := res.deltaTime,
       log := s.log + [Rendered(s.queue[0].fn, res.value, res)])
  }

  /** The head is resolved and shifted out of the queue. */
  function Finishing(s: SchedulerState): SchedulerState
    requires s.queue != []
  {
    s.(log := s.log + [Resolved(s.queue[0].promise)], queue := s.queue[1..])
  }

  /** The head restarts for one more pass. */
  function Looping(s: SchedulerState, now: int): SchedulerState
    requires s.queue != []
  {
    var head := s.queue[0];
    Started(s.(queue := s.queue[0 := head.(loop := head.loop.Decrement(), iterations := head.iterations + 1)]), now)
  }

  /** `_nextStep` once its frame has fired: render, then continue, restart or finish the head. */
  function Ticked(s: SchedulerState, now: int, atan2: (real, real) -> real): SchedulerState
    requires s.queue != [] && s.queue[0].duration != 0.0
  {
    var head := s.queue[0];
    var res := Resolve(head, now, s.deltaTime, s.deltaValue, atan2);
    var rendered := Rendering(s, res);
    if res.percentTime < 1.0 then
      WithFrame(rendered)
    else if head.loop.Truthy() then
      Looping(rendered, now)
    else
      var finished := Finishing(rendered);
      if |finished.queue| > 1 then Started(finished, now) else finished.(paused := true)
  }

  // ---------------------------------------------------------------------------
  // What a tick does

  /** Before the end of the duration a tick renders, keeps the queue and asks for another frame. */
  lemma TickContinues(s: SchedulerState, now: int, atan2: (real, real) -> real)
    requires s.queue != [] && s.queue[0].duration > 0.0
    requires ((now - s.queue[0].startTime) as real) < s.queue[0].duration
    ensures var t := Ticked(s, now, atan2);
      && t.queue == s.queue && t.paused == s.paused
      && t.pending == s.pending + {s.framesRequested + 1} && t.nextFrame == s.framesRequested + 1
      && |t.log| == |s.log| + 1 && t.log[..|s.log|] == s.log
      && t.log[|s.log|].Rendered? && t.log[|s.log|].fn == s.queue[0].fn
  {
  }

  /**
   * At the end of a looping pass the same record stays at the head with one
   * loop fewer (Infinity stays Infinity) and one more iteration, restarted
   * now with the time delta reset; nothing is settled.
   */
  lemma TickLoops(s: SchedulerState, now: int, atan2: (real, real) -> real)
    requires s.queue != [] && s.queue[0].duration > 0.0
    requires ((now - s.queue[0].startTime) as real) >= s.queue[0].duration
    requires s.queue[0].loop.Truthy()
    ensures var t := Ticked(s, now, atan2); var head := s.queue[0];
      && |t.queue| == |s.queue| && t.queue[1..] == s.queue[1..]
      && t.queue[0] == head.(loop := head.loop.Decrement(), iterations := head.iterations + 1, startTime := now)
      && (head.loop.Infinite? ==> t.queue[0].loop.Infinite?)
      && t.deltaTime == 0 && !t.paused
      && |t.log| == |s.log| + 1 && t.log[..|s.log|] == s.log && !t.log[|s.log|].Settlement()
  {
  }

  /**
   * At the end of a pass that does not loop the head is resolved and removed,
   * the rest keep their order, and the next record is started only if more
   * than one remains; otherwise the engine marks itself paused without
   * asking for a frame, leaving a single remaining record unstarted.
   */
  lemma TickFinishes(s: SchedulerState, now: int, atan2: (real, real) -> real)
    requires s.queue != [] && s.queue[0].duration > 0.0
    requires ((now - s.queue[0].startTime) as real) >= s.queue[0].duration
    requires !s.queue[0].loop.Truthy()
    ensures var t := Ticked(s, now, atan2);
      && |t.queue| == |s.queue| - 1
      && (|t.queue| > 1 ==> t.queue == s.queue[1..][0 := s.queue[1].(startTime := now)] && !t.paused
                            && t.pending == s.pending + {s.framesRequested + 1})
      && (|t.queue| <= 1 ==> t.queue == s.queue[1..] && t.paused && t.pending == s.pending)
      && |t.log| == |s.log| + 2 && t.log[..|s.log|] == s.log && t.log[|s.log| + 1] == Resolved(s.queue[0].promise)
  {
  }

  /**
   * In a consistent state a finishing tick settles the head's promise, which
   * was unsettled, and the log still settles every promise at most once: the
   * head is resolved exactly once.
   */
  lemma TickResolvesOnce(s: SchedulerState, now: int, atan2: (real, real) -> real)
    requires Consistent(s)
    requires s.queue != [] && s.queue[0].duration > 0.0
    requires ((now - s.queue[0].startTime) as real) >= s.queue[0].duration
    requires !s.queue[0].loop.Truthy()
    ensures s.queue[0].promise !in SettledBy(s.log)
    ensures var t := Ticked(s, now, atan2);
      && SettledBy(t.log) == SettledBy(s.log) + {s.queue[0].promise}
      && SettlesAtMostOnce(t.log)
  {
    TickedConsistent(s, now, atan2);
    var res := Resolve(s.queue[0], now, s.deltaTime, s.deltaValue, atan2);
    var rendered := Rendering(s, res);
    AppendEvent(s.log, rendered.log[|s.log|]);
    assert rendered.log == s.log + [rendered.log[|s.log|]];
    AppendEvent(rendered.log, Resolved(s.queue[0].promise));
  }

  /** `stop` rejects every queued record, in queue order, each exactly once. */
  lemma StopRejectsEachOnce(s: SchedulerState, reason: string)
    requires Consistent(s)
    ensures var t := Stopped(s, reason);
      && |t.log| == |s.log| + |s.queue|
      && (forall i :: 0 <= i < |s.queue| ==>
            t.log[|s.log| + i] == Rejected(s.queue[i].promise, reason) && s.queue[i].promise !in SettledBy(s.log))
      && SettledBy(t.log) == SettledBy(s.log) + Promises(s.queue)
      && SettlesAtMostOnce(t.log)
  {
    AppendRejections(s.log, s.queue, reason);
  }

  // ---------------------------------------------------------------------------
  // The transitions keep the engine consistent

  lemma WithFrameConsistent(s: SchedulerState)
    requires Consistent(s)
    ensures Consistent(WithFrame(s))
  {
  }

  lemma CancelledConsistent(s: SchedulerState, frame: int)
    requires Consistent(s)
    ensures Consistent(s.(pending := s.pending - {frame}))
  {
  }

  /** Changing queued records without touching their promises keeps the engine consistent. */
  lemma SamePromisesConsistent(s: SchedulerState, q: seq<Record>)
    requires Consistent(s)
    requires |q| == |s.queue| && forall i :: 0 <= i < |q| ==> q[i].promise == s.queue[i].promise
    ensures Consistent(s.(queue := q))
  {
  }

  lemma StartedConsistent(s: SchedulerState, now: int)
    requires Consistent(s) && s.queue != []
    ensures Consistent(Started(s, now))
  {
    var q := s.queue[0 := s.queue[0].(startTime := now)];
    SamePromisesConsistent(s, q);
    WithFrameConsistent(s.(queue := q, paused := false, deltaValue := StartValue(s.queue[0]), deltaTime := 0));
  }

  lemma StoppedConsistent(s: SchedulerState, reason: string)
    requires Consistent(s)
    ensures Consistent(Stopped(s, reason))
  {
    AppendRejections(s.log, s.queue, reason);
  }

  lemma RenderingConsistent(s: SchedulerState, res: Resolution)
    requires Consistent(s) && s.queue != []
    ensures Consistent(Rendering(s, res))
  {
    AppendEvent(s.log, Rendered(s.queue[0].fn, res.value, res));
  }

  lemma LoopingConsistent(s: SchedulerState, now: int)
    requires Consistent(s) && s.queue != []
    ensures Consistent(Looping(s, now))
  {
    var head := s.queue[0];
    var q := s.queue[0 := head.(loop := head.loop.Decrement(), iterations := head.iterations + 1)];
    SamePromisesConsistent(s, q);
    StartedConsistent(s.(queue := q), now);
  }

  lemma FinishingConsistent(s: SchedulerState)
    requires Consistent(s) && s.queue != []
    ensures Consistent(Finishing(s))
  {
    AppendEvent(s.log, Resolved(s.queue[0].promise));
    assert forall i :: 0 <= i < |s.queue| - 1 ==> s.queue[1..][i] == s.queue[i + 1];
  }

  lemma TickedConsistent(s: SchedulerState, now: int, atan2: (real, real) -> real)
    requires Consistent(s)
    requires s.queue != [] && s.queue[0].duration != 0.0
    ensures Consistent(Ticked(s, now, atan2))
  {
    var head := s.queue[0];
    var res := Resolve(head, now, s.deltaTime, s.deltaValue, atan2);
    var rendered := Rendering(s, res);
    RenderingConsistent(s, res);
    if res.percentTime < 1.0 {
      WithFrameConsistent(rendered);
    } else if head.loop.Truthy() {
      LoopingConsistent(rendered, now);
    } else {
      var finished := Finishing(rendered);
      FinishingConsistent(rendered);
      if |finished.queue| > 1 {
        StartedConsistent(finished, now);
      }
    }
  }

  /** A record with a fresh promise may replace the head or join an empty queue. */
  lemma FreshHeadConsistent(s: SchedulerState, r: Record)
    requires Consistent(s) && r.promise == s.promisesMade
    ensures s.queue != [] ==> Consistent(s.(queue := s.queue[0 := r], promisesMade := s.promisesMade + 1))
    ensures s.queue == [] ==> Consistent(s.(queue := [r], promisesMade := s.promisesMade + 1))
  {
  }

  // ---------------------------------------------------------------------------
  // Replacing and queuing animations

  /** `new Promise` for `r`, then `this._queue[0] = r`, which on an empty queue appends. */
  function WithHead(s: SchedulerState, r: Record): SchedulerState {
    s.(queue := if s.queue == [] then [r] else s.queue[0 := r], promisesMade := s.promisesMade + 1)
  }

  /**
   * The caller's options object after `animate`: on an empty queue the
   * blended easing, the line of the last tangent's slope blended into the
   * easing of the updated defaults, is written into it; otherwise it is
   * left alone.
   */
  function AnimateOptions(s: SchedulerState, options: Input, math: Transcendentals): Input {
    if s.queue == [] then
      options.(easing := Some(MergeCurveToLine(math.tan(s.tangent), Assign(s.defaults, options).easing, math.ease)))
    else options
  }

  /**
   * `animate`. On an empty queue: stop (rejecting nothing), assign the
   * options into the defaults for good, and write the blended easing into
   * the options. Then the record validated from those options, with the
   * next fresh promise, replaces the head and starts.
   */
  function Animated(s: SchedulerState, now: int, fn: SinkId, options: Input, math: Transcendentals): SchedulerState {
    var base := if s.queue == [] then Stopped(s, ChangedBeforeCompleted).(defaults := Assign(s.defaults, options)) else s;
    Started(WithHead(base, Validate(fn, s.promisesMade, AnimateOptions(s, options, math), base.defaults)), now)
  }

  /**
   * `queue`. On an empty queue the record, with the next fresh promise, is
   * appended but not started, unless the loop total of the (empty) queue is
   * Infinity, in which case the promise is rejected instead. On a non-empty
   * queue the record replaces the head and starts, as with `animate`.
   */
  function Queued(s: SchedulerState, now: int, fn: SinkId, options: Input): SchedulerState {
    var p := s.promisesMade;
    var r := Validate(fn, p, options, s.defaults);
    if s.queue == [] then
      if LoopSum(s.queue).Infinite? then s.(promisesMade := p + 1, log := s.log + [Rejected(p, LoopsForever)])
      else s.(queue := s.queue + [r], promisesMade := p + 1)
    else
      Started(WithHead(s, r), now)
  }

  lemma AnimatedConsistent(s: SchedulerState, now: int, fn: SinkId, options: Input, math: Transcendentals)
    requires Consistent(s)
    ensures Consistent(Animated(s, now, fn, options, math))
  {
    var base := if s.queue == [] then Stopped(s, ChangedBeforeCompleted).(defaults := Assign(s.defaults, options)) else s;
    var r := Validate(fn, s.promisesMade, AnimateOptions(s, options, math), base.defaults);
    StoppedConsistent(s, ChangedBeforeCompleted);
    FreshHeadConsistent(base, r);
    StartedConsistent(WithHead(base, r), now);
  }

  lemma QueuedConsistent(s: SchedulerState, now: int, fn: SinkId, options: Input)
    requires Consistent(s)
    ensures Consistent(Queued(s, now, fn, options))
  {
    var r := Validate(fn, s.promisesMade, options, s.defaults);
    FreshHeadConsistent(s, r);
    if s.queue != [] {
      StartedConsistent(WithHead(s, r), now);
    } else {
      assert s.queue + [r] == [r];
    }
  }

  /**
   * `animate` always leaves the new record at the head, running from `now`
   * in its first pass with the next fresh promise and a frame requested, and
   * settles nothing. On an empty queue the defaults keep the assigned
   * options and the record takes them, with the blended easing; otherwise
   * the defaults are untouched and the rest of the queue stays as it was.
   */
  lemma AnimateStartsRecord(s: SchedulerState, now: int, fn: SinkId, options: Input, math: Transcendentals)
    ensures var t := Animated(s, now, fn, options, math);
      && |t.queue| == (if s.queue == [] then 1 else |s.queue|)
      && t.queue[0].fn == fn && t.queue[0].promise == s.promisesMade
      && t.queue[0].startTime == now && t.queue[0].iterations == 0
      && t.promisesMade == s.promisesMade + 1
      && !t.paused && t.nextFrame == s.framesRequested + 1 && t.nextFrame in t.pending
      && t.log == s.log
      && (s.queue == [] ==>
            var d := Assign(s.defaults, options);
            && t.defaults == d
            && t.queue[0].AsOptions() == d.(easing := MergeCurveToLine(math.tan(s.tangent), d.easing, math.ease)))
      && (s.queue != [] ==>
            && t.defaults == s.defaults
            && t.queue[0].AsOptions() == Assign(s.defaults, options)
            && t.queue[1..] == s.queue[1..])
  {
    if s.queue == [] {
      var d := Assign(s.defaults, options);
      var blended := MergeCurveToLine(math.tan(s.tangent), d.easing, math.ease);
      var r := Validate(fn, s.promisesMade, options.(easing := Some(blended)), d);
      assert r.AsOptions() == d.(easing := blended);
      assert Rejections([], ChangedBeforeCompleted) == [];
    }
  }

  /**
   * The blended easing `animate` writes into the caller's options object on
   * an idle engine stays there: a later `animate` or `queue` passed the same
   * object (now busy, so nothing more is written) gives its record that
   * blended easing rather than the defaults' easing.
   */
  lemma ReusedOptionsKeepBlend(s: SchedulerState, t0: int, t1: int, f1: SinkId, f2: SinkId, o: Input,
                               math: Transcendentals)
    requires s.queue == []
    ensures var w := AnimateOptions(s, o, math);
      var blended := MergeCurveToLine(math.tan(s.tangent), Assign(s.defaults, o).easing, math.ease);
      var t := Animated(s, t0, f1, o, math);
      && w == o.(easing := Some(blended))
      && AnimateOptions(t, w, math) == w
      && Animated(t, t1, f2, w, math).queue[0].easing == blended
      && Queued(t, t1, f2, w).queue[0].easing == blended
  {
    AnimateStartsRecord(s, t0, f1, o, math);
  }

  /**
   * On a busy engine `animate` asks for a new frame without cancelling the
   * remembered one, so two frames are pending, and a later `pause` cancels
   * only the newer: the older frame still fires, ticking a paused engine.
   */
  lemma AnimateBusyTwoFrames(s: SchedulerState, now: int, fn: SinkId, o: Input, math: Transcendentals, later: int)
    requires Consistent(s) && s.queue != [] && s.nextFrame in s.pending
    ensures var t := Animated(s, now, fn, o, math);
      && s.nextFrame in t.pending && t.nextFrame in t.pending && t.nextFrame != s.nextFrame
      && Paused(t, later).paused && s.nextFrame in Paused(t, later).pending
  {
  }

  /**
   * Replacing a running head drops it: its promise was unsettled, nothing
   * settles it, and no queued record carries it any longer, so no later
   * operation can settle it either.
   */
  lemma AnimateDropsHead(s: SchedulerState, now: int, fn: SinkId, options: Input, math: Transcendentals)
    requires Consistent(s) && s.queue != []
    ensures var t := Animated(s, now, fn, options, math);
      && s.queue[0].promise !in SettledBy(t.log)
      && s.queue[0].promise !in Promises(t.queue)
  {
    var t := Animated(s, now, fn, options, math);
    forall i | 0 <= i < |t.queue| ensures t.queue[i].promise != s.queue[0].promise {
      if i > 0 {
        assert t.queue[i] == s.queue[i];
      }
    }
  }

  /**
   * `queue` on an empty queue appends the record without starting it: the
   * engine stays paused or running as it was, asks for no frame, and the
   * infinite-loop refusal is never taken, the loop total of an empty queue
   * being 0.
   */
  lemma QueueOnEmptyDoesNotStart(s: SchedulerState, now: int, fn: SinkId, options: Input)
    requires s.queue == []
    ensures var t := Queued(s, now, fn, options);
      && t.queue == [Validate(fn, s.promisesMade, options, s.defaults)]
      && t.paused == s.paused && t.pending == s.pending && t.framesRequested == s.framesRequested
      && t.log == s.log && t.promisesMade == s.promisesMade + 1
  {
  }

  /** On a non-empty queue, `queue` does exactly what `animate` does. */
  lemma QueueIsAnimateWhenBusy(s: SchedulerState, now: int, fn: SinkId, options: Input, math: Transcendentals)
    requires s.queue != []
    ensures Queued(s, now, fn, options) == Animated(s, now, fn, options, math)
  {
  }

  /**
   * Two `queue` calls on an idle engine: the first record is appended but not
   * started, and the second, finding the queue non-empty, overwrites it and
   * starts at once. The first record's promise is never settled and no
   * longer queued.
   */
  lemma QueueTwiceFromEmpty(s: SchedulerState, t0: int, t1: int, f1: SinkId, o1: Input, f2: SinkId, o2: Input)
    requires Consistent(s) && s.queue == []
    ensures var u := Queued(Queued(s, t0, f1, o1), t1, f2, o2);
      && u.queue == [Validate(f2, s.promisesMade + 1, o2, s.defaults).(startTime := t1)]
      && !u.paused && u.nextFrame in u.pending
      && u.log == s.log
      && s.promisesMade !in SettledBy(u.log) && s.promisesMade !in Promises(u.queue)
  {
    var t := Queued(s, t0, f1, o1);
    QueueOnEmptyDoesNotStart(s, t0, f1, o1);
    var u := Queued(t, t1, f2, o2);
    assert u.queue[0].promise == s.promisesMade + 1;
  }

  // ---------------------------------------------------------------------------
  // Pausing, resuming and clearing

  /** `pause`: when running, mark paused, note the time and cancel the remembered frame. */
  function Paused(s: SchedulerState, now: int): SchedulerState {
    if s.paused then s
    else s.(paused := true, pauseTime := now, pending := s.pending - {s.nextFrame})
  }

  /**
   * `resume`: when paused, mark running, shift the head's start by the time
   * spent paused and ask for a frame. On an empty queue JavaScript throws
   * when reading the head, after the flag has been cleared.
   */
  function Resumed(s: SchedulerState, now: int): SchedulerState {
    if !s.paused then s
    else if s.queue == [] then s.(paused := false)
    else
      var head := s.queue[0];
      WithFrame(s.(paused := false, queue := s.queue[0 := head.(startTime := head.startTime + (now - s.pauseTime))]))
  }

  /** `clearQueue`: keep at most the head, and on request set its loop count to 0. */
  function Cleared(s: SchedulerState, resetLoop: bool): SchedulerState {
    var kept := s.queue[..Min1(|s.queue|)];
    s.(queue := if resetLoop && kept != [] then kept[0 := kept[0].(loop := Finite(0.0))] else kept)
  }

  /** `slice(0, 1)` keeps min(1, length) elements. */
  function Min1(n: nat): nat {
    if n < 1 then n else 1
  }

  /** Pausing an engine that is already paused changes nothing. */
  lemma PauseIdempotent(s: SchedulerState, t1: int, t2: int)
    ensures Paused(Paused(s, t1), t2) == Paused(s, t1)
    ensures Paused(s, t1).paused
    ensures Paused(s, t1).queue == s.queue && Paused(s, t1).log == s.log
  {
  }

  /**
   * Pausing a running engine at `t1` and resuming it at `t2` leaves the head
   * as far into its pass at `t2` as it was at `t1`; nothing else in the queue
   * changes, and exactly one fresh frame is pending in place of the cancelled one.
   */
  lemma PauseResumeKeepsElapsed(s: SchedulerState, t1: int, t2: int)
    requires !s.paused && s.queue != []
    ensures var t := Resumed(Paused(s, t1), t2);
      && |t.queue| == |s.queue| && t.queue[1..] == s.queue[1..]
      && t.queue[0] == s.queue[0].(startTime := t.queue[0].startTime)
      && t2 - t.queue[0].startTime == t1 - s.queue[0].startTime
      && !t.paused
      && t.pending == (s.pending - {s.nextFrame}) + {s.framesRequested + 1}
      && t.log == s.log
  {
  }

  /** Resuming an engine that is running changes nothing. */
  lemma ResumeWhileRunning(s: SchedulerState, now: int)
    requires !s.paused
    ensures Resumed(s, now) == s
  {
  }

  /**
   * `clearQueue` keeps exactly the head, if any, and settles nothing: the
   * promises of the records it drops are left unsettled and no queued record
   * carries them any longer.
   */
  lemma ClearQueueDropsRest(s: SchedulerState, resetLoop: bool)
    requires Consistent(s)
    ensures var t := Cleared(s, resetLoop);
      && |t.queue| == (if s.queue == [] then 0 else 1)
      && (s.queue != [] ==> t.queue[0].promise == s.queue[0].promise
                            && (t.queue[0].loop == if resetLoop then Finite(0.0) else s.queue[0].loop))
      && t.log == s.log
      && forall i :: 1 <= i < |s.queue| ==>
           s.queue[i].promise !in SettledBy(t.log) && s.queue[i].promise !in Promises(t.queue)
  {
    var t := Cleared(s, resetLoop);
    forall i | 1 <= i < |s.queue|
      ensures s.queue[i].promise !in Promises(t.queue)
    {
      assert forall k :: 0 <= k < |t.queue| ==> t.queue[k].promise == s.queue[0].promise;
    }
  }

  lemma PausedConsistent(s: SchedulerState, now: int)
    requires Consistent(s)
    ensures Consistent(Paused(s, now))
  {
  }

  lemma ResumedConsistent(s: SchedulerState, now: int)
    requires Consistent(s)
    ensures Consistent(Resumed(s, now))
  {
    if s.paused && s.queue != [] {
      var head := s.queue[0];
      var q := s.queue[0 := head.(startTime := head.startTime + (now - s.pauseTime))];
      SamePromisesConsistent(s, q);
      WithFrameConsistent(s.(paused := false, queue := q));
    }
  }

  lemma ClearedConsistent(s: SchedulerState, resetLoop: bool)
    requires Consistent(s)
    ensures Consistent(Cleared(s, resetLoop))
  {
  }

  /**
   * No public operation ever puts a second record in the queue: `animate`
   * replaces the head and `queue` adds one only to an empty queue (or starts
   * it). The longer queues that `clearQueue`, `_rejectAll` and the `> 1`
   * branch of the loop handling cater for arise only from writing through
   * the array `currentQueue` hands out.
   */
  lemma AtMostOneRecord(s: SchedulerState, now: int, fn: SinkId, o: Input, math: Transcendentals,
                        reason: string, resetLoop: bool)
    requires |s.queue| <= 1
    ensures |Animated(s, now, fn, o, math).queue| == 1
    ensures |Queued(s, now, fn, o).queue| <= 1
    ensures |Stopped(s, reason).queue| == 0
    ensures |Paused(s, now).queue| <= 1 && |Resumed(s, now).queue| <= 1
    ensures |Cleared(s, resetLoop).queue| <= 1
    ensures s.queue != [] && s.queue[0].duration != 0.0 ==> |Ticked(s, now, math.atan2).queue| <= 1
  {
  }

  // ---------------------------------------------------------------------------
  // The engine

  class Animation {
    const math: Transcendentals

    var paused: bool
    var queue: seq<Record>
    var tangent: real
    var deltaTime: int
    var deltaValue: real
    var defaults: Options
    var nextFrame: int
    var pauseTime: int

    // the host's frame scheduler and promises
    var pending: set<int>
    var framesRequested: nat
    var promisesMade: nat
    var log: seq<Event>

    ghost function State(): SchedulerState
      reads this
    {
      SchedulerState(paused, queue, tangent, deltaTime, deltaValue, defaults, nextFrame, pauseTime,
                     pending, framesRequested, promisesMade, log)
    }

    ghost predicate Valid()
      reads this
    {
      Consistent(State())
    }

    /** An idle, paused engine whose defaults are the library's overridden by `defaults`. */
    constructor (defaults: Input, math: Transcendentals)
      ensures Valid() && this.math == math
      ensures State() == SchedulerState(true, [], 0.0, 0, 0.0, Assign(LibraryDefaults, defaults), -1, 0,
                                        {}, 0, 0, [])
    {
      this.math := math;
      paused := true;
      queue := [];
      tangent := 0.0;
      deltaTime := 0;
      deltaValue := 0.0;
      this.defaults := Assign(LibraryDefaults, defaults);
      nextFrame := -1;
      pauseTime := 0;
      pending := {};
      framesRequested := 0;
      promisesMade := 0;
      log := [];
    }

    /** `requestAnimationFrame(this._nextStep)`. */
    method RequestFrame()
      modifies this
      ensures State() == WithFrame(old(State()))
    {
      framesRequested := framesRequested + 1;
      nextFrame := framesRequested;
      pending := pending + {nextFrame};
    }

    /** `cancelAnimationFrame(frame)`. */
    method CancelFrame(frame: int)
      modifies this
      ensures State() == old(State()).(pending := old(pending) - {frame})
    {
      pending := pending - {frame};
    }

    /** `_startNext`. */
    method StartNext(now: int)
      requires queue != []
      modifies this
      ensures State() == Started(old(State()), now)
    {
      queue := queue[0 := queue[0].(startTime := now)];
      paused := false;
      deltaValue := StartValue(queue[0]);
      deltaTime := 0;
      RequestFrame();
    }

    /** `_rejectAll`: reject every queued record's promise, front to back. */
    method RejectAll(reason: string)
      modifies this
      ensures State() == old(State()).(log := old(log) + Rejections(old(queue), reason))
    {
      var i := 0;
      while i < |queue|
        invariant 0 <= i <= |queue|
        invariant State() == old(State()).(log := old(log) + Rejections(queue[..i], reason))
      {
        RejectionsSnoc(queue[..i + 1], reason);
        assert queue[..i + 1][..i] == queue[..i];
        log := log + [Rejected(queue[i].promise, reason)];
        i := i + 1;
      }
      assert queue[..i] == queue;
    }

    /** `_nextStep`, run by the host when frame `frame` fires. */
    method NextStep(now: int, frame: int) returns (r: Outcome)
      requires Valid() && frame in pending
      requires queue != [] ==> queue[0].duration != 0.0
      modifies this
      ensures Valid()
      ensures old(queue) == [] ==> r == ThrewTypeError && State() == old(State()).(pending := old(pending) - {frame})
      ensures old(queue) != [] ==>
        r == Returned && State() == Ticked(old(State()).(pending := old(pending) - {frame}), now, math.atan2)
    {
      CancelledConsistent(State(), frame);
      pending := pending - {frame};
      if queue == [] {
        return ThrewTypeError;
      }
      TickedConsistent(State(), now, math.atan2);
      Tick(now);
      r := Returned;
    }

    /** The body of `_nextStep` once the head has been read. */
    method Tick(now: int)
      requires queue != [] && queue[0].duration != 0.0
      modifies this
      ensures State() == Ticked(old(State()), now, math.atan2)
    {
      ghost var fired := State();
      var current := queue[0];
      var result := Render(now);
      ghost var rendered := State();
      if result.percentTime < 1.0 {
        RequestFrame();
      } else if current.loop.Truthy() {
        queue := queue[0 := current.(loop := current.loop.Decrement(), iterations := current.iterations + 1)];
        StartNext(now);
      } else {
        log := log + [Resolved(current.promise)];
        queue := queue[1..];
        assert State() == Finishing(rendered);
        if |queue| > 1 {
          StartNext(now);
        } else {
          paused := true;
        }
      }
    }

    /** The first half of `_nextStep`: resolve the head at `now`, track the deltas and call the sink. */
    method Render(now: int) returns (result: Resolution)
      requires queue != [] && queue[0].duration != 0.0
      modifies this
      ensures result == Resolve(old(queue[0]), now, old(deltaTime), old(deltaValue), math.atan2)
      ensures State() == Rendering(old(State()), result)
    {
      var current := queue[0];
      result := Resolve(current, now, deltaTime, deltaValue, math.atan2);
      tangent := result.tangent;
      deltaValue := result.deltaValue;
      deltaTime := result.deltaTime;
      log := log + [Rendered(current.fn, result.value, result)];
    }

    /** `loop(iterations, which)`: overwrite the loop count of the record at `which`. */
    method Loop(iterations: LoopCount := Finite(0.0), which: int := 0) returns (r: Outcome)
      requires Valid()
      modifies this
      ensures Valid()
      ensures 0 <= which < |old(queue)| ==>
        r == Returned && State() == old(State()).(queue := old(queue)[which := old(queue)[which].(loop := iterations)])
      ensures !(0 <= which < |old(queue)|) ==> r == ThrewTypeError && State() == old(State())
    {
      if !(0 <= which < |queue|) {
        return ThrewTypeError;
      }
      queue := queue[which := queue[which].(loop := iterations)];
      assert forall i :: 0 <= i < |queue| ==> queue[i].promise == old(queue)[i].promise;
      r := Returned;
    }

    /** `pause`. */
    method Pause(now: int)
      requires Valid()
      modifies this
      ensures Valid() && State() == Paused(old(State()), now)
    {
      PausedConsistent(State(), now);
      if !paused {
        paused := true;
        pauseTime := now;
        CancelFrame(nextFrame);
      }
    }

    /** `resume`; reading the head of an empty queue throws. */
    method Resume(now: int) returns (r: Outcome)
      requires Valid()
      modifies this
      ensures Valid() && State() == Resumed(old(State()), now)
      ensures r == ThrewTypeError <==> old(paused) && old(queue) == []
    {
      ResumedConsistent(State(), now);
      r := Returned;
      if paused {
        paused := false;
        if queue == [] {
          return ThrewTypeError;
        }
        queue := queue[0 := queue[0].(startTime := queue[0].startTime + (now - pauseTime))];
        RequestFrame();
      }
    }

    /** `animate`; `written` is the caller's options object as the call leaves it. */
    method Animate(now: int, fn: SinkId, options: Input := NoInput) returns (p: PromiseId, written: Input)
      requires Valid()
      modifies this
      ensures Valid() && p == old(promisesMade)
      ensures written == AnimateOptions(old(State()), options, math)
      ensures State() == Animated(old(State()), now, fn, options, math)
    {
      AnimatedConsistent(State(), now, fn, options, math);
      var opts := options;
      if |queue| < 1 {
        Stop(ChangedBeforeCompleted);
        defaults := Assign(defaults, options);
        opts := opts.(easing := Some(MergeCurveToLine(math.tan(tangent), defaults.easing, math.ease)));
      }
      p := promisesMade;
      var record := Validate(fn, p, opts, defaults);
      PutHead(record);
      StartNext(now);
      written := opts;
    }

    /** `new Promise` for `record`, then `this._queue[0] = record`. */
    method PutHead(record: Record)
      modifies this
      ensures State() == WithHead(old(State()), record)
    {
      promisesMade := promisesMade + 1;
      queue := if queue == [] then [record] else queue[0 := record];
    }

    /** `queue`. */
    method Queue(now: int, fn: SinkId, options: Input := NoInput) returns (p: PromiseId)
      requires Valid()
      modifies this
      ensures Valid() && p == old(promisesMade)
      ensures State() == Queued(old(State()), now, fn, options)
    {
      QueuedConsistent(State(), now, fn, options);
      p := promisesMade;
      var record := Validate(fn, p, options, defaults);
      if |queue| < 1 {
        promisesMade := promisesMade + 1;
        var refused := LoopSum(queue).Infinite?;
        assert !refused;
        log := log + if refused then [Rejected(p, LoopsForever)] else [];
        queue := queue + if refused then [] else [record];
        assert log == old(log) && queue == [record];
      } else {
        PutHead(record);
        StartNext(now);
      }
    }

    /** `clearQueue`; with `resetLoop`, `loop(0)` on an empty queue throws. */
    method ClearQueue(resetLoop: bool := false) returns (r: Outcome)
      requires Valid()
      modifies this
      ensures Valid() && State() == Cleared(old(State()), resetLoop)
      ensures r == ThrewTypeError <==> resetLoop && old(queue) == []
    {
      ClearedConsistent(State(), resetLoop);
      queue := queue[..Min1(|queue|)];
      r := Returned;
      if resetLoop {
        r := Loop(Finite(0.0), 0);
      }
    }

    /** `stop`: cancel the remembered frame, reject every queued record with `reason`, empty the queue. */
    method Stop(reason: string := StopManually)
      requires Valid()
      modifies this
      ensures Valid() && State() == Stopped(old(State()), reason)
    {
      StoppedConsistent(State(), reason);
      CancelFrame(nextFrame);
      RejectAll(reason);
      queue := [];
      paused := true;
    }
  }

}
