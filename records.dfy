/**
 * The data an animation is described by: the caller's partial options, the
 * engine's complete defaults, the validated record the scheduler queues, and
 * the validation predicates.
 *
 * JavaScript numbers are exact reals here; `Date.now()` timestamps are
 * integers of milliseconds. The only non-finite number modelled is the loop
 * count `Infinity`.
 */
module AnimationRecords {
  import opened Curves

  datatype Option<T> = None | Some(value: T)

  /** The value of an optional field, or `dflt` when the field is absent. */
  function Pick<T>(o: Option<T>, dflt: T): T {
    match o
    case Some(v) => v
    case None => dflt
  }

  /** How many more times a record restarts once it reaches its end. */
  datatype LoopCount = Finite(n: real) | Infinite {

    /** JavaScript truthiness of the number: any value but 0 (Infinity included). */
    predicate Truthy() {
      Infinite? || n != 0.0
    }

    /** `loop--`: Infinity minus one is still Infinity. */
    function Decrement(): LoopCount {
      match this
      case Finite(k) => Finite(k - 1.0)
      case Infinite => Infinite
    }
  }

  /** `isNatural`: a positive whole number. */
  predicate IsNatural(x: real): (b: bool)
    ensures b ==> x >= 1.0
  {
    x > 0.0 && x.Floor as real == x
  }

  /** `isWhole`: a natural number, zero, or Infinity. */
  predicate IsWhole(l: LoopCount): (b: bool)
    ensures b ==> l.Infinite? || l.n >= 0.0
  {
    match l
    case Infinite => true
    case Finite(n) => IsNatural(n) || n == 0.0
  }

  /** The complete option set: engine defaults, and what a record resolves to. */
  datatype Options = Options(
    duration: real,
    easing: Curve,
    loop: LoopCount,
    alternate: bool,
    start: real,
    target: real)

  /** Options as the caller passes them: every field may be absent. */
  datatype Input = Input(
    duration: Option<real>,
    easing: Option<Curve>,
    loop: Option<LoopCount>,
    alternate: Option<bool>,
    start: Option<real>,
    target: Option<real>)

  /** The empty options object `{}`. */
  const NoInput: Input := Input(None, None, None, None, None, None)

  /** The library's built-in defaults, which the constructor's argument overrides. */
  const LibraryDefaults: Options := Options(300.0, Linear, Finite(0.0), false, 0.0, 1.0)

  /** Every field of `r` is the one `i` gives when present, and `d`'s otherwise. */
  ghost predicate Overlays(r: Options, i: Input, d: Options) {
    && (if i.duration.Some? then r.duration == i.duration.value else r.duration == d.duration)
    && (if i.easing.Some? then r.easing == i.easing.value else r.easing == d.easing)
    && (if i.loop.Some? then r.loop == i.loop.value else r.loop == d.loop)
    && (if i.alternate.Some? then r.alternate == i.alternate.value else r.alternate == d.alternate)
    && (if i.start.Some? then r.start == i.start.value else r.start == d.start)
    && (if i.target.Some? then r.target == i.target.value else r.target == d.target)
  }

  /** `Object.assign(d, i)`: the fields `i` carries replace those of `d`. */
  function Assign(d: Options, i: Input): (r: Options)
    ensures Overlays(r, i, d)
  {
    Options(
      Pick(i.duration, d.duration),
      Pick(i.easing, d.easing),
      Pick(i.loop, d.loop),
      Pick(i.alternate, d.alternate),
      Pick(i.start, d.start),
      Pick(i.target, d.target))
  }

  /** Assigning the same options twice changes nothing more than assigning them once. */
  lemma AssignIdempotent(d: Options, i: Input)
    ensures Assign(Assign(d, i), i) == Assign(d, i)
  {
  }

  /** The opaque per-tick callback `fn` a record renders through. */
  type SinkId = nat

  /** The promise whose continuations a record settles. */
  type PromiseId = nat

  /** A validated animation record. */
  datatype Record = Record(
    fn: SinkId,
    promise: PromiseId,
    duration: real,
    easing: Curve,
    loop: LoopCount,
    alternate: bool,
    start: real,
    target: real,
    startTime: int,
    iterations: nat)
  {
    /** The option fields of the record. */
    function AsOptions(): Options {
      Options(duration, easing, loop, alternate, start, target)
    }
  }

  /**
   * `_validate`: the record for `fn` and `promise`, taking each option from
   * `i` when present and from `defaults` otherwise, not yet started and in
   * its first pass. Validation never refuses: the checks of `Checked` only
   * produce diagnostics.
   */
  function Validate(fn: SinkId, promise: PromiseId, i: Input, defaults: Options): (r: Record)
    ensures Overlays(r.AsOptions(), i, defaults)
    ensures r.fn == fn && r.promise == promise
    ensures r.startTime == 0 && r.iterations == 0
  {
    var o := Assign(defaults, i);
    Record(fn, promise, o.duration, o.easing, o.loop, o.alternate, o.start, o.target, 0, 0)
  }

  /**
   * The checks `_validate` reports on that can fail in this model: the
   * duration is a positive whole number and the loop count is whole. (That
   * `fn` and `easing` are functions and `alternate` a boolean is what the
   * types here already say.)
   */
  predicate Checked(o: Options) {
    IsNatural(o.duration) && IsWhole(o.loop)
  }

  /** The library defaults pass validation. */
  lemma LibraryDefaultsChecked()
    ensures Checked(LibraryDefaults)
  {
  }

  /** Checked defaults and checked supplied fields give a checked record. */
  lemma ValidateChecked(fn: SinkId, promise: PromiseId, i: Input, defaults: Options)
    requires Checked(defaults)
    requires i.duration.Some? ==> IsNatural(i.duration.value)
    requires i.loop.Some? ==> IsWhole(i.loop.value)
    ensures Checked(Validate(fn, promise, i, defaults).AsOptions())
  {
  }

  /**
   * Validating against defaults that the same options were already assigned
   * into gives exactly those updated defaults.
   */
  lemma ValidateAfterAssign(fn: SinkId, promise: PromiseId, i: Input, d: Options)
    ensures Validate(fn, promise, i, Assign(d, i)).AsOptions() == Assign(d, i)
  {
  }

  /** The number of `Decrement`s applied to `l`. */
  function DecrementedTimes(l: LoopCount, k: nat): LoopCount {
    if k == 0 then l else DecrementedTimes(l, k - 1).Decrement()
  }

  /**
   * A record whose loop count is the whole number `n` is still truthy after
   * each of its first `n` restarts' decrements and falsy after the `n`-th:
   * it restarts exactly `n` times, so it runs `n + 1` passes.
   */
  lemma {:induction false} FiniteLoopRestarts(n: nat, k: nat)
    requires k <= n
    ensures DecrementedTimes(Finite(n as real), k) == Finite((n - k) as real)
    ensures DecrementedTimes(Finite(n as real), k).Truthy() <==> k < n
  {
    if k > 0 {
      FiniteLoopRestarts(n, k - 1);
    }
  }

  /** An infinite loop count never becomes falsy. */
  lemma {:induction false} InfiniteLoopRestarts(k: nat)
    ensures DecrementedTimes(Infinite, k) == Infinite
  {
    if k > 0 {
      InfiniteLoopRestarts(k - 1);
    }
  }

  /** Decrementing a truthy whole loop count keeps it whole. */
  lemma DecrementKeepsWhole(l: LoopCount)
    requires IsWhole(l) && l.Truthy()
    ensures IsWhole(l.Decrement())
  {
    if l.Finite? {
      assert l.n >= 1.0;
      var k := l.n.Floor;
      assert (k - 1) as real == l.n - 1.0;
      assert (l.n - 1.0).Floor == k - 1;
    }
  }
}
