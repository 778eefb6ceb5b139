/** The map page's guarded operations: the retry schedule of `scheduleMapOp`,
    the per-layer tile-loading counter, and the test that decides whether new
    workbench bounds move the map. */
module MapOps {
  import opened Js
  import opened Layers
  import opened DatasetLayers

  // ---------------------------------------------------------------------------
  // scheduleMapOp

  /** What running the operation does once the map is ready. */
  datatype OpResult = Completes | ThrowsLeafletPos | ThrowsOther

  /** The map as `scheduleMapOp` sees it at one attempt: gone, not yet usable
      (hidden, zero-sized, animating or not loaded), or usable, in which case
      the operation is run with the given result. */
  datatype Probe = NoMap | NotReady | Ready(result: OpResult)

  /** The calls one `scheduleMapOp(fn, attempt)` makes: the delays of the
      timers it re-arms, in order, how many times it runs `fn`, and whether
      `fn` finally completes. */
  datatype Schedule = Schedule(delays: seq<int>, runs: nat, completed: bool)

  const ReadyRetries: nat := 15
  const PosRetries: nat := 10

  function Later(delay: int, rest: Schedule): Schedule {
    Schedule([delay] + rest.delays, rest.runs, rest.completed)
  }

  /** `scheduleMapOp` with the timers unfolded: `probe(a)` is the map's state
      when attempt `a` fires. */
  function ScheduleMapOp(probe: nat -> Probe, attempt: nat): (s: Schedule)
    ensures attempt <= ReadyRetries ==> |s.delays| <= ReadyRetries - attempt
    ensures attempt > ReadyRetries ==> s.delays == []
    ensures s.runs <= if attempt <= PosRetries then PosRetries + 1 - attempt else 1
    ensures s.completed ==> s.runs >= 1
    decreases if attempt <= ReadyRetries then ReadyRetries - attempt else 0
  {
    match probe(attempt)
    case NoMap => Schedule([], 0, false)
    case NotReady =>
      if attempt < ReadyRetries then Later(100 + 40 * attempt, ScheduleMapOp(probe, attempt + 1))
      else Schedule([], 0, false)
    case Ready(Completes) => Schedule([], 1, true)
    case Ready(ThrowsLeafletPos) =>
      if attempt < PosRetries then
        var rest := ScheduleMapOp(probe, attempt + 1);
        Schedule([120 * (attempt + 1)] + rest.delays, rest.runs + 1, rest.completed)
      else Schedule([], 1, false)
    case Ready(ThrowsOther) => Schedule([], 1, false)
  }

  /** A map that is usable at once runs the operation once, without a timer. */
  lemma ReadyRunsOnce(probe: nat -> Probe)
    requires probe(0) == Ready(Completes)
    ensures ScheduleMapOp(probe, 0) == Schedule([], 1, true)
  {
  }

  /** A map that never becomes usable re-arms exactly the timers
      100, 140, ..., 660 ms from a fresh start and never runs the operation. */
  lemma {:induction false} NeverReadyDelays(probe: nat -> Probe, attempt: nat)
    requires attempt <= ReadyRetries
    requires forall a :: probe(a) == NotReady
    ensures ScheduleMapOp(probe, attempt) ==
      Schedule(seq(ReadyRetries - attempt, k => 100 + 40 * (attempt + k)), 0, false)
    decreases ReadyRetries - attempt
  {
    if attempt < ReadyRetries {
      NeverReadyDelays(probe, attempt + 1);
      var tail := seq(ReadyRetries - (attempt + 1), k => 100 + 40 * (attempt + 1 + k));
      assert [100 + 40 * attempt] + tail == seq(ReadyRetries - attempt, k => 100 + 40 * (attempt + k));
    }
  }

  /** An operation that always trips over `_leaflet_pos` is run eleven times
      from a fresh start, with the timers 120, 240, ..., 1200 ms between runs. */
  lemma {:induction false} AlwaysPosErrorDelays(probe: nat -> Probe, attempt: nat)
    requires attempt <= PosRetries
    requires forall a :: probe(a) == Ready(ThrowsLeafletPos)
    ensures ScheduleMapOp(probe, attempt) ==
      Schedule(seq(PosRetries - attempt, k => 120 * (attempt + k + 1)), PosRetries + 1 - attempt, false)
    decreases PosRetries - attempt
  {
    if attempt < PosRetries {
      AlwaysPosErrorDelays(probe, attempt + 1);
      var tail := seq(PosRetries - (attempt + 1), k => 120 * (attempt + 1 + k + 1));
      assert [120 * (attempt + 1)] + tail == seq(PosRetries - attempt, k => 120 * (attempt + k + 1));
    }
  }

  // ---------------------------------------------------------------------------
  // addLayerWithLoading

  /** The tile lifecycle listeners `addLayerWithLoading` attaches to one layer.
      `calls` records the arguments passed to `setLoading`. */
  class LoadingTracker {
    var pending: nat
    var calls: seq<bool>

    /** The loader was last switched on exactly while tiles are pending. */
    predicate Valid()
      reads this
    {
      (pending > 0 ==> |calls| > 0 && calls[|calls| - 1]) &&
      (pending == 0 && |calls| > 0 ==> !calls[|calls| - 1])
    }

    constructor ()
      ensures Valid() && pending == 0 && calls == []
    {
      pending := 0;
      calls := [];
    }

    /** `tileloadstart`: the first pending tile switches the loader on. */
    method OnStart()
      requires Valid()
      modifies this
      ensures Valid()
      ensures pending == old(pending) + 1
      ensures calls == if old(pending) == 0 then old(calls) + [true] else old(calls)
    {
      pending := pending + 1;
      if pending == 1 {
        calls := calls + [true];
      }
    }

    /** `tileload` or `tileerror`: the count drops, never below 0, and the
        loader goes off when it reaches 0. */
    method OnEnd()
      requires Valid()
      modifies this
      ensures Valid()
      ensures pending == if old(pending) == 0 then 0 else old(pending) - 1
      ensures calls == if pending == 0 then old(calls) + [false] else old(calls)
    {
      pending := if pending == 0 then 0 else pending - 1;
      if pending == 0 {
        calls := calls + [false];
      }
    }

    /** `load`: everything visible is in, so the count resets and the loader goes off. */
    method OnLoadAll()
      requires Valid()
      modifies this
      ensures Valid()
      ensures pending == 0 && calls == old(calls) + [false]
    {
      pending := 0;
      calls := calls + [false];
    }
  }

  // ---------------------------------------------------------------------------
  // Moving the map to new bounds

  function AbsDiff(a: real, b: real): (d: real)
    ensures d >= 0.0 && (d == a - b || d == b - a)
  {
    if a >= b then a - b else b - a
  }

  /** `areBoundsDifferent`: some edge moved by more than 0.01 degrees. */
  predicate BoundsDifferent(current: Bounds, target: Bounds) {
    AbsDiff(current.west, target.west) > 0.01 || AbsDiff(current.east, target.east) > 0.01 ||
    AbsDiff(current.south, target.south) > 0.01 || AbsDiff(current.north, target.north) > 0.01
  }

  /** The difference test is symmetric, and bounds within 0.01 on every edge
      (in particular equal ones) never move the map. */
  lemma BoundsDifferentTolerance(a: Bounds, b: Bounds)
    ensures BoundsDifferent(a, b) <==> BoundsDifferent(b, a)
    ensures !BoundsDifferent(a, a)
    ensures (-0.01 <= a.west - b.west <= 0.01 && -0.01 <= a.east - b.east <= 0.01 &&
             -0.01 <= a.south - b.south <= 0.01 && -0.01 <= a.north - b.north <= 0.01)
            <==> !BoundsDifferent(a, b)
  {
  }

  /** The bounds effect: with a map and bounds in the store, a significant
      change fits the map to `[[south, west], [north, east]]`. */
  function BoundsEffect(mapReady: bool, current: Bounds, target: Option<Bounds>): (e: Option<Effect>)
    ensures e.Some? <==> mapReady && target.Some? && BoundsDifferent(current, target.value)
    ensures e.Some? ==> e.value == FitBounds(target.value.south, target.value.east, target.value.north, target.value.west)
  {
    if mapReady && target.Some? && BoundsDifferent(current, target.value) then
      Some(FitBounds(target.value.south, target.value.east, target.value.north, target.value.west))
    else None
  }
}
