/** The time slider of one time-series layer: timestamps in integer
    milliseconds between the layer's start and end, stepped by the layer's
    interval, with next/previous buttons that wrap and a play loop that stops
    at the end. Each change of the slider's date is written back to the layer
    as its new start time. */
module RangeSlider {
  import opened Js
  import opened Numbers
  import opened Layers

  const HourMs: int := 3600000

  /** `parseInt(interval_step, 10) * 3600000`: the step in milliseconds. */
  function Period(intervalStep: int): (p: int)
    ensures p == intervalStep * HourMs
  {
    ParseIntOfIntToString(intervalStep);
    ParseInt(IntToString(intervalStep)).GetOr(0) * HourMs
  }

  /** `handleNextClick`'s value: one step on, back to the start past the end. */
  function NextValue(v: int, minTs: int, maxTs: int, period: int): (r: int)
    ensures v + period > maxTs ==> r == minTs
    ensures v + period <= maxTs ==> r == v + period
  {
    if v + period > maxTs then minTs else v + period
  }

  /** `handlePreviousClick`'s value: one step back, on to the end before the start. */
  function PreviousValue(v: int, minTs: int, maxTs: int, period: int): (r: int)
    ensures v - period < minTs ==> r == maxTs
    ensures v - period >= minTs ==> r == v - period
  {
    if v - period < minTs then maxTs else v - period
  }

  /** The play timer's value: one step on, held at the end once it would pass
      it; `stop` says the timer ends. */
  datatype Tick = Tick(value: int, stop: bool)

  function PlayTick(v: int, endTs: int, period: int): (t: Tick)
    ensures t.stop <==> v + period > endTs
    ensures t.value == if t.stop then endTs else v + period
  {
    if v + period > endTs then Tick(endTs, true) else Tick(v + period, false)
  }

  /** Stepping either way from inside the range stays inside it. */
  lemma StepsStayInRange(v: int, minTs: int, maxTs: int, period: int)
    requires minTs <= v <= maxTs && period >= 0
    ensures minTs <= NextValue(v, minTs, maxTs, period) <= maxTs
    ensures minTs <= PreviousValue(v, minTs, maxTs, period) <= maxTs
  {
  }

  /** Playing never wraps: the value never goes back, and never passes the end
      once it is at most the end. */
  lemma PlayNeverWraps(v: int, endTs: int, period: int)
    requires period >= 0 && v <= endTs
    ensures v <= PlayTick(v, endTs, period).value <= endTs
  {
  }

  /** Next undoes previous away from the ends. */
  lemma NextUndoesPrevious(v: int, minTs: int, maxTs: int, period: int)
    requires minTs <= v - period && v <= maxTs
    ensures NextValue(PreviousValue(v, minTs, maxTs, period), minTs, maxTs, period) == v
  {
  }

  /** The values of at most `n` ticks of play from `v`; the run ends early
      when a tick stops the timer. */
  function PlayRun(v: int, endTs: int, period: int, n: nat): (vs: seq<int>)
    ensures |vs| <= n
    decreases n
  {
    if n == 0 then []
    else
      var t := PlayTick(v, endTs, period);
      [t.value] + (if t.stop then [] else PlayRun(t.value, endTs, period, n - 1))
  }

  /** A run of ticks never goes back and never passes the end, and a run that
      stops early stops at the end. */
  lemma {:induction false} PlayRunBounded(v: int, endTs: int, period: int, n: nat)
    requires period >= 0
    ensures var vs := PlayRun(v, endTs, period, n);
      (forall k :: 0 <= k < |vs| ==> vs[k] <= endTs) &&
      (forall k :: 0 <= k < |vs| - 1 ==> vs[k] <= vs[k + 1]) &&
      (0 < |vs| < n ==> vs[|vs| - 1] == endTs)
    decreases n
  {
    if n > 0 {
      var t := PlayTick(v, endTs, period);
      if !t.stop {
        PlayRunBounded(t.value, endTs, period, n - 1);
        var rest := PlayRun(t.value, endTs, period, n - 1);
        assert PlayRun(v, endTs, period, n) == [t.value] + rest;
        assert |rest| > 0 ==> t.value <= rest[0] by {
          if n - 1 > 0 {
            assert rest[0] == PlayTick(t.value, endTs, period).value;
          }
        }
      }
    }
  }

  /** The layer update a slider change dispatches: the new start time, and no
      zoom to the layer. */
  function SliderUpdate(info: LayerInfo, start: string): (u: LayerInfo)
    ensures u.timeIntervalStart == start && !u.zoomToLayer
    ensures u.(timeIntervalStart := info.timeIntervalStart, zoomToLayer := info.zoomToLayer) == info
  {
    info.(timeIntervalStart := start, zoomToLayer := false)
  }

  // ---------------------------------------------------------------------------
  // The range input
  //
  // `<input type="range" min={minTs} max={maxTs} step={period}>` never holds an
  // arbitrary number: the HTML Standard's value sanitization for the range
  // state sets an underflow to the minimum and an overflow to the maximum, and
  // rounds a value between step points to the nearest step point in range,
  // taking the upper one on a tie. The handlers read the value back from the
  // element, so the snapped value is what the next step starts from.

  /** The step the input uses: `step={period}`, or the default step 1 when
      the period is zero or negative. */
  function StepOf(period: int): (s: int)
    ensures s > 0
    ensures period > 0 ==> s == period
  {
    if period > 0 then period else 1
  }

  /** The `j`-th step point of an input whose step base is its minimum `lo`. */
  function GridPoint(lo: int, s: int, j: int): int {
    lo + j * s
  }

  /** `x` lies in the input's range: at least `lo`, and at most `hi` unless the range is empty. */
  predicate InRange(x: int, lo: int, hi: int) {
    lo <= x && (lo <= hi ==> x <= hi)
  }

  /** The distance between two timestamps. */
  function Dist(a: int, b: int): nat {
    if a <= b then b - a else a - b
  }

  /** An underflow becomes the minimum and an overflow the maximum. */
  function Clamp(v: int, lo: int, hi: int): (c: int)
    ensures InRange(c, lo, hi)
    ensures InRange(v, lo, hi) ==> c == v
  {
    if v < lo then lo else if lo <= hi && v > hi then hi else v
  }

  /** Division by the step finds the step point at or below `d`. */
  lemma FloorStep(d: int, s: int)
    requires d >= 0 && s > 0
    ensures d / s >= 0
    ensures (d / s) * s <= d < (d / s) * s + s
  {
  }

  /** Consecutive step points are one step apart. */
  lemma NextPoint(lo: int, s: int, j: int)
    ensures GridPoint(lo, s, j + 1) == GridPoint(lo, s, j) + s
  {
    assert (j + 1) * s == j * s + s;
  }

  /** A product of two non-negative numbers is non-negative. */
  lemma MulNonneg(a: int, b: int)
    requires a >= 0 && b >= 0
    ensures a * b >= 0
  {
  }

  /** A later step point lies at least one step above an earlier one. */
  lemma PointsApart(lo: int, s: int, i: int, j: int)
    requires s > 0 && i < j
    ensures GridPoint(lo, s, i) + s <= GridPoint(lo, s, j)
  {
    var d := j - i - 1;
    MulNonneg(d, s);
    assert j * s - i * s == (d + 1) * s == d * s + s;
  }

  /** The step point at or below the clamped value. */
  function Below(c: int, lo: int, s: int): (q: int)
    requires lo <= c && s > 0
    ensures q >= 0
    ensures GridPoint(lo, s, q) <= c < GridPoint(lo, s, q) + s
  {
    FloorStep(c - lo, s);
    (c - lo) / s
  }

  /** `x` is a step point of an input with step base `lo` and step `s`. */
  ghost predicate OnGrid(x: int, lo: int, s: int) {
    exists j :: x == GridPoint(lo, s, j)
  }

  /** The value the input holds after `v` is written to it. */
  function Snap(v: int, lo: int, hi: int, period: int): (r: int)
    ensures InRange(r, lo, hi)
    ensures OnGrid(r, lo, StepOf(period))
  {
    var s := StepOf(period);
    var c := Clamp(v, lo, hi);
    var q := Below(c, lo, s);
    var down := GridPoint(lo, s, q);
    NextPoint(lo, s, q);
    if 2 * (c - down) >= s && (hi < lo || down + s <= hi) then
      assert OnGrid(GridPoint(lo, s, q + 1), lo, s);
      GridPoint(lo, s, q + 1)
    else
      assert OnGrid(down, lo, s);
      assert lo <= down by { MulNonneg(q, s); }
      down
  }

  /** No step point in range is nearer to the clamped value than the value
      the input keeps, and on a tie the input keeps the upper one. */
  lemma SnapIsNearest(v: int, lo: int, hi: int, period: int, j: int)
    requires InRange(GridPoint(lo, StepOf(period), j), lo, hi)
    ensures var g := GridPoint(lo, StepOf(period), j);
      var c := Clamp(v, lo, hi);
      var r := Snap(v, lo, hi, period);
      Dist(r, c) <= Dist(g, c) && (Dist(r, c) == Dist(g, c) ==> g <= r)
  {
    var s := StepOf(period);
    var c := Clamp(v, lo, hi);
    var q := Below(c, lo, s);
    NextPoint(lo, s, q);
    if j < q {
      PointsApart(lo, s, j, q);
    } else if j > q + 1 {
      PointsApart(lo, s, q + 1, j);
    }
  }

  /** A step point in range is kept as it is. */
  lemma SnapKeepsStepPoints(lo: int, hi: int, period: int, j: int)
    requires InRange(GridPoint(lo, StepOf(period), j), lo, hi)
    ensures Snap(GridPoint(lo, StepOf(period), j), lo, hi, period) == GridPoint(lo, StepOf(period), j)
  {
    var s := StepOf(period);
    var g := GridPoint(lo, s, j);
    var q := Below(g, lo, s);
    NextPoint(lo, s, q);
    if j < q {
      PointsApart(lo, s, j, q);
    } else if j > q {
      PointsApart(lo, s, q, j);
    }
  }

  /** When the range is not a whole number of steps, the wrap of Previous and
      the end of play land on the last step point below the end, and the
      next Previous steps back from there: with a range of 0 to 10 and a step
      of 4, Previous from 0 leaves the input at 8, and the Previous after
      that goes to 4. */
  lemma WrapLandsOnLastStep()
    ensures PreviousValue(0, 0, 10, 4) == 10 && Snap(10, 0, 10, 4) == 8
    ensures PlayTick(8, 10, 4).value == 10
    ensures PreviousValue(Snap(10, 0, 10, 4), 0, 10, 4) == 4
  {
  }

  /** One slider: the value the input element holds, the component's date
      state, whether it is playing, whether the interval timer still fires,
      whether an interval id is stored, the layer information the last render
      received, and the layer updates dispatched so far. The timestamp
      formatter is a parameter. */
  class Slider {
    const minTs: int
    const maxTs: int
    const period: int
    var info: LayerInfo
    const format: int -> string
    var value: int
    var sliderValue: int
    var playing: bool
    var ticking: bool
    var intervalStored: bool
    var dispatched: seq<LayerInfo>

    /** The input holds a step point in range, the component plays exactly
        while its timer fires, and a firing timer has its id stored. */
    ghost predicate Valid()
      reads this
    {
      InRange(value, minTs, maxTs) && OnGrid(value, minTs, StepOf(period)) &&
      playing == ticking && (ticking ==> intervalStored)
    }

    /** Mounting: the input and the date start at the layer's start, and the
        first render dispatches it. */
    constructor (startTs: int, endTs: int, i: LayerInfo, fmt: int -> string)
      ensures Valid()
      ensures minTs == startTs && maxTs == endTs && info == i && format == fmt
      ensures period == Period(i.interval_step)
      ensures value == startTs && sliderValue == startTs && !playing && !intervalStored
      ensures dispatched == [SliderUpdate(i, fmt(startTs))]
    {
      minTs := startTs;
      maxTs := endTs;
      period := Period(i.interval_step);
      info := i;
      format := fmt;
      value := startTs;
      sliderValue := startTs;
      playing := false;
      ticking := false;
      intervalStored := false;
      dispatched := [SliderUpdate(i, fmt(startTs))];
      new;
      assert value == GridPoint(minTs, StepOf(period), 0);
    }

    /** Setting the date state; the effect that follows dispatches the update. */
    method SetSliderValue(v: int)
      modifies this
      ensures sliderValue == v && dispatched == old(dispatched) + [SliderUpdate(info, format(v))]
      ensures value == old(value) && playing == old(playing) && ticking == old(ticking)
      ensures intervalStored == old(intervalStored) && info == old(info)
    {
      sliderValue := v;
      dispatched := dispatched + [SliderUpdate(info, format(v))];
    }

    /** A re-render with the parent's current layer information (another
        control changed a colour range, the opacity, ...). The date state, the
        range and the period are mount-time state and stay; the dispatching
        effect depends on the date state only, so nothing is dispatched, but
        every later update spreads the new information. */
    method Rerender(i: LayerInfo)
      requires Valid()
      modifies this
      ensures Valid()
      ensures info == i
      ensures value == old(value) && sliderValue == old(sliderValue) && dispatched == old(dispatched)
      ensures playing == old(playing) && ticking == old(ticking) && intervalStored == old(intervalStored)
    {
      info := i;
    }

    /** `handleSliderChange`: the input reports the value `v` it was dragged
        to; the date state takes it and the re-render writes it back into
        the input. */
    method Drag(v: int)
      requires Valid()
      modifies this
      ensures Valid()
      ensures value == Snap(v, minTs, maxTs, period) && sliderValue == v
      ensures dispatched == old(dispatched) + [SliderUpdate(info, format(v))]
      ensures playing == old(playing) && ticking == old(ticking) && intervalStored == old(intervalStored)
      ensures info == old(info)
    {
      value := Snap(v, minTs, maxTs, period);
      SetSliderValue(v);
    }

    /** `handleNextClick`: one step on from the value the input holds; the
        date state takes the computed value and the input snaps it. */
    method Next()
      requires Valid()
      modifies this
      ensures Valid()
      ensures sliderValue == NextValue(old(value), minTs, maxTs, period)
      ensures value == Snap(sliderValue, minTs, maxTs, period)
      ensures dispatched == old(dispatched) + [SliderUpdate(info, format(sliderValue))]
      ensures playing == old(playing) && ticking == old(ticking) && intervalStored == old(intervalStored)
      ensures info == old(info)
    {
      var newValue := value + period;
      if newValue > maxTs {
        newValue := minTs;
      }
      value := Snap(newValue, minTs, maxTs, period);
      SetSliderValue(newValue);
    }

    /** `handlePreviousClick`: one step back from the value the input holds. */
    method Previous()
      requires Valid()
      modifies this
      ensures Valid()
      ensures sliderValue == PreviousValue(old(value), minTs, maxTs, period)
      ensures value == Snap(sliderValue, minTs, maxTs, period)
      ensures dispatched == old(dispatched) + [SliderUpdate(info, format(sliderValue))]
      ensures playing == old(playing) && ticking == old(ticking) && intervalStored == old(intervalStored)
      ensures info == old(info)
    {
      var newValue := value - period;
      if newValue < minTs {
        newValue := maxTs;
      }
      value := Snap(newValue, minTs, maxTs, period);
      SetSliderValue(newValue);
    }

    /** `handlePlayClick`: starts the timer when paused; pauses and clears a
        stored timer when playing. */
    method TogglePlay()
      requires Valid()
      modifies this
      ensures Valid()
      ensures !old(playing) ==> playing && ticking && intervalStored
      ensures old(playing) ==> !playing && !ticking && !intervalStored
      ensures value == old(value) && sliderValue == old(sliderValue) && dispatched == old(dispatched)
      ensures info == old(info)
    {
      if !playing {
        playing := true;
        ticking := true;
        intervalStored := true;
      } else {
        playing := false;
        if intervalStored {
          ticking := false;
          intervalStored := false;
        }
      }
    }

    /** One firing of the play timer, stepping on from the value the input holds. */
    method Tick()
      requires Valid() && ticking
      modifies this
      ensures Valid()
      ensures var t := PlayTick(old(value), maxTs, period);
        sliderValue == t.value && value == Snap(t.value, minTs, maxTs, period) &&
        playing == !t.stop && ticking == !t.stop
      ensures dispatched == old(dispatched) + [SliderUpdate(info, format(sliderValue))]
      ensures intervalStored == old(intervalStored) && info == old(info)
    {
      var newValue := value + period;
      if newValue > maxTs {
        newValue := maxTs;
        ticking := false;
        playing := false;
      }
      value := Snap(newValue, minTs, maxTs, period);
      SetSliderValue(newValue);
    }
  }
}
