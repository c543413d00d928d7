/**
  The value an MUI `Slider` hands to its `onChange` handler. The handlers in the tool
  receive either a number or, for a range slider, an array of numbers; with a `step`
  set, the slider rounds the pointer position to the nearest step from `min`
  (`Math.round`) and clamps it to `[min, max]`.
 */
module Slider {

  /** `newValue: number | number[]` */
  datatype Change = Single(value: real) | Range(values: seq<real>)

  predicate IsIntegral(x: real) {
    x.Floor as real == x
  }

  /** `v` lies in `[min, max]` at a whole number of steps from `min`. */
  predicate OnGrid(v: real, min: real, max: real, step: real)
    requires step > 0.0
  {
    min <= v <= max && IsIntegral((v - min) / step)
  }

  /** The value the slider reports for a pointer at `raw`. */
  function Snap(raw: real, min: real, max: real, step: real): (v: real)
    requires step > 0.0 && min <= max
    requires IsIntegral((max - min) / step)
    ensures OnGrid(v, min, max, step)
  {
    var k := ((raw - min) / step + 0.5).Floor;
    var rounded := (k as real) * step + min;
    assert (rounded - min) / step == k as real;
    if rounded < min then min else if rounded > max then max else rounded
  }

  /** What the handler receives for a pointer change: single values snapped, arrays as they are. */
  function Deliver(change: Change, min: real, max: real, step: real): (delivered: Change)
    requires step > 0.0 && min <= max
    requires IsIntegral((max - min) / step)
    ensures delivered.Single? <==> change.Single?
    ensures delivered.Single? ==> OnGrid(delivered.value, min, max, step)
  {
    match change
    case Single(raw) => Single(Snap(raw, min, max, step))
    case Range(values) => change
  }

  /** A value already on the grid is reported unchanged. */
  lemma SnapOnGrid(v: real, min: real, max: real, step: real)
    requires step > 0.0 && min <= max
    requires IsIntegral((max - min) / step)
    requires OnGrid(v, min, max, step)
    ensures Snap(v, min, max, step) == v
  {
    var x := (v - min) / step;
    assert (x + 0.5).Floor == x.Floor;
    assert (x.Floor as real) * step + min == v;
  }

  /** The rating slider (`min 0.0`, `max 3.0`, `step 0.5`) admits exactly seven values. */
  lemma RatingValues(v: real)
    ensures OnGrid(v, 0.0, 3.0, 0.5) <==> v in {0.0, 0.5, 1.0, 1.5, 2.0, 2.5, 3.0}
  {
    if OnGrid(v, 0.0, 3.0, 0.5) {
      var k := (v / 0.5).Floor;
      assert v == (k as real) * 0.5;
      assert 0 <= k <= 6;
    }
  }

  /** The temperature slider (`min 0.0`, `max 1.0`, `step 0.1`) admits exactly eleven values. */
  lemma TemperatureValues(v: real)
    ensures OnGrid(v, 0.0, 1.0, 0.1)
        <==> v in {0.0, 0.1, 0.2, 0.3, 0.4, 0.5, 0.6, 0.7, 0.8, 0.9, 1.0}
  {
    if OnGrid(v, 0.0, 1.0, 0.1) {
      var k := (v / 0.1).Floor;
      assert v == (k as real) * 0.1;
      assert 0 <= k <= 10;
    }
  }
}
