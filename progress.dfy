/** The progress bar (src/components/ui/Progress.tsx): how full it is, its colour and its
    percentage label. */
module ProgressBar {
  import opened Wrappers
  import opened Numbers

  /** The bar's width: a percentage, or the two values a zero maximum can produce. */
  datatype Width = Finite(percent: real) | MinusInfinity | NotANumber

  /** `Math.min((value / max) * 100, 100)`, with `max` 100 when it is not given. Over a zero
      maximum a positive value is infinitely full (and capped at 100), a negative value gives
      minus infinity and zero gives NaN. */
  function WidthOf(value: real, max: Option<real>): (w: Width)
    ensures w.Finite? ==> w.percent <= 100.0
    ensures max.None? ==> w == Finite(Min(value, 100.0))
    ensures max.Some? && max.value != 0.0 ==>
      w.Finite? && (w.percent == 100.0 || w.percent * max.value == value * 100.0)
    ensures w.NotANumber? <==> max.Some? && max.value == 0.0 && value == 0.0
    ensures w.MinusInfinity? <==> max.Some? && max.value == 0.0 && value < 0.0
  {
    var m := if max.Some? then max.value else 100.0;
    if m != 0.0 then Finite(Min(value / m * 100.0, 100.0))
    else if value > 0.0 then Finite(100.0)
    else if value < 0.0 then MinusInfinity
    else NotANumber
  }

  datatype Variant = DefaultVariant | SuccessVariant | WarningVariant | ErrorVariant

  datatype Colour = Blue | Green | Yellow | Red

  /** `getProgressColor`: a chosen variant keeps its own colour; the default variant turns
      yellow from 75% and red from 90%. A width that is not a number compares false, so it
      stays green. */
  function ColourOf(variant: Variant, w: Width): (c: Colour)
    ensures variant == SuccessVariant ==> c == Green
    ensures variant == WarningVariant ==> c == Yellow
    ensures variant == ErrorVariant ==> c == Red
    ensures variant == DefaultVariant ==> c != Blue
    ensures variant == DefaultVariant ==> (c == Red <==> w.Finite? && w.percent >= 90.0)
    ensures variant == DefaultVariant ==> (c == Yellow <==> w.Finite? && 75.0 <= w.percent < 90.0)
  {
    match variant
    case SuccessVariant => Green
    case WarningVariant => Yellow
    case ErrorVariant => Red
    case DefaultVariant =>
      if w.Finite? && w.percent >= 90.0 then Red
      else if w.Finite? && w.percent >= 75.0 then Yellow
      else Green
  }

  function Severity(c: Colour): nat {
    match c
    case Blue => 0
    case Green => 0
    case Yellow => 1
    case Red => 2
  }

  /** Under a fixed positive maximum the default bar only grows more alarming as the value
      grows: green, then yellow, then red. */
  lemma ColourMonotone(v1: real, v2: real, max: real)
    requires v1 <= v2 && max > 0.0
    ensures Severity(ColourOf(DefaultVariant, WidthOf(v1, Some(max)))) <= Severity(ColourOf(DefaultVariant, WidthOf(v2, Some(max))))
  {
    var w1, w2 := WidthOf(v1, Some(max)), WidthOf(v2, Some(max));
    assert v1 / max <= v2 / max by {
      assert v2 / max - v1 / max == (v2 - v1) / max;
    }
    assert w1.percent <= w2.percent;
  }

  /** The label: the width rounded to a whole percentage; `None` where it is not finite. */
  function LabelOf(value: real, max: Option<real>): (r: Option<int>)
    ensures r.Some? <==> WidthOf(value, max).Finite?
    ensures r.Some? ==> r.value <= 100
  {
    var w := WidthOf(value, max);
    if w.Finite? then
      var r := Round(w.percent);
      assert r as real <= 100.5;
      Some(r)
    else None
  }

  /** A value between zero and a positive maximum is labelled between 0% and 100%. */
  lemma LabelWithinBounds(value: real, max: real)
    requires 0.0 <= value && max > 0.0
    ensures 0 <= LabelOf(value, Some(max)).value <= 100
  {
    assert value / max >= 0.0;
  }
}
