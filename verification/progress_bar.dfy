/** The progress bar's fill: `value / max * 100` clamped to [0, 100].

    Division by a zero `max` follows the floating-point rules of the
    source: a positive value gives +Infinity, which clamps to 100; a
    negative value gives -Infinity, which clamps to 0; and 0/0 is NaN,
    which both clamps let through. `None` stands for that NaN. */
module ProgressBar {
  import opened Wrappers

  function Clamp(x: real): (r: real)
    ensures 0.0 <= r <= 100.0
    ensures 0.0 <= x <= 100.0 ==> r == x
  {
    if x < 0.0 then 0.0 else if x > 100.0 then 100.0 else x
  }

  /** The filled share of the bar in percent; `None` is NaN. */
  function Percentage(value: real, max: real): (r: Option<real>)
    ensures r.None? <==> max == 0.0 && value == 0.0
    ensures r.Some? ==> 0.0 <= r.value <= 100.0
    ensures max == 0.0 && value > 0.0 ==> r == Some(100.0)
    ensures max == 0.0 && value < 0.0 ==> r == Some(0.0)
  {
    if max == 0.0 then
      if value > 0.0 then Some(100.0)
      else if value < 0.0 then Some(0.0)
      else None
    else Some(Clamp(value / max * 100.0))
  }

  /** With a positive maximum, nothing spent shows an empty bar and
      reaching the maximum shows a full one. */
  lemma PercentageEnds(value: real, max: real)
    requires max > 0.0
    ensures value <= 0.0 ==> Percentage(value, max) == Some(0.0)
    ensures value >= max ==> Percentage(value, max) == Some(100.0)
  {
    if value <= 0.0 {
      assert value / max <= 0.0;
    }
    if value >= max {
      assert value / max >= 1.0;
    }
  }

  /** Between the ends the fill is exactly proportional. */
  lemma PercentageProportional(value: real, max: real)
    requires max > 0.0 && 0.0 <= value <= max
    ensures Percentage(value, max) == Some(value / max * 100.0)
  {
    assert 0.0 <= value / max <= 1.0;
  }

  /** For a fixed positive maximum, more spent never shows less. */
  lemma PercentageMonotone(v1: real, v2: real, max: real)
    requires max > 0.0 && v1 <= v2
    ensures Percentage(v1, max).value <= Percentage(v2, max).value
  {
    assert v1 / max <= v2 / max;
  }
}
