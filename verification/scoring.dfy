/** The engine's building blocks: the piecewise-linear normaliser, the
    quarter-over-quarter delta, the 0..100 clamp and the five-tier
    ROIC-WACC classification. */
module Scoring {
  import opened Wrappers

  /** `max(0, min(100, x))`. */
  function Clamp(x: real): (r: real)
    ensures 0.0 <= r <= 100.0
    ensures 0.0 <= x <= 100.0 ==> r == x
    ensures x < 0.0 ==> r == 0.0
    ensures x > 100.0 ==> r == 100.0
  {
    if x > 100.0 then 100.0 else if x < 0.0 then 0.0 else x
  }

  /** Maps a raw ratio to 0..100 through the breakpoints low / mid / high:
      0 up to `low`, linear to 50 at `mid`, linear to 100 at `high`, 100
      beyond; an absent value is the neutral 50. Each interpolating branch
      is only reached when its divisor is positive, so no breakpoint order
      is required for the function to be defined. */
  function Normalize(value: Option<real>, low: real, mid: real, high: real): (r: real)
    ensures 0.0 <= r <= 100.0
    ensures value.None? ==> r == 50.0
    ensures value.Some? && value.value <= low ==> r == 0.0
    ensures value.Some? && low < value.value <= mid ==> r <= 50.0
    ensures value.Some? && low < value.value && mid < value.value ==> r >= 50.0
  {
    if value.None? then 50.0
    else
      var v := value.value;
      if v <= low then 0.0
      else if v <= mid then
        Ratio(v - low, mid - low);
        (v - low) / (mid - low) * 50.0
      else if v <= high then
        Ratio(v - mid, high - mid);
        50.0 + (v - mid) / (high - mid) * 50.0
      else 100.0
  }

  /** Where a quotient by a positive divisor lies. */
  lemma Ratio(a: real, d: real)
    requires d > 0.0
    ensures a <= 0.0 ==> a / d <= 0.0
    ensures 0.0 <= a ==> 0.0 <= a / d
    ensures a <= d ==> a / d <= 1.0
    ensures a >= d ==> a / d >= 1.0
  {
  }

  /** With ordered breakpoints the curve passes through 0, 50 and 100 at
      low, mid and high. */
  lemma NormalizeBreakpoints(low: real, mid: real, high: real)
    requires low < mid < high
    ensures Normalize(Some(low), low, mid, high) == 0.0
    ensures Normalize(Some(mid), low, mid, high) == 50.0
    ensures Normalize(Some(high), low, mid, high) == 100.0
  {
    assert (high - mid) / (high - mid) == 1.0;
    assert (mid - low) / (mid - low) == 1.0;
  }

  /** A larger value never normalises lower, whatever the breakpoints. */
  lemma NormalizeMonotone(x: real, y: real, low: real, mid: real, high: real)
    requires x <= y
    ensures Normalize(Some(x), low, mid, high) <= Normalize(Some(y), low, mid, high)
  {
    var nx := Normalize(Some(x), low, mid, high);
    var ny := Normalize(Some(y), low, mid, high);
    if x <= low {
      assert nx == 0.0;
    } else if x <= mid {
      if y <= mid {
        DivMonotone(x - low, y - low, mid - low);
      } else {
        assert nx <= 50.0 <= ny;
      }
    } else if x <= high {
      if y <= high {
        DivMonotone(x - mid, y - mid, high - mid);
      } else {
        assert ny == 100.0;
      }
    } else {
      assert nx == 100.0 == ny;
    }
  }

  lemma DivMonotone(a: real, b: real, d: real)
    requires d > 0.0 && a <= b
    ensures a / d <= b / d
  {
    assert b / d - a / d == (b - a) / d;
    Ratio(b - a, d);
  }

  /** `t` limited to the unit interval. */
  function Ramp(t: real): (r: real)
    ensures 0.0 <= r <= 1.0
  {
    if t < 0.0 then 0.0 else if t > 1.0 then 1.0 else t
  }

  /** Closed form of the normaliser for ordered breakpoints: half of the
      scale ramps up across low..mid, the other half across mid..high. */
  lemma NormalizeClosedForm(v: real, low: real, mid: real, high: real)
    requires low < mid < high
    ensures Normalize(Some(v), low, mid, high)
         == 50.0 * Ramp((v - low) / (mid - low)) + 50.0 * Ramp((v - mid) / (high - mid))
  {
    Ratio(v - low, mid - low);
    Ratio(v - mid, high - mid);
    if v <= low {
      assert Ramp((v - low) / (mid - low)) == 0.0;
      assert Ramp((v - mid) / (high - mid)) == 0.0;
    } else if v <= mid {
      assert Ramp((v - low) / (mid - low)) == (v - low) / (mid - low);
      assert Ramp((v - mid) / (high - mid)) == 0.0;
    } else if v <= high {
      assert Ramp((v - low) / (mid - low)) == 1.0;
      assert Ramp((v - mid) / (high - mid)) == (v - mid) / (high - mid);
    } else {
      assert Ramp((v - low) / (mid - low)) == 1.0;
      assert Ramp((v - mid) / (high - mid)) == 1.0;
    }
  }

  /** Change since the previous quarter; 0 when either side is absent
      (a present 0 is a real value here). */
  function Delta(current: Option<real>, previous: Option<real>): (r: real)
    ensures current.None? || previous.None? ==> r == 0.0
    ensures current.Some? && previous.Some? ==> previous.value + r == current.value
  {
    if current.None? || previous.None? then 0.0 else current.value - previous.value
  }

  /** Value creation as the spread between ROIC and WACC, in five tiers. */
  datatype RoicWaccTier =
    | InsufficientData
    | StrongValueCreation
    | ValueCreation
    | WeakValueCreation
    | NormalExpansion
    | HighCapitalConsumption
  {
    /** The tier's display text. */
    function Text(): string {
      match this
      case InsufficientData => "数据不足"
      case StrongValueCreation => "强价值创造"
      case ValueCreation => "价值创造"
      case WeakValueCreation => "微弱价值创造"
      case NormalExpansion => "扩张期正常"
      case HighCapitalConsumption => "高资本消耗"
    }

    /** Strength of value creation, 1 (weakest) to 5; 0 without data. */
    function Rank(): int {
      match this
      case InsufficientData => 0
      case HighCapitalConsumption => 1
      case NormalExpansion => 2
      case WeakValueCreation => 3
      case ValueCreation => 4
      case StrongValueCreation => 5
    }
  }

  /** Classifies ROIC - WACC: at least 8, at least 3, at least 0, at least
      -5, or below; insufficient data when either rate is absent. */
  function ClassifyRoicWacc(roic: Option<real>, wacc: Option<real>): (t: RoicWaccTier)
    ensures t == InsufficientData <==> roic.None? || wacc.None?
    ensures roic.Some? && wacc.Some? ==>
      var d := roic.value - wacc.value;
      && (t == StrongValueCreation <==> d >= 8.0)
      && (t == ValueCreation <==> 3.0 <= d < 8.0)
      && (t == WeakValueCreation <==> 0.0 <= d < 3.0)
      && (t == NormalExpansion <==> -5.0 <= d < 0.0)
      && (t == HighCapitalConsumption <==> d < -5.0)
  {
    if roic.None? || wacc.None? then InsufficientData
    else
      var diff := roic.value - wacc.value;
      if diff >= 8.0 then StrongValueCreation
      else if diff >= 3.0 then ValueCreation
      else if diff >= 0.0 then WeakValueCreation
      else if diff >= -5.0 then NormalExpansion
      else HighCapitalConsumption
  }

  /** A wider spread never yields a weaker tier. */
  lemma TierMonotone(roic1: real, wacc1: real, roic2: real, wacc2: real)
    requires roic1 - wacc1 <= roic2 - wacc2
    ensures ClassifyRoicWacc(Some(roic1), Some(wacc1)).Rank() <= ClassifyRoicWacc(Some(roic2), Some(wacc2)).Rank()
  {
  }

  /** The six tier texts are pairwise distinct, so the text identifies the tier. */
  lemma TierTextInjective(a: RoicWaccTier, b: RoicWaccTier)
    requires a.Text() == b.Text()
    ensures a == b
  {
  }
}
