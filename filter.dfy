/** The responsive analog filter: a per-axis smoothing state machine (a C port
    of the ResponsiveAnalogRead library). Small changes of the input are eased
    out by an exponential moving average whose weight follows a hyperbolic
    "snap" curve, large changes pass through almost at once; with sleep
    enabled the output freezes while an error average stays below an activity
    threshold.

    The C code keeps the smoothing state in `float`s; here they are exact
    `real`s, so rounding is not modelled. Every float-to-integer conversion
    the C code makes is written out with `Trunc`. */
module ResponsiveFilter {
  import opened CTypes

  const DEFAULT_RESOLUTION: int := 4096
  const DEFAULT_ACTIVITY_THRESHOLD: real := 25.0
  /** Weight of a new error sample in the error average. */
  const ERROR_EMA_WEIGHT: real := 0.4

  /** The configuration fields of the filter. */
  datatype Tuning = Tuning(resolution: int, snapMultiplier: real, sleepEnable: bool,
                           activityThreshold: real, edgeSnapEnable: bool)

  /** The smoothing state of the filter. */
  datatype Motion = Motion(smooth: real, errorEma: real, sleeping: bool)

  /** One step of the filter: its new smoothing state and the value it returns. */
  datatype Response = Response(motion: Motion, value: int)

  /** `analog_filter_snap_curve`: 0 for no movement, rising toward 1 for large
      movements, capped at 1. */
  function SnapCurve(x: real): (y: real)
    requires x + 1.0 != 0.0
    ensures y <= 1.0
    ensures 0.0 <= x ==> 0.0 <= y
    ensures x == 0.0 ==> y == 0.0
  {
    var y := (1.0 - 1.0 / (x + 1.0)) * 2.0;
    if y > 1.0 then 1.0 else y
  }

  /** The snap curve never decreases on non-negative movements. */
  lemma SnapCurveMonotone(x: real, x': real)
    requires 0.0 <= x <= x'
    ensures SnapCurve(x) <= SnapCurve(x')
  {
    var a, b := x + 1.0, x' + 1.0;
    assert 0.0 < 1.0 / a && 0.0 < 1.0 / b;
    assert 1.0 / a - 1.0 / b == (b - a) * ((1.0 / a) * (1.0 / b));
    MulNonNeg(1.0 / a, 1.0 / b);
    MulNonNeg(b - a, (1.0 / a) * (1.0 / b));
  }

  /** The product of two non-negative reals is non-negative. */
  lemma MulNonNeg(p: real, q: real)
    requires 0.0 <= p && 0.0 <= q
    ensures 0.0 <= p * q
  {
  }

  /** The input after edge snap, before it is stored back into the `uint16_t`
      parameter: near either edge of the range, with both sleep and edge snap
      enabled, the input is pushed further toward that edge. */
  function EdgeSnapped(t: Tuning, raw: int): (x: real)
    ensures !(t.sleepEnable && t.edgeSnapEnable) ==> x == raw as real
    ensures x != raw as real ==>
              t.sleepEnable && t.edgeSnapEnable &&
              (raw as real < t.activityThreshold ||
               raw as real > t.resolution as real - t.activityThreshold)
    // near the low edge the input moves down, near the high edge it moves up
    ensures t.sleepEnable && t.edgeSnapEnable && raw as real < t.activityThreshold ==>
              x == 2.0 * raw as real - t.activityThreshold && x <= raw as real
    ensures t.sleepEnable && t.edgeSnapEnable && t.activityThreshold <= raw as real &&
            raw as real > t.resolution as real - t.activityThreshold ==>
              x == 2.0 * raw as real - t.resolution as real + t.activityThreshold && x >= raw as real
  {
    if t.sleepEnable && t.edgeSnapEnable then
      if (raw as real) < t.activityThreshold then 2.0 * raw as real - t.activityThreshold
      else if raw as real > t.resolution as real - t.activityThreshold then
        2.0 * raw as real - t.resolution as real + t.activityThreshold
      else raw as real
    else raw as real
  }

  /** The conditions under which one filter step is defined in C: the edge-snapped
      input converts to `uint16_t`, the clamp bound `resolution - 1` is not
      negative, the smoothing state converts to `uint16_t`, and the snap
      multiplier is not negative (so the snap curve never divides by zero). */
  predicate StepDefined(t: Tuning, m: Motion, raw: int) {
    U16Convertible(EdgeSnapped(t, raw)) && 1 <= t.resolution &&
    0.0 <= m.smooth < 65536.0 && 0.0 <= t.snapMultiplier
  }

  /** The value of the `uint16_t` input after edge snap. */
  function SnappedInput(t: Tuning, raw: int): (v: int)
    requires U16Convertible(EdgeSnapped(t, raw))
    ensures IsU16(v)
    ensures !(t.sleepEnable && t.edgeSnapEnable) ==> v == raw
  {
    Trunc(EdgeSnapped(t, raw))
  }

  /** Keep a smoothed value inside [0, resolution - 1]. */
  function ClampToResolution(s: real, resolution: int): (r: real)
    requires 1 <= resolution
    ensures 0.0 <= r <= (resolution - 1) as real
    ensures 0.0 <= s <= (resolution - 1) as real ==> r == s
  {
    if s < 0.0 then 0.0
    else if s > (resolution - 1) as real then (resolution - 1) as real
    else s
  }

  /** The snap factor of one step: the snap curve of the scaled difference,
      then the sleep-enabled widening by `0.5 + 0.5`, which leaves it as it is. */
  function SnapFactor(t: Tuning, diff: int): (snap: real)
    requires 0 <= diff && 0.0 <= t.snapMultiplier
    ensures 0.0 <= snap <= 1.0
    ensures snap == SnapCurve(diff as real * t.snapMultiplier)
  {
    var x := diff as real * t.snapMultiplier;
    assert 0.0 <= x;
    var snap := SnapCurve(x);
    if t.sleepEnable then snap * (0.5 + 0.5) else snap
  }

  /** The exponential moving average step `s += (target - s) * snap`. */
  function Ease(s: real, target: real, snap: real): real {
    s + (target - s) * snap
  }

  /** With a snap in [0, 1] an easing step lands between the old value and
      the target: on the old value for a snap of 0, on the target for 1. */
  lemma EaseBetween(s: real, target: real, snap: real)
    requires 0.0 <= snap <= 1.0
    ensures s <= target ==> s <= Ease(s, target, snap) <= target
    ensures target <= s ==> target <= Ease(s, target, snap) <= s
    ensures snap == 0.0 ==> Ease(s, target, snap) == s
    ensures snap == 1.0 ==> Ease(s, target, snap) == target
  {
    var d := target - s;
    // the step covers the fraction snap of the distance, and leaves 1 - snap
    assert Ease(s, target, snap) - s == d * snap;
    assert target - Ease(s, target, snap) == d * (1.0 - snap);
    if 0.0 <= d {
      MulNonNeg(d, snap);
      MulNonNeg(d, 1.0 - snap);
    } else {
      MulNonNeg(-d, snap);
      MulNonNeg(-d, 1.0 - snap);
      assert (-d) * snap == -(d * snap);
      assert (-d) * (1.0 - snap) == -(d * (1.0 - snap));
    }
  }

  /** `analog_filter_get_responsive_value` as a function of the configuration,
      the smoothing state and the input. */
  function Step(t: Tuning, m: Motion, raw: int): (r: Response)
    requires StepDefined(t, m, raw)
    ensures IsU16(r.value)
    // the error average is updated on every step, asleep or not
    ensures r.motion.errorEma
              == m.errorEma + ((SnappedInput(t, raw) as real - m.smooth) - m.errorEma) * ERROR_EMA_WEIGHT
    // the sleep flag is recomputed only when sleep is enabled, from the
    // truncated error average
    ensures t.sleepEnable ==>
              (r.motion.sleeping <==> (Abs(Trunc(r.motion.errorEma)) as real) < t.activityThreshold)
    ensures !t.sleepEnable ==> r.motion.sleeping == m.sleeping
    // asleep: the smoothed value is frozen and reported as it was
    ensures t.sleepEnable && r.motion.sleeping ==>
              r.motion.smooth == m.smooth && r.value == Trunc(m.smooth)
    // awake: the smoothed value eases toward the input by the snap curve of
    // the truncated difference, and output and state stay in range
    ensures !(t.sleepEnable && r.motion.sleeping) ==>
              var input := SnappedInput(t, raw) as real;
              var diff := Abs(Trunc(input - m.smooth));
              r.motion.smooth == ClampToResolution(
                                   Ease(m.smooth, input, SnapFactor(t, diff)),
                                   t.resolution) &&
              r.value == Trunc(r.motion.smooth) && 0 <= r.value <= t.resolution - 1
  {
    var newValue := SnappedInput(t, raw);
    var diff := Abs(Trunc(newValue as real - m.smooth));
    var errorEma := m.errorEma + ((newValue as real - m.smooth) - m.errorEma) * ERROR_EMA_WEIGHT;
    var sleeping := if t.sleepEnable then (Abs(Trunc(errorEma)) as real) < t.activityThreshold
                    else m.sleeping;
    if t.sleepEnable && sleeping then
      Response(Motion(m.smooth, errorEma, sleeping), Trunc(m.smooth))
    else
      var snap := SnapFactor(t, diff);
      var smooth := ClampToResolution(Ease(m.smooth, newValue as real, snap), t.resolution);
      // the eased value lies between the old value and the input, so it stays
      // below 65536 whatever the resolution
      EaseBetween(m.smooth, newValue as real, snap);
      TruncMonotone(0.0, smooth);
      TruncOfInt(0);
      TruncMonotone(smooth, (t.resolution - 1) as real);
      TruncOfInt(t.resolution - 1);
      Response(Motion(smooth, errorEma, sleeping), Trunc(smooth))
  }

  /** An awake step never overshoots: the new smoothed value lies between the
      old one and the (edge-snapped) input. */
  lemma {:induction false} StepNeverOvershoots(t: Tuning, m: Motion, raw: int)
    requires StepDefined(t, m, raw)
    requires m.smooth <= (t.resolution - 1) as real
    requires !(t.sleepEnable && Step(t, m, raw).motion.sleeping)
    ensures var target := SnappedInput(t, raw) as real;
            var s := Step(t, m, raw).motion.smooth;
            (m.smooth <= target ==> m.smooth <= s <= target) &&
            (target <= m.smooth ==> target <= s <= m.smooth)
  {
    var target := SnappedInput(t, raw) as real;
    var diff := Abs(Trunc(target - m.smooth));
    var eased := Ease(m.smooth, target, SnapFactor(t, diff));
    EaseBetween(m.smooth, target, SnapFactor(t, diff));
    assert Step(t, m, raw).motion.smooth == ClampToResolution(eased, t.resolution);
  }

  /** With no movement the smoothed value does not change. */
  lemma {:induction false} StepAtRest(t: Tuning, m: Motion, raw: int)
    requires StepDefined(t, m, raw)
    requires m.smooth <= (t.resolution - 1) as real
    requires SnappedInput(t, raw) as real == m.smooth
    ensures Step(t, m, raw).motion.smooth == m.smooth
    ensures Step(t, m, raw).value == Trunc(m.smooth)
  {
    var r := Step(t, m, raw);
    if !(t.sleepEnable && r.motion.sleeping) {
      TruncOfInt(0);
      assert SnapCurve(0.0 * t.snapMultiplier) == 0.0;
      EaseBetween(m.smooth, m.smooth, 0.0);
    }
  }

  /** `analog_filter_set_snap_multiplier`'s clamp to [0, 1]. */
  function ClampUnit(x: real): (r: real)
    ensures 0.0 <= r <= 1.0
    ensures 0.0 <= x <= 1.0 ==> r == x
    ensures x > 1.0 ==> r == 1.0
    ensures x < 0.0 ==> r == 0.0
  {
    if x > 1.0 then 1.0 else if x < 0.0 then 0.0 else x
  }

  lemma ClampUnitIdempotent(x: real)
    ensures ClampUnit(ClampUnit(x)) == ClampUnit(x)
  {
  }

  /** The `analog_filter` struct. */
  class AnalogFilter {
    var analogResolution: int
    var snapMultiplier: real
    var sleepEnable: bool
    var activityThreshold: real
    var edgeSnapEnable: bool

    var smoothValue: real
    var errorEma: real
    var sleeping: bool

    var rawValue: int
    var responsiveValue: int
    var previousResponsiveValue: int
    var responsiveValueHasChanged: bool

    /** The `uint16_t` fields hold `uint16_t` values, and the smoothed value
        stays inside what a `uint16_t` can take. */
    ghost predicate Valid()
      reads this
    {
      IsU16(analogResolution) && IsU16(rawValue) && IsU16(responsiveValue) &&
      IsU16(previousResponsiveValue) && 0.0 <= smoothValue < 65536.0
    }

    function Config(): Tuning
      reads this
    {
      Tuning(analogResolution, snapMultiplier, sleepEnable, activityThreshold, edgeSnapEnable)
    }

    function State(): Motion
      reads this
    {
      Motion(smoothValue, errorEma, sleeping)
    }

    /** `create_analog_filter`: the library's defaults, everything else zero. */
    constructor (sleepEnable: bool, snapMultiplier: real)
      ensures Valid()
      ensures Config() == Tuning(DEFAULT_RESOLUTION, snapMultiplier, sleepEnable,
                                 DEFAULT_ACTIVITY_THRESHOLD, true)
      ensures State() == Motion(0.0, 0.0, false)
      ensures rawValue == 0 && responsiveValue == 0 && previousResponsiveValue == 0
      ensures !responsiveValueHasChanged
    {
      this.sleepEnable := sleepEnable;
      this.snapMultiplier := snapMultiplier;
      analogResolution := DEFAULT_RESOLUTION;
      activityThreshold := DEFAULT_ACTIVITY_THRESHOLD;
      edgeSnapEnable := true;
      errorEma := 0.0;
      sleeping := false;
      smoothValue := 0.0;
      rawValue := 0;
      responsiveValue := 0;
      previousResponsiveValue := 0;
      responsiveValueHasChanged := false;
    }

    function GetRawValue(): (r: int)
      reads this
      requires Valid()
      ensures IsU16(r)
    {
      rawValue
    }

    function GetValue(): (r: int)
      reads this
      requires Valid()
      ensures IsU16(r)
    {
      responsiveValue
    }

    function HasChanged(): bool
      reads this
    {
      responsiveValueHasChanged
    }

    function IsSleeping(): bool
      reads this
    {
      sleeping
    }

    /** `analog_filter_get_responsive_value`: advance the smoothing state by
        one input and return the new output. */
    method GetResponsiveValue(newValue: int) returns (v: int)
      requires Valid() && IsU16(newValue) && StepDefined(Config(), State(), newValue)
      modifies this`smoothValue, this`errorEma, this`sleeping
      ensures Valid()
      ensures State() == Step(Config(), old(State()), newValue).motion
      ensures v == Step(Config(), old(State()), newValue).value
    {
      ghost var t, m := Config(), State();
      ghost var r := Step(t, m, newValue);
      var input := SnappedInput(Config(), newValue);
      var diff := Abs(Trunc(input as real - smoothValue));
      errorEma := errorEma + ((input as real - smoothValue) - errorEma) * ERROR_EMA_WEIGHT;
      if sleepEnable {
        sleeping := (Abs(Trunc(errorEma)) as real) < activityThreshold;
      }
      assert errorEma == r.motion.errorEma && sleeping == r.motion.sleeping;
      if sleepEnable && sleeping {
        return Trunc(smoothValue);
      }
      var snap := SnapFactor(Config(), diff);
      EaseBetween(smoothValue, input as real, snap);
      smoothValue := Ease(smoothValue, input as real, snap);
      if smoothValue < 0.0 {
        // the eased value lies between the old value and the input, both
        // non-negative, so the lower clamp never fires
        assert false;
      } else if smoothValue > (analogResolution - 1) as real {
        smoothValue := (analogResolution - 1) as real;
      }
      assert smoothValue == r.motion.smooth;
      v := Trunc(smoothValue);
    }

    /** `analog_filter_update`: feed one raw sample and record the outcome. */
    method Update(raw: int)
      requires Valid() && IsU16(raw) && StepDefined(Config(), State(), raw)
      modifies this
      ensures Valid()
      ensures Config() == old(Config())
      ensures rawValue == raw
      ensures previousResponsiveValue == old(responsiveValue)
      ensures responsiveValue == Step(Config(), old(State()), raw).value
      ensures State() == Step(Config(), old(State()), raw).motion
      ensures responsiveValueHasChanged <==> responsiveValue != previousResponsiveValue
    {
      rawValue := raw;
      previousResponsiveValue := responsiveValue;
      responsiveValue := GetResponsiveValue(raw);
      responsiveValueHasChanged := responsiveValue != previousResponsiveValue;
    }

    /** `analog_filter_set_snap_multiplier`: store the multiplier clamped to [0, 1]. */
    method SetSnapMultiplier(newMultiplier: real)
      modifies this`snapMultiplier
      ensures snapMultiplier == ClampUnit(newMultiplier)
    {
      var m := newMultiplier;
      if m > 1.0 {
        m := 1.0;
      } else if m < 0.0 {
        m := 0.0;
      }
      snapMultiplier := m;
    }

    method EnableSleep()
      modifies this`sleepEnable
      ensures sleepEnable
    {
      sleepEnable := true;
    }

    method DisableSleep()
      modifies this`sleepEnable
      ensures !sleepEnable
    {
      sleepEnable := false;
    }

    method EnableEdgeSnap()
      modifies this`edgeSnapEnable
      ensures edgeSnapEnable
    {
      edgeSnapEnable := true;
    }

    method DisableEdgeSnap()
      modifies this`edgeSnapEnable
      ensures !edgeSnapEnable
    {
      edgeSnapEnable := false;
    }

    method SetActivityThreshold(newThreshold: real)
      modifies this`activityThreshold
      ensures activityThreshold == newThreshold
    {
      activityThreshold := newThreshold;
    }

    method SetAnalogResolution(resolution: int)
      requires IsU16(resolution)
      modifies this`analogResolution
      ensures analogResolution == resolution
    {
      analogResolution := resolution;
    }
  }
}
