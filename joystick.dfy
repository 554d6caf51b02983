/** The original two-axis joystick on the microcontroller's own ADC: each
    reading is clamped to the stick's travel [1500, 2560] and scaled to a
    signed 8-bit value. The ADC is an `AdcUnit` object that records the input
    selected and hands back the conversions. This axis has a GPIO pin and a
    signed value, unlike the filtered axis of the ADS1115 path, so it is a
    record of its own. */
module Joystick {
  import opened CTypes

  const ADC_MIN: int := 1500
  const ADC_MAX: int := 2560
  /** The first GPIO pin wired to the ADC; pin 26 is ADC input 0. */
  const FIRST_ADC_GPIO: int := 26

  /** The clamp to the stick's travel. */
  function ClampReading(reading: int): (r: int)
    ensures ADC_MIN <= r <= ADC_MAX
    ensures ADC_MIN <= reading <= ADC_MAX ==> r == reading
    ensures reading > ADC_MAX ==> r == ADC_MAX
    ensures reading < ADC_MIN ==> r == ADC_MIN
  {
    if reading > ADC_MAX then ADC_MAX
    else if reading < ADC_MIN then ADC_MIN
    else reading
  }

  /** The fraction of the travel covered, as the C code computes it in
      `float`. */
  function Percent(reading: int): (p: real)
    requires ADC_MIN <= reading <= ADC_MAX
    ensures 0.0 <= p <= 1.0
  {
    (reading - ADC_MIN) as real / (ADC_MAX - ADC_MIN) as real
  }

  /** The clamped reading scaled onto [-128, 127] and converted to `int8_t`,
      rounding toward zero. */
  function Scale(reading: int): (v: int)
    requires ADC_MIN <= reading <= ADC_MAX
    ensures -128 <= v <= 127
  {
    var x := 255.0 * Percent(reading) + (-128.0);
    TruncMonotone(-128.0, x);
    TruncMonotone(x, 127.0);
    TruncOfInt(-128);
    TruncOfInt(127);
    Trunc(x)
  }

  /** The ends of the travel map to the ends of the 8-bit range. */
  lemma ScaleEndpoints()
    ensures Scale(ADC_MIN) == -128
    ensures Scale(ADC_MAX) == 127
  {
    TruncOfInt(-128);
    TruncOfInt(127);
  }

  /** Moving the stick further never lowers the value. */
  lemma {:induction false} ScaleMonotone(r: int, r': int)
    requires ADC_MIN <= r <= r' <= ADC_MAX
    ensures Scale(r) <= Scale(r')
  {
    assert Percent(r) <= Percent(r');
    TruncMonotone(255.0 * Percent(r) + (-128.0), 255.0 * Percent(r') + (-128.0));
  }

  /** The whole conversion, clamp included, is non-decreasing in the raw
      reading. */
  lemma {:induction false} ReadingMonotone(raw: int, raw': int)
    requires raw <= raw'
    ensures Scale(ClampReading(raw)) <= Scale(ClampReading(raw'))
  {
    ScaleMonotone(ClampReading(raw), ClampReading(raw'));
  }

  /** The microcontroller's ADC: the input selected last and the
      conversions it will return next. */
  class AdcUnit {
    var selectedInput: int
    var samples: seq<int>

    ghost predicate Valid()
      reads this
    {
      forall k :: 0 <= k < |samples| ==> IsU16(samples[k])
    }

    constructor (samples: seq<int>)
      requires forall k :: 0 <= k < |samples| ==> IsU16(samples[k])
      ensures Valid() && selectedInput == 0 && this.samples == samples
    {
      selectedInput := 0;
      this.samples := samples;
    }

    /** `adc_select_input`. */
    method SelectInput(input: int)
      modifies this`selectedInput
      ensures selectedInput == input
    {
      selectedInput := input;
    }

    /** `adc_read`. */
    method Read() returns (value: int)
      requires Valid() && |samples| > 0
      modifies this`samples
      ensures Valid()
      ensures value == old(samples)[0] && samples == old(samples)[1..]
      ensures IsU16(value)
    {
      value := samples[0];
      samples := samples[1..];
    }
  }

  /** An axis of this joystick: its GPIO pin and its signed 8-bit value. */
  class LegacyAxis {
    var gpioPin: Byte
    var value: int

    /** `create_axis`: the pin is stored and the value starts at 0. */
    constructor (gpioPin: Byte)
      ensures this.gpioPin == gpioPin && value == 0
    {
      this.gpioPin := gpioPin;
      value := 0;
    }
  }

  /** `read_value`: select the axis' ADC input, take one reading, clamp and
      scale it into the axis value. */
  method ReadValue(adc: AdcUnit, a: LegacyAxis)
    requires adc.Valid() && |adc.samples| > 0
    modifies adc, a`value
    ensures adc.Valid()
    ensures adc.selectedInput == a.gpioPin - FIRST_ADC_GPIO
    ensures adc.samples == old(adc.samples)[1..]
    ensures a.value == Scale(ClampReading(old(adc.samples)[0]))
    ensures -128 <= a.value <= 127
  {
    adc.SelectInput(a.gpioPin - FIRST_ADC_GPIO);
    var readValue := adc.Read();
    if readValue > ADC_MAX {
      readValue := ADC_MAX;
    }
    if readValue < ADC_MIN {
      readValue := ADC_MIN;
    }
    var percent := (readValue - ADC_MIN) as real / (ADC_MAX - ADC_MIN) as real;
    assert percent == Percent(readValue);
    a.value := Trunc(255.0 * percent + (-128.0));
  }

  /** The two-axis joystick. */
  class LegacyJoystick {
    const x: LegacyAxis
    const y: LegacyAxis

    /** `create_joystick`: x on the first pin, y on the second, both at 0. */
    constructor (xGpioPin: Byte, yGpioPin: Byte)
      ensures fresh(x) && fresh(y) && x != y
      ensures x.gpioPin == xGpioPin && x.value == 0
      ensures y.gpioPin == yGpioPin && y.value == 0
    {
      x := new LegacyAxis(xGpioPin);
      y := new LegacyAxis(yGpioPin);
    }
  }

  /** One cycle of `joystick_reader_task`: x is read first, then y. */
  method ReadCycle(adc: AdcUnit, j: LegacyJoystick)
    requires adc.Valid() && |adc.samples| >= 2 && j.x != j.y
    modifies adc, j.x`value, j.y`value
    ensures adc.Valid()
    ensures adc.samples == old(adc.samples)[2..]
    ensures adc.selectedInput == j.y.gpioPin - FIRST_ADC_GPIO
    ensures j.x.value == Scale(ClampReading(old(adc.samples)[0]))
    ensures j.y.value == Scale(ClampReading(old(adc.samples)[1]))
  {
    ReadValue(adc, j.x);
    ReadValue(adc, j.y);
  }
}
