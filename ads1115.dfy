/** The joystick read path over an ADS1115 converter: select the converter
    input that belongs to an axis, take one sample, clip it, run it through
    the axis filter and keep the filter's output in the axis' 8-bit field.
    The I2C driver is a `Converter` object that records the input selections
    written to the chip and hands back the samples the chip converts. */
module Ads1115 {
  import opened CTypes
  import opened ResponsiveFilter

  const ADS1115_JOYSTICK_ADC_MIN: int := 0
  /** `USHRT_MAX`. */
  const ADS1115_JOYSTICK_ADC_MAX: int := 0xFFFF

  /** The four single-ended input selections of the converter. */
  datatype Mux = Single0 | Single1 | Single2 | Single3

  /** The input selected for an axis' converter channel: channels 0-3 select
      the matching input, any other channel falls back to input 0. */
  function MuxFor(channel: Byte): (m: Mux)
    ensures channel < 4 ==> MuxInput(m) == channel
    ensures channel >= 4 ==> m == Single0
  {
    match channel
    case 0 => Single0
    case 1 => Single1
    case 2 => Single2
    case 3 => Single3
    case _ => Single0
  }

  /** The input number of a selection. */
  function MuxInput(m: Mux): (input: int)
    ensures 0 <= input < 4
  {
    match m
    case Single0 => 0
    case Single1 => 1
    case Single2 => 2
    case Single3 => 3
  }

  /** Every input is reachable, and only through its own channel or, for
      input 0, a channel out of range. */
  lemma MuxForInverse(channel: Byte, m: Mux)
    ensures MuxFor(channel) == m <==>
              (channel == MuxInput(m) || (channel >= 4 && m == Single0))
  {
  }

  /** The clip to [ADS1115_JOYSTICK_ADC_MIN, ADS1115_JOYSTICK_ADC_MAX]. */
  function Clip(sample: int): (v: int)
    ensures ADS1115_JOYSTICK_ADC_MIN <= v <= ADS1115_JOYSTICK_ADC_MAX
    ensures ADS1115_JOYSTICK_ADC_MIN <= sample <= ADS1115_JOYSTICK_ADC_MAX ==> v == sample
  {
    if sample > ADS1115_JOYSTICK_ADC_MAX then ADS1115_JOYSTICK_ADC_MAX
    else if sample < ADS1115_JOYSTICK_ADC_MIN then ADS1115_JOYSTICK_ADC_MIN
    else sample
  }

  /** The clip bounds are the whole `uint16_t` range, so a sample never
      changes. */
  lemma ClipNeverFires(sample: int)
    requires IsU16(sample)
    ensures Clip(sample) == sample
  {
  }

  /** The `ads1115_adc` driver state: the selected input, every
      configuration write so far (each carries the selected input), and the
      samples the chip will convert next. */
  class Converter {
    var mux: Mux
    var configWrites: seq<Mux>
    var samples: seq<int>

    ghost predicate Valid()
      reads this
    {
      forall k :: 0 <= k < |samples| ==> IsU16(samples[k])
    }

    constructor (samples: seq<int>)
      requires forall k :: 0 <= k < |samples| ==> IsU16(samples[k])
      ensures Valid()
      ensures mux == Single0 && configWrites == [] && this.samples == samples
    {
      mux := Single0;
      configWrites := [];
      this.samples := samples;
    }

    /** `ads1115_set_input_mux`. */
    method SetInputMux(m: Mux)
      modifies this`mux
      ensures mux == m
    {
      mux := m;
    }

    /** `ads1115_write_config`. */
    method WriteConfig()
      modifies this`configWrites
      ensures configWrites == old(configWrites) + [mux]
    {
      configWrites := configWrites + [mux];
    }

    /** `ads1115_read_adc`: one single-shot conversion. */
    method ReadAdc() returns (value: int)
      requires Valid() && |samples| > 0
      modifies this`samples
      ensures Valid()
      ensures value == old(samples)[0] && samples == old(samples)[1..]
      ensures IsU16(value)
    {
      value := samples[0];
      samples := samples[1..];
    }
  }

  /** The `axis` struct. The filter is embedded in the C struct; here it is
      an object owned by exactly one axis. */
  class Axis {
    var adcChannel: Byte
    var rawValue: int
    var filteredValue: Byte
    var adcMin: int
    var adcMax: int
    var inverted: bool
    const filter: AnalogFilter

    constructor (adcChannel: Byte, filter: AnalogFilter)
      ensures this.adcChannel == adcChannel && this.filter == filter
      ensures rawValue == 0 && filteredValue == 0 && adcMin == 0 && adcMax == 0 && !inverted
    {
      this.adcChannel := adcChannel;
      this.filter := filter;
      rawValue, filteredValue, adcMin, adcMax, inverted := 0, 0, 0, 0, false;
    }
  }

  /** What one filter step does with a sample, as far as the axis is
      concerned: the filter can take it. */
  ghost predicate CanRead(a: Axis, sample: int)
    reads a, a.filter
  {
    a.filter.Valid() && IsU16(sample) &&
    StepDefined(a.filter.Config(), a.filter.State(), sample)
  }

  /** `joystick_ads1115_read_input`: read the axis' channel, feed the filter
      once and keep its output, truncated to 8 bits. A null axis reads 0 and
      touches nothing. */
  method ReadInput(adc: Converter, a: Axis?) returns (value: int)
    requires adc.Valid()
    requires a != null ==> |adc.samples| > 0 && CanRead(a, adc.samples[0])
    modifies adc
    modifies if a == null then {} else {a, a.filter}
    ensures adc.Valid()
    ensures a == null ==> value == 0 && unchanged(adc)
    ensures a != null ==>
              && value == old(adc.samples)[0]
              && adc.samples == old(adc.samples)[1..]
              && adc.configWrites == old(adc.configWrites) + [MuxFor(a.adcChannel)]
              && adc.mux == MuxFor(a.adcChannel)
    // the filter is stepped once, with the sample
    ensures a != null ==>
              && a.filter.Valid()
              && a.filter.Config() == old(a.filter.Config())
              && a.filter.rawValue == value
              && a.filter.previousResponsiveValue == old(a.filter.responsiveValue)
              && a.filter.State() == Step(a.filter.Config(), old(a.filter.State()), value).motion
              && a.filter.responsiveValue == Step(a.filter.Config(), old(a.filter.State()), value).value
              && (a.filter.responsiveValueHasChanged <==> a.filter.responsiveValue != a.filter.previousResponsiveValue)
    // the 8-bit field keeps the filter output modulo 256; nothing else of the
    // axis is written
    ensures a != null ==>
              && a.filteredValue == ToU8(a.filter.responsiveValue)
              && a.adcChannel == old(a.adcChannel) && a.rawValue == old(a.rawValue)
              && a.adcMin == old(a.adcMin) && a.adcMax == old(a.adcMax)
              && a.inverted == old(a.inverted)
  {
    if a == null {
      return 0;
    }
    adc.SetInputMux(MuxFor(a.adcChannel));
    adc.WriteConfig();
    var adcValue := adc.ReadAdc();
    if adcValue > ADS1115_JOYSTICK_ADC_MAX {
      adcValue := ADS1115_JOYSTICK_ADC_MAX;
    }
    if adcValue < ADS1115_JOYSTICK_ADC_MIN {
      adcValue := ADS1115_JOYSTICK_ADC_MIN;
    }
    a.filter.Update(adcValue);
    var filterValue := a.filter.GetValue();
    a.filteredValue := ToU8(filterValue);
    value := adcValue;
  }

  /** The `joystick` struct as the reader uses it. */
  class Joystick {
    const x: Axis
    const y: Axis
    const z: Axis

    constructor (x: Axis, y: Axis, z: Axis)
      ensures this.x == x && this.y == y && this.z == z
    {
      this.x, this.y, this.z := x, y, z;
    }

    /** The axes read in one cycle are separate objects with separate filters. */
    ghost predicate Valid()
      reads this, x, y
    {
      x != y && x.filter != y.filter
    }
  }

  /** One cycle of `ads1115_reader_task`: the x axis is read first, then the y
      axis, each with the next sample. */
  method ReadCycle(adc: Converter, j: Joystick)
    requires adc.Valid() && j.Valid()
    requires |adc.samples| >= 2
    requires CanRead(j.x, adc.samples[0]) && CanRead(j.y, adc.samples[1])
    modifies adc, j.x, j.x.filter, j.y, j.y.filter
    ensures adc.Valid()
    ensures adc.samples == old(adc.samples)[2..]
    ensures adc.configWrites == old(adc.configWrites) + [MuxFor(old(j.x.adcChannel)), MuxFor(old(j.y.adcChannel))]
    ensures j.x.filter.rawValue == old(adc.samples)[0]
    ensures j.y.filter.rawValue == old(adc.samples)[1]
    ensures j.x.filter.State() == Step(old(j.x.filter.Config()), old(j.x.filter.State()), old(adc.samples)[0]).motion
    ensures j.y.filter.State() == Step(old(j.y.filter.Config()), old(j.y.filter.State()), old(adc.samples)[1]).motion
    ensures j.x.filter.Config() == old(j.x.filter.Config())
    ensures j.y.filter.Config() == old(j.y.filter.Config())
    ensures j.x.filter.responsiveValue == Step(old(j.x.filter.Config()), old(j.x.filter.State()), old(adc.samples)[0]).value
    ensures j.y.filter.responsiveValue == Step(old(j.y.filter.Config()), old(j.y.filter.State()), old(adc.samples)[1]).value
    ensures j.x.filteredValue == ToU8(j.x.filter.responsiveValue)
    ensures j.y.filteredValue == ToU8(j.y.filter.responsiveValue)
    // each filter is stepped exactly once: the output it had becomes its
    // previous output, and the changed flag compares the two
    ensures j.x.filter.Valid() && j.y.filter.Valid()
    ensures j.x.filter.previousResponsiveValue == old(j.x.filter.responsiveValue)
    ensures j.y.filter.previousResponsiveValue == old(j.y.filter.responsiveValue)
    ensures j.x.filter.responsiveValueHasChanged <==> j.x.filter.responsiveValue != j.x.filter.previousResponsiveValue
    ensures j.y.filter.responsiveValueHasChanged <==> j.y.filter.responsiveValue != j.y.filter.previousResponsiveValue
    // no other field of either axis is written
    ensures j.x.adcChannel == old(j.x.adcChannel) && j.y.adcChannel == old(j.y.adcChannel)
    ensures j.x.rawValue == old(j.x.rawValue) && j.y.rawValue == old(j.y.rawValue)
    ensures j.x.adcMin == old(j.x.adcMin) && j.y.adcMin == old(j.y.adcMin)
    ensures j.x.adcMax == old(j.x.adcMax) && j.y.adcMax == old(j.y.adcMax)
    ensures j.x.inverted == old(j.x.inverted) && j.y.inverted == old(j.y.inverted)
  {
    var _ := ReadInput(adc, j.x);
    var _ := ReadInput(adc, j.y);
  }
}
