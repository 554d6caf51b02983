/** The 16-channel analog front end built from two MCP3304 converters on one
    SPI bus: routing a board channel to a converter and its chip-select pin,
    the two command bytes that start a single-ended conversion, and the
    decoding of the 12-bit result. The SPI bus and the chip-select pins are a
    `SpiBus` object that records what is driven onto them and hands back the
    bytes the converter clocks out. */
module Adc {
  import opened CTypes

  const ADC0_CS_PIN: int := 5
  const ADC1_CS_PIN: int := 6
  const CHANNELS_PER_ADC: int := 8
  const NUMBER_OF_ADCS: int := 2
  const TOTAL_NUM_ADC_CHANNELS: int := CHANNELS_PER_ADC * NUMBER_OF_ADCS

  /** The converter-local channel of a board channel. */
  function LocalChannel(channel: Byte): (local: Byte)
    ensures local < CHANNELS_PER_ADC
    ensures (channel - local) % CHANNELS_PER_ADC == 0
  {
    channel % CHANNELS_PER_ADC
  }

  // ---------------------------------------------------------------------
  // Channel routing as written

  /** The guard `joystick_read_adc` asserts on entry, as written: it holds
      only for channels above the total channel count. */
  predicate GuardAsWritten(channel: Byte) {
    channel > TOTAL_NUM_ADC_CHANNELS
  }

  /** The chip select `joystick_read_adc` picks, as written: ADC0 for every
      channel up to and including 8. */
  function ChipSelectAsWritten(channel: Byte): (pin: int)
    ensures pin == ADC0_CS_PIN <==> channel <= CHANNELS_PER_ADC
    ensures pin == ADC0_CS_PIN || pin == ADC1_CS_PIN
  {
    if channel <= CHANNELS_PER_ADC then ADC0_CS_PIN else ADC1_CS_PIN
  }

  /** The guard as written rejects every channel the board has: channel 0
      included, each of the sixteen real channels fails the assertion. */
  lemma GuardAsWrittenRejectsAllChannels(channel: Byte)
    requires channel < TOTAL_NUM_ADC_CHANNELS
    ensures !GuardAsWritten(channel)
  {
  }

  /** The chip select as written sends channel 8 to the same converter input
      as channel 0: two board channels read the same pin. */
  lemma ChipSelectAsWrittenCollides()
    ensures ChipSelectAsWritten(8) == ChipSelectAsWritten(0)
    ensures LocalChannel(8) == LocalChannel(0)
  {
  }

  // ---------------------------------------------------------------------
  // Channel routing as intended

  /** The guard as intended: the channel exists. */
  predicate ChannelValid(channel: Byte) {
    channel < TOTAL_NUM_ADC_CHANNELS
  }

  /** The chip select as intended: channels 0-7 on ADC0, 8-15 on ADC1. */
  function ChipSelect(channel: Byte): (pin: int)
    ensures pin == ADC0_CS_PIN <==> channel < CHANNELS_PER_ADC
    ensures pin == ADC0_CS_PIN || pin == ADC1_CS_PIN
  {
    if channel < CHANNELS_PER_ADC then ADC0_CS_PIN else ADC1_CS_PIN
  }

  /** The board channel wired to a converter input. */
  function BoardChannel(pin: int, local: Byte): (channel: int)
    requires pin == ADC0_CS_PIN || pin == ADC1_CS_PIN
    requires local < CHANNELS_PER_ADC
    ensures 0 <= channel < TOTAL_NUM_ADC_CHANNELS
  {
    (if pin == ADC0_CS_PIN then 0 else CHANNELS_PER_ADC) + local
  }

  /** The intended routing is one-to-one: the chip select and the local
      channel give the board channel back. */
  lemma RoutingRoundTrip(channel: Byte)
    requires ChannelValid(channel)
    ensures BoardChannel(ChipSelect(channel), LocalChannel(channel)) == channel
  {
  }

  /** Consequently no two valid channels share a converter input. */
  lemma RoutingInjective(c: Byte, c': Byte)
    requires ChannelValid(c) && ChannelValid(c')
    requires ChipSelect(c) == ChipSelect(c') && LocalChannel(c) == LocalChannel(c')
    ensures c == c'
  {
    RoutingRoundTrip(c);
    RoutingRoundTrip(c');
  }

  // ---------------------------------------------------------------------
  // MCP3304 command and response bytes

  /** The first command byte: the start bit and the single-ended bit
      (`0b0000_1100`), followed by the two high bits of the channel. */
  function StartByte(local: Byte): (b: bv8)
    requires local < CHANNELS_PER_ADC
    ensures b & 0xFC == 0x0C
    ensures (b & 0x03) as int == local / 2
  {
    0x0C | ((local as bv8) >> 1)
  }

  /** The second command byte: the channel shifted left by 7 and kept to
      8 bits, leaving only its lowest bit, in the top position. */
  function ChannelByte(local: Byte): (b: bv8)
    requires local < CHANNELS_PER_ADC
    ensures b == if local % 2 == 1 then 0x80 else 0x00
  {
    0 | ((local as bv8) << 7)
  }

  /** The channel a converter reads from the two command bytes. */
  function CommandChannel(start: bv8, low: bv8): (local: int)
    ensures 0 <= local < CHANNELS_PER_ADC
  {
    ((start & 0x03) as int) * 2 + (if low & 0x80 == 0x80 then 1 else 0)
  }

  /** The command bytes select exactly the requested channel. */
  lemma CommandRoundTrip(local: Byte)
    requires local < CHANNELS_PER_ADC
    ensures CommandChannel(StartByte(local), ChannelByte(local)) == local
  {
  }

  /** The reading assembled from the two response bytes: the low nibble of the
      first (after forcing its three top bits high, which the mask discards)
      and all of the second. */
  function Decode(b1: bv8, b2: bv8): (reading: int)
    ensures 0 <= reading <= 4095
    ensures reading / 256 == (b1 & 0x0F) as int
    ensures reading % 256 == b2 as int
  {
    var hi := (b1 | 224) & 15;
    assert hi == b1 & 0x0F;
    hi as int * 256 + b2 as int
  }

  /** The bits of the first response byte above the 12-bit result never
      reach the reading. */
  lemma DecodeIgnoresHighBits(b1: bv8, b1': bv8, b2: bv8)
    requires b1 & 0x0F == b1' & 0x0F
    ensures Decode(b1, b2) == Decode(b1', b2)
  {
  }

  /** Distinct 12-bit results decode to distinct readings: the reading
      determines the low nibble of the first byte and the whole second byte. */
  lemma DecodeInjective(b1: bv8, b2: bv8, b1': bv8, b2': bv8)
    requires Decode(b1, b2) == Decode(b1', b2')
    ensures b1 & 0x0F == b1' & 0x0F && b2 == b2'
  {
    var r := Decode(b1, b2);
    assert (b1 & 0x0F) as int == r / 256 == (b1' & 0x0F) as int;
  }

  // ---------------------------------------------------------------------
  // The bus

  datatype BusEvent =
    | Pin(pin: int, level: int)   // a chip-select pin driven low (0) or high (1)
    | Exchange(sent: bv8)         // one byte shifted out while one is shifted in

  /** The SPI bus with its chip-select pins: what has been driven onto it so
      far, and the bytes the selected converter will shift back. */
  class SpiBus {
    var events: seq<BusEvent>
    var incoming: seq<bv8>

    constructor (incoming: seq<bv8>)
      ensures events == [] && this.incoming == incoming
    {
      events := [];
      this.incoming := incoming;
    }

    /** `gpio_put`. */
    method Put(pin: int, level: int)
      modifies this
      ensures events == old(events) + [Pin(pin, level)]
      ensures incoming == old(incoming)
    {
      events := events + [Pin(pin, level)];
    }

    /** One full-duplex byte transfer; `spi_write_blocking` drops the byte it
        receives, `spi_read_blocking` sends its fill byte. */
    method Transfer(sent: bv8) returns (received: bv8)
      requires |incoming| > 0
      modifies this
      ensures events == old(events) + [Exchange(sent)]
      ensures received == old(incoming)[0] && incoming == old(incoming)[1..]
    {
      received := incoming[0];
      incoming := incoming[1..];
      events := events + [Exchange(sent)];
    }
  }

  /** The bus traffic of one conversion on one converter. */
  function ConversionFrame(local: Byte, pin: int): (frame: seq<BusEvent>)
    requires local < CHANNELS_PER_ADC
    ensures |frame| == 5
    // chip select goes low before the first byte and high after the last
    ensures frame[0] == Pin(pin, 0) && frame[4] == Pin(pin, 1)
    ensures forall k :: 1 <= k < 4 ==> frame[k].Exchange?
  {
    [Pin(pin, 0), Exchange(StartByte(local)), Exchange(ChannelByte(local)),
     Exchange(0), Pin(pin, 1)]
  }

  /** `adc_read`: select the converter, send the two command bytes, clock in
      the result and deselect. */
  method AdcRead(bus: SpiBus, local: Byte, pin: int) returns (reading: int)
    requires local < CHANNELS_PER_ADC
    requires |bus.incoming| >= 3
    modifies bus
    ensures bus.events == old(bus.events) + ConversionFrame(local, pin)
    ensures bus.incoming == old(bus.incoming)[3..]
    ensures reading == Decode(old(bus.incoming)[1], old(bus.incoming)[2])
  {
    bus.Put(pin, 0);
    var commandBits: bv8 := 12;
    commandBits := commandBits | ((local as bv8) >> 1);
    var _ := bus.Transfer(commandBits);
    commandBits := 0;
    commandBits := commandBits | ((local as bv8) << 7);
    var b1 := bus.Transfer(commandBits);
    b1 := b1 | 224;
    var hi := b1 & 15;
    var b2 := bus.Transfer(0);
    bus.Put(pin, 1);
    reading := hi as int * 256 + b2 as int;
    assert hi == old(bus.incoming)[1] & 0x0F;
  }

  /** `joystick_read_adc` with the guard and the chip select as intended. */
  method ReadChannel(bus: SpiBus, channel: Byte) returns (reading: int)
    requires ChannelValid(channel)
    requires |bus.incoming| >= 3
    modifies bus
    ensures bus.events == old(bus.events) + ConversionFrame(LocalChannel(channel), ChipSelect(channel))
    ensures bus.incoming == old(bus.incoming)[3..]
    ensures reading == Decode(old(bus.incoming)[1], old(bus.incoming)[2])
  {
    reading := AdcRead(bus, LocalChannel(channel), ChipSelect(channel));
  }
}
