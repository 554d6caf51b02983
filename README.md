# creature-joystick firmware core, modelled in Dafny

This project models the logic at the core of the creature-joystick firmware.
The firmware runs on an RP2040 board and turns analog sticks into a USB
HID device. The model covers:

- **EEPROM configuration block** (`eeprom.dfy`, module `Eeprom`).
  - `parse_eeprom_data` checks the "HOP!" magic word. It reads the
    big-endian VID, PID and version, and the logging level. It fills the
    three fixed-size string globals from length-prefixed fields and then
    scans the custom strings.
  - `extract_string` advances a shared cursor. `eeprom_read` splits a read
    into page-sized I2C transfers.
  - The globals are a class `UsbConfig` with array buffers of 16, 16 and
    32 bytes. Its `Parse` method is proved against the pure `ParseSpec`.
- **Responsive analog filter** (`filter.dfy`, module `ResponsiveFilter`).
  The filter struct is a class `AnalogFilter`. One call of
  `analog_filter_get_responsive_value` is the pure function `Step`, which
  covers:
  - edge snap;
  - the error average and sleep;
  - the snap curve;
  - the exponential moving average and its clamp.
- **ADS1115 read path** (`ads1115.dfy`): select the multiplexer input, clip
  the sample, feed the axis filter, and store its output in the 8-bit axis
  field. Each reader cycle reads x, then y.
- **MCP3304 SPI path** (`adc.dfy`): channel routing, the two command bytes,
  the 12-bit decode, and the chip-select framing on the bus.
- **Built-in ADC joystick** (`joystick.dfy`): the clamp to [1500, 2560] and
  the scaling to a signed byte.
- **USB string descriptors** (`usb_descriptors.dfy`): the static 32-word
  buffer that `tud_descriptor_string_cb` fills, following section 9.6.7 of
  the USB 2.0 specification.
- **HID report sender** (`usb_hid.dfy`): the press/release flags of
  `send_hid_report`, the report chain of the completion callback, and the
  decision of `hid_task`.
- **ADC debugger's USB link state** (`usb_link.dfy`): the mount, unmount,
  suspend and resume callbacks, and `cdc_send`.
- **Logger** (`logging.dfy`): level names, the per-level gates, the
  bounded queue and the reader's tags.

`ctypes.dfy` holds the C conversions the other modules share: `uint8_t`
truncation, the `uint16_t` range, and float-to-integer truncation toward
zero.

C `float`s are modelled as exact `real`s. Each float-to-`uint16_t`
conversion is a truncation toward zero. It is guarded by a precondition
wherever C leaves the conversion undefined.

Hardware is replaced by recording objects:

- `SpiBus` records what reaches the SPI bus and the chip-select pins.
- `Converter` and `AdcUnit` stand for the two converter drivers.
- The board ID string, the USB stack's readiness, the suspended state, the
  board button and a connected CDC terminal are parameters.

## Model

| member | source | states |
|---|---|---|
| Eeprom.BigEndian16 | src/eeprom/eeprom.c:129-142 | the decoded word is a `uint16_t` whose high byte is the first byte and whose low byte is the second |
| Eeprom.WithCString | src/eeprom/eeprom.c:235-236 | after the copy the buffer starts with the string, then a NUL, and every byte past the NUL is unchanged |
| Eeprom.CStringRoundTrip | src/eeprom/eeprom.c:235-236 | a NUL-free string written with its terminator reads back, `strlen`-style, as the same string |
| Eeprom.ExtractSpec | src/eeprom/eeprom.c:206-240 | succeeds (0) exactly when the length byte exists and is 0xFF, or announces a string that is present and shorter than the buffer. 0xFF gives the empty string and moves the cursor by 1; success otherwise gives the announced slice and moves the cursor past it. With no length byte the cursor stays put; a failed size check has already consumed the length byte |
| Eeprom.ExtractString | src/eeprom/eeprom.c:206-240 | the return code and cursor are those of `ExtractSpec`; on success the buffer holds the string and a NUL with the rest of the buffer unchanged, and on failure the buffer is untouched |
| Eeprom.ParseSpec | src/eeprom/eeprom.c:113-190 | a short block or a wrong magic word returns -1 and changes no global. Otherwise VID, PID, version and logging level are written even when a string fails later, which is a partial update. On success each string fits its buffer with its NUL: serial and product have at most 15 characters and manufacturer at most 31 |
| Eeprom.ParseStringFields | src/eeprom/eeprom.c:145-150 | after a good header the result is 0 exactly when all three string fields extract. A failing field returns -1. The strings parsed before it stay written, and it and the later strings keep their old contents |
| Eeprom.ParseSucceeds | src/eeprom/eeprom.c:113-190 | with a good header and three string fields that extract, the result is 0 and the globals hold exactly the header words and the three strings, each followed by its NUL |
| Eeprom.UsbConfig.constructor | src/main.c:41-49 | the globals start with zero words, zero-filled 16/16/32-byte strings, and logging level 4 (`LOG_LEVEL_DEBUG`) |
| Eeprom.UsbConfig.Parse | src/eeprom/eeprom.c:113-190 | the return code and every global afterwards are those of `ParseSpec` on the globals' previous contents; the custom-string scan terminates, its "too long" branch is unreachable, and it never changes the result |
| Eeprom.EncodeField | src/eeprom/eeprom.c:213-237 | a string field is its length byte followed by the string |
| Eeprom.EncodeImage | src/eeprom/eeprom.c:117-150 | an encoded block passes the length and magic-word checks |
| Eeprom.ExtractField | src/eeprom/eeprom.c:223-237 | a length-prefixed field that fits its buffer is extracted whole, and the cursor lands just past it |
| Eeprom.HeaderFields | src/eeprom/eeprom.c:129-142 | the fixed header of an encoded block decodes back to the encoded VID, PID, version and level |
| Eeprom.EncodedImageFields | src/eeprom/eeprom.c:129-150 | in an encoded block followed by any bytes, the header holds the encoded words and each string field is extracted whole, with the cursor moving from one field to the next |
| Eeprom.ParseEncodedImage | src/eeprom/eeprom.c:113-190 | parsing an encoded block, whatever follows it and whatever the globals held, returns 0 and yields exactly the encoded VID, PID, version, level and three strings |
| Eeprom.ReadChunks | src/eeprom/eeprom.c:85-103 | a request is split into transfers that add up to `len`, with no transfer for `len` = 0. Every transfer is 1 to 64 bytes and all but the last are full pages. The transfers are contiguous in the buffer, and each sends, high byte first, the 16-bit EEPROM address of its first byte |
| ResponsiveFilter.SnapCurve | src/joystick/responsive_analog_read_filter.c:199-208 | the curve is at most 1, at least 0 for non-negative input, and 0 at 0 |
| ResponsiveFilter.SnapCurveMonotone | src/joystick/responsive_analog_read_filter.c:199-208 | the curve never decreases on non-negative inputs |
| ResponsiveFilter.EdgeSnapped | src/joystick/responsive_analog_read_filter.c:134-141 | the input changes only with both sleep and edge snap enabled and the input within the threshold of an edge. Near the low edge it becomes `2v - threshold`, never larger; near the high edge it becomes `2v - resolution + threshold`, never smaller |
| ResponsiveFilter.SnappedInput | src/joystick/responsive_analog_read_filter.c:134-141 | the edge-snapped input stored back into the `uint16_t` parameter is in range, and equals the input when edge snap does not apply |
| ResponsiveFilter.ClampToResolution | src/joystick/responsive_analog_read_filter.c:188-193 | the clamped value lies in [0, resolution - 1] and is unchanged when already inside |
| ResponsiveFilter.SnapFactor | src/joystick/responsive_analog_read_filter.c:176-182 | the factor is the snap curve of the scaled difference and lies in [0, 1]; the sleep-enabled `0.5 + 0.5` factor changes nothing |
| ResponsiveFilter.EaseBetween | src/joystick/responsive_analog_read_filter.c:185 | with a snap in [0, 1], the moving-average step lands between the old value and the target; it lands on the old value for snap 0 and on the target for snap 1 |
| ResponsiveFilter.Step | src/joystick/responsive_analog_read_filter.c:126-196 | on every step the error average is updated. Sleep is recomputed as `abs(trunc(error)) < threshold` only when sleep is enabled. While asleep the smoothed value is frozen and its truncation returned. While awake it eases toward the input by the snap factor of the truncated difference and is clamped to [0, resolution - 1], and the output is its truncation. The output always fits `uint16_t` |
| ResponsiveFilter.StepNeverOvershoots | src/joystick/responsive_analog_read_filter.c:185-193 | an awake step moves the smoothed value toward the input and never past it |
| ResponsiveFilter.StepAtRest | src/joystick/responsive_analog_read_filter.c:176-195 | when the input equals the smoothed value, the smoothed value stays and is returned truncated, asleep or awake |
| ResponsiveFilter.ClampUnit | src/joystick/responsive_analog_read_filter.c:89-99 | the multiplier is clamped to [0, 1]: values above become 1, values below become 0, and values inside are unchanged |
| ResponsiveFilter.ClampUnitIdempotent | src/joystick/responsive_analog_read_filter.c:89-99 | clamping twice is clamping once |
| ResponsiveFilter.AnalogFilter.constructor | src/joystick/responsive_analog_read_filter.c:40-62 | the given sleep flag and multiplier, resolution 4096, threshold 25 and edge snap on; the smoothed value and error average start at 0, not sleeping, with raw, responsive and previous values 0 and "has changed" false |
| ResponsiveFilter.AnalogFilter.GetRawValue | src/joystick/responsive_analog_read_filter.c:64-66 | the raw value is a `uint16_t` |
| ResponsiveFilter.AnalogFilter.GetValue | src/joystick/responsive_analog_read_filter.c:68-70 | the responsive value is a `uint16_t` |
| ResponsiveFilter.AnalogFilter.GetResponsiveValue | src/joystick/responsive_analog_read_filter.c:126-196 | the new smoothing state and the returned value are those of `Step`; the lower clamp branch is unreachable |
| ResponsiveFilter.AnalogFilter.Update | src/joystick/responsive_analog_read_filter.c:80-87 | stores the raw sample, makes the old responsive value the previous one, stores the new output of `Step` as the responsive value, and sets "has changed" exactly when new and previous differ; the configuration is untouched |
| ResponsiveFilter.AnalogFilter.SetSnapMultiplier | src/joystick/responsive_analog_read_filter.c:89-99 | only the multiplier changes, to `ClampUnit` of the argument |
| ResponsiveFilter.AnalogFilter.EnableSleep | src/joystick/responsive_analog_read_filter.c:102-104 | only the sleep flag changes, to true |
| ResponsiveFilter.AnalogFilter.DisableSleep | src/joystick/responsive_analog_read_filter.c:106-108 | only the sleep flag changes, to false |
| ResponsiveFilter.AnalogFilter.EnableEdgeSnap | src/joystick/responsive_analog_read_filter.c:110-112 | only the edge-snap flag changes, to true |
| ResponsiveFilter.AnalogFilter.DisableEdgeSnap | src/joystick/responsive_analog_read_filter.c:114-116 | only the edge-snap flag changes, to false |
| ResponsiveFilter.AnalogFilter.SetActivityThreshold | src/joystick/responsive_analog_read_filter.c:118-120 | only the threshold changes, to the argument |
| ResponsiveFilter.AnalogFilter.SetAnalogResolution | src/joystick/responsive_analog_read_filter.c:122-124 | only the resolution changes, to the `uint16_t` argument |
| Ads1115.MuxFor | src/joystick/ads1115.c:48-76 | channels 0-3 select the matching single-ended input, and every other channel selects input 0 |
| Ads1115.MuxForInverse | src/joystick/ads1115.c:48-76 | an input is selected exactly by its own channel, or, for input 0, by an out-of-range channel |
| Ads1115.Clip | src/joystick/ads1115.c:81-91 | the clipped value lies in [0, 65535] and equals the sample when already inside |
| Ads1115.ClipNeverFires | src/joystick/ads1115.c:81-91 | for a `uint16_t` sample neither clip fires, so the value read is returned unchanged |
| Ads1115.ReadInput | src/joystick/ads1115.c:40-108 | a null axis returns 0 and changes nothing. Otherwise one configuration is written with the axis' multiplexer input and the sample is returned unchanged. The filter is stepped exactly once, with that sample, and its changed flag says whether its output moved. `filtered_value` gets the filter output modulo 256. The raw value, minimum, maximum, inversion flag and channel of the axis are not written |
| Ads1115.ReadCycle | src/joystick/ads1115.c:142-143 | x takes the first sample and y the second. Each filter keeps its settings and is stepped once with its sample: its motion state and responsive value are those of one `Step`. Each 8-bit field holds its filter's new output modulo 256. Each filter's previous output is its old output, and its changed flag says whether the output moved. The channel, raw value, minimum, maximum and inversion flag of each axis are not written |
| Adc.LocalChannel | src/joystick/adc.c:52 | the converter-local channel is below 8 and congruent to the board channel modulo 8 |
| Adc.ChipSelectAsWritten | src/joystick/adc.c:53 | as written, ADC0 is selected exactly for channels up to and including 8 |
| Adc.GuardAsWrittenRejectsAllChannels | src/joystick/adc.c:50 | as written, the entry assertion fails for every one of the 16 board channels |
| Adc.ChipSelectAsWrittenCollides | src/joystick/adc.c:52-53 | as written, channel 8 reaches the same converter and local channel as channel 0 |
| Adc.ChipSelect | src/joystick/adc.c:53 | corrected: ADC0 exactly for channels 0-7, ADC1 otherwise |
| Adc.BoardChannel | src/joystick/adc.c:12-17 | a chip select and a local channel name one of the 16 board channels |
| Adc.RoutingRoundTrip | src/joystick/adc.c:52-53 | with the corrected chip select, the chip select and the local channel give the board channel back |
| Adc.RoutingInjective | src/joystick/adc.c:52-53 | with the corrected chip select, no two valid channels share a converter input |
| Adc.StartByte | src/joystick/adc.c:70-72 | the first command byte has the start and single-ended bits `0b1100` on top, and the channel's upper two bits below them |
| Adc.ChannelByte | src/joystick/adc.c:74-75 | the second command byte is 0x80 for an odd channel and 0 for an even one, because the shift is truncated to 8 bits |
| Adc.CommandChannel | src/joystick/adc.c:70-75 | the channel a converter reads from the two command bytes is one of its 8 inputs |
| Adc.CommandRoundTrip | src/joystick/adc.c:70-75 | the command bytes select exactly the requested channel |
| Adc.Decode | src/joystick/adc.c:81-89 | the reading lies in [0, 4095]; its high byte is the low nibble of the first response byte and its low byte is the second; forcing the top three bits with 224 has no effect |
| Adc.DecodeIgnoresHighBits | src/joystick/adc.c:81-82 | bits of the first response byte above the low nibble never reach the reading |
| Adc.DecodeInjective | src/joystick/adc.c:81-89 | equal readings come from the same nibble and second byte |
| Adc.ConversionFrame | src/joystick/adc.c:68-86 | a conversion is five bus events: the chip select goes low before the three byte exchanges and high after the last one |
| Adc.AdcRead | src/joystick/adc.c:60-92 | the bus sees exactly the conversion frame with the two command bytes, three bytes are consumed, and the reading is the decode of the second and third bytes received |
| Adc.ReadChannel | src/joystick/adc.c:47-58 | with the corrected guard and chip select, a valid channel is converted on its own converter and local channel |
| Joystick.ClampReading | src/joystick/joystick.c:27-35 | the reading is clamped to [1500, 2560]: values above become 2560, values below become 1500, and values inside are unchanged |
| Joystick.Percent | src/joystick/joystick.c:38 | the fraction of the travel lies in [0, 1] |
| Joystick.Scale | src/joystick/joystick.c:38-39 | the scaled value fits a signed byte, [-128, 127] |
| Joystick.ScaleEndpoints | src/joystick/joystick.c:38-39 | 1500 maps to -128 and 2560 to 127 |
| Joystick.ScaleMonotone | src/joystick/joystick.c:38-39 | the scaling never decreases along the travel |
| Joystick.ReadingMonotone | src/joystick/joystick.c:27-39 | clamp and scaling together never decrease in the raw reading |
| Joystick.LegacyAxis.constructor | src/joystick/joystick.c:45-55 | the axis keeps its pin and starts at value 0 |
| Joystick.ReadValue | src/joystick/joystick.c:21-42 | selects ADC input `pin - 26`, consumes one reading, and stores its clamped and scaled value, which lies in [-128, 127] |
| Joystick.LegacyJoystick.constructor | src/joystick/joystick.c:58-72 | x is built on the first pin and y on the second, as two distinct axes at value 0 |
| Joystick.ReadCycle | src/joystick/joystick.c:100-103 | x takes the first reading and y the second, and the selected input is y's afterwards |
| UsbDescriptors.Header | src/usb/usb_descriptors.c:186 | the low byte of the header word is `bLength` = 2 × characters + 2, and its high byte is the STRING type |
| UsbDescriptors.CodeUnits | src/usb/usb_descriptors.c:180-182 | each ASCII character becomes one code unit of the same value |
| UsbDescriptors.Capped | src/usb/usb_descriptors.c:176-177 | a table string is cut to its first 31 characters, and shorter strings are unchanged |
| UsbDescriptors.Payload | src/usb/usb_descriptors.c:138-189 | index 0 answers the single code unit 0x0409. Index 3 answers the board ID, uncapped. Other indexes inside the 6-entry table answer their string capped at 31. Indexes at or beyond the table answer NULL. The language ID plays no part |
| UsbDescriptors.AsciiOfCodeUnits | src/usb/usb_descriptors.c:180-182 | the code units of a string decode back to that string |
| UsbDescriptors.DescriptorBuffer.constructor | src/usb/usb_descriptors.c:134 | the static buffer has 32 words, all 0 |
| UsbDescriptors.DescriptorBuffer.GetString | src/usb/usb_descriptors.c:138-189 | NULL exactly when `Payload` is NULL. Otherwise word 0 is the header for the payload's length and the following words are the payload. Past the string, words 0-15 are zero, because `memset` clears 32 bytes; words 16-31 keep what earlier requests left |
| UsbDescriptors.DescriptorBuffer.CopyUnits | src/usb/usb_descriptors.c:180-182 | the copy loop puts code unit i into word i + 1 and changes no other word |
| UsbDescriptors.ReceivedIsPayload | src/usb/usb_descriptors.c:186 | a host reading `bLength` bytes receives exactly the payload, whatever stale words lie beyond it |
| UsbDescriptors.TableStringRoundTrip | src/usb/usb_descriptors.c:171-182 | a host decodes every table string back to its first 31 characters |
| UsbHid.Send | src/usb/usb.c:74-162 | not ready: nothing is sent and no flag changes. Mouse: always (5, 5) with no button. Keyboard, consumer and gamepad each send their press while the button is down and set their flag; with the button up they send one release only if the flag was set, then clear it. Any other ID sends nothing |
| UsbHid.SendKeepsConsistent | src/usb/usb.c:81-158 | each flag stays in step with the reports of its kind. A release is never sent twice in a row or before a press, and a flag is set exactly when the last report of its kind was a press |
| UsbHid.NothingSentIsConsistent | src/usb/usb.c:84-135 | the three static flags start false, matching an empty report history |
| UsbHid.NextInChain | src/usb/usb.c:172-174 | the next report ID is the completed ID plus one in `uint8_t`, sent only while below `REPORT_ID_COUNT` |
| UsbHid.ChainAfterGamepad | src/usb/usb.c:172-177 | after the gamepad report the chain tries the CDC ID, which sends nothing, and then stops |
| UsbHid.HidSender.constructor | src/usb/usb.c:84-135 | all flags start false with nothing sent |
| UsbHid.HidSender.SendReport | src/usb/usb.c:74-162 | the new flags and the reports appended are those of `Send`, and the flags stay consistent with the history |
| UsbHid.HidSender.ReportComplete | src/usb/usb.c:167-178 | sends the next report in the chain when there is one, and otherwise changes nothing |
| UsbHid.HidSender.Poll | src/usb/usb.c:219-229 | a press while suspended counts one remote wakeup and sends nothing; otherwise the keyboard report starts the chain |
| UsbLink.Apply | src/adc-debugger/usb.c:83-114 | mount sets both flags; unmount clears "mounted" only; suspend clears both, whatever the wakeup argument; resume sets "bus active" only |
| UsbLink.ApplyKeepsCoherent | src/adc-debugger/usb.c:83-114 | no callback leaves the device mounted on an inactive bus |
| UsbLink.RunKeepsCoherent | src/adc-debugger/usb.c:83-114 | no sequence of callbacks does either |
| UsbLink.MountedIff | src/adc-debugger/usb.c:83-107 | from the initial state, the device is mounted exactly when some mount has not been followed by an unmount or a suspend |
| UsbLink.SuspendResumeStaysUnmounted | src/adc-debugger/usb.c:100-114 | after a suspend and a resume the bus is active but the device is not mounted |
| UsbLink.UsbState.constructor | src/adc-debugger/usb.c:16-19 | no reports sent, no events processed, not mounted, bus inactive |
| UsbLink.UsbState.MountCb | src/adc-debugger/usb.c:83-88 | the flags become those of `Apply(Mount)` |
| UsbLink.UsbState.UmountCb | src/adc-debugger/usb.c:91-95 | the flags become those of `Apply(Unmount)` |
| UsbLink.UsbState.SuspendCb | src/adc-debugger/usb.c:100-107 | the flags become those of `Apply(Suspend)` |
| UsbLink.UsbState.ResumeCb | src/adc-debugger/usb.c:110-114 | the flags become those of `Apply(Resume)` |
| UsbLink.UsbState.CdcSend | src/adc-debugger/usb.c:121-134 | when connected, the text is written once and the LED goes on, then off; when not connected, nothing is written and the LED is untouched; the LED always ends off |
| Logging.LevelName | src/logging/logging.c:28-45 | levels 5 to 0 are named Verbose, Debug, Info, Warning, Error and Fatal, and any other level is "Unknown" |
| Logging.LevelOfName | src/logging/logging.c:28-45 | a recognised name stands for a level of at most 5 |
| Logging.LevelNameRoundTrip | src/logging/logging.c:28-45 | each of the six levels is recovered from its name, and every other level maps to a name that stands for no level |
| Logging.Tag | src/logging/logging.c:171-192 | the reader's tag is three characters, `[`, the initial of the level name, `]`; an unknown level gets `[?]` |
| Logging.TagsDistinct | src/logging/logging.c:171-192 | the six levels get six different tags |
| Logging.Enabled | src/logging/logging.c:47-127 | the gates `> 4`, `> 3`, `> 2`, `> 1` and `> 0` of `verbose` to `error`, plus no gate for `fatal`, let a message through exactly when its level is at most the configured level; `fatal` always passes |
| Logging.EnabledMonotone | src/logging/logging.c:47-127 | raising the configured level never silences a message |
| Logging.CreateMessage | src/logging/logging.c:129-139 | the message keeps exactly the level passed in. Its text is the formatted text when that has fewer than 256 characters, and exactly its first 255 characters otherwise |
| Logging.Logger.constructor | src/logging/logging.c:17 | before `logger_init` there is no queue |
| Logging.Logger.Init | src/logging/logging.c:21-26 | the queue exists and is empty |
| Logging.Logger.Emit | src/logging/logging.c:47-127 | a message is queued only when its gate is open and the queue exists, and then it is appended at the back |
| Logging.Logger.ReadNext | src/logging/logging.c:169-192 | the oldest message is removed and returned with the tag of its level |

## Left out

- Joystick.ReadValue: selects input `gpioPin - 26` as an unbounded integer. A pin below 26 would wrap around in C's unsigned `adc_select_input` argument, and that case is not modelled.
- Floating point: the filter state and the joystick scaling are exact
  reals, so `float` rounding is not modelled. C's `float` to `uint16_t`
  conversion is undefined for negative or oversized values.
  `ResponsiveFilter.StepDefined` is therefore a precondition of `Step`,
  `GetResponsiveValue`, `Update` and the ADS1115 read path. It requires:
  - the edge-snapped input converts;
  - the resolution is at least 1;
  - the smoothed value fits a `uint16_t`;
  - the snap multiplier is not negative. This condition has a different
    cause from the others: a negative multiplier can make the snap curve
    divide by zero. `analog_filter_set_snap_multiplier` clamps the
    multiplier to [0, 1], but `create_analog_filter` stores it unchecked.
- ResponsiveFilter.AnalogFilter.GetResponsiveValue: requires the
  conversions to be defined (see above). The firmware can feed the filter
  inputs where C's behaviour is undefined, such as a raw value below 12.5
  with edge snap on.
- `analog_filter_has_changed` and `analog_filter_is_sleeping` are plain
  field reads (`AnalogFilter.HasChanged`, `AnalogFilter.IsSleeping`) and
  carry no contract.
- The RTOS is concurrency, not stateable logic:
  - task creation, delays and suspension;
  - the endless reader loops, of which one iteration is modelled as
    `ReadCycle` and `Poll`;
  - queue timeouts and blocking receive.
  The log queue drops a message when it is full instead of waiting 10
  ticks.
- Bus and pin I/O are recording objects or parameters:
  - I2C, SPI, GPIO and the ADS1115 driver;
  - the RP2040 ADC and `pico_get_unique_board_id`;
  - `tud_hid_ready`, `tud_suspended`, `board_button_read` and
    `tud_cdc_connected`.
  The bytes `eeprom_read` receives are not modelled, only the transfers it
  issues. A remote wakeup is counted, not performed.
- Text formatting (`vsnprintf`, `snprintf`, `printf`) is not modelled: a
  log message is given as already formatted text. The reader's time stamp
  and output buffer are left out as well. The `debug`/`info` logging calls
  made by the other modules are not modelled.
- The custom strings that `parse_eeprom_data` reads after the three fixed
  fields are only logged by the firmware. The model scans them but keeps
  no copy.
- `dump_hex`, `eeprom_setup_i2c`, `joystick_adc_init`,
  `joystick_ads1115_init`, `start_joystick` and the startup code in the
  main files only configure hardware or start tasks, so they are left out.
- `tud_hid_get_report_cb` and `tud_hid_set_report_cb` have empty bodies,
  and so do the joystick's own mount, unmount, suspend and resume
  callbacks in src/usb/usb.c. `usb_device_task` only runs the USB stack.
- `usb_init`, `usb_start` and the timer callback of the ADC debugger start
  the stack and a timer. Only the LED-off state they leave is modelled.
- The HID report descriptor, the configuration and device descriptor
  tables, the status lights and the display are constant tables or
  rendering over floats and libraries.
- `register_axis`, `update_axis` and the button helpers are declared in
  src/joystick/joystick.h. Their implementations are not part of this
  model.
- The keyboard, mouse and consumer-control report IDs are not defined by
  the firmware's headers. They are parameters, required to be distinct
  from each other and from the gamepad ID, as the C `switch` needs.

## Findings

| source | as written | input that shows it | evidently intended | confidence | as-written member | corrected member |
|---|---|---|---|---|---|---|
| src/joystick/adc.c:50 | `assert(analog_channel > TOTAL_NUM_ADC_CHANNELS)` holds only for channels above 16 | any real channel, e.g. `analog_channel = 0`, fails the assertion | the channel must exist: `analog_channel < 16` | high; not executed | Adc.GuardAsWrittenRejectsAllChannels | Adc.ReadChannel |
| src/joystick/adc.c:53 | `analog_channel <= CHANNELS_PER_ADC` selects ADC0 for channels 0-8 | `analog_channel = 8` reads ADC0 local channel 0, the same input as channel 0 | channels 0-7 on ADC0 and 8-15 on ADC1: `analog_channel < CHANNELS_PER_ADC` | high; not executed | Adc.ChipSelectAsWrittenCollides | Adc.RoutingInjective |
