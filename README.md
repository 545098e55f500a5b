# TinyPICO drivers in Dafny

This project models three small drivers of the TinyPICO ESP32 board support
code and proves their contracts:

- **UM_MCP23017**, the driver for the 16-pin I2C GPIO expander (`mcp23017.dfy`).
  - The device is a class over a 22-byte register file, addressed by the
    register numbers of the data sheet.
  - Every operation reads or writes the device's byte registers. The writing
    operations other than `begin()`, `write()` and `setupInterrupts()` are a
    read-modify-write of one bit. The rest only read.
  - A write to GPIOA or GPIOB also lands in the port's output latch (OLATA or
    OLATB), as on the device. So `digitalWrite` calls to several pins of one
    port add up. IOCONA and IOCONB are two addresses of one configuration
    register, so a write to either lands in both.
  - `update()` is an edge detector. It compares the current 16-bit port
    snapshot with the previous one under a watch mask. It calls the
    registered change handler once per changed pin, in ascending pin order,
    with the pin's active-low level. The handler calls go to a log.
- **UM_ADS1015**, the driver for the 12-bit I2C ADC (`ads1015.dfy`).
  - Words are written as two big-endian bytes and read back from two.
  - The CONFIG word of a read is the OR of the default flags, the gain, the
    input multiplexer flag and the start bit. The comparator's CONFIG word
    has its own defaults and no start bit.
  - The 12-bit conversion result is shifted right by 4.
    `analogReadDifferential()` and `getLastConversionResults()` sign-extend
    it; `analogReadSingleEnded()` returns it unsigned.
  - The bus is a log of transfers. The bytes the device answers with are
    parameters.
- **TinyPICO**, the helper for the on-board APA102 ("DotStar") RGB LED and the
  battery charge pin (`tinypico.dfy`).
  - Colours are packed into and unpacked from the three-byte pixel buffer.
  - The stored brightness is b + 1, wrapping.
  - `DotStar_Show` sends a 9-byte frame, bit-banged on two GPIO pins. Every
    pin write `swspi_out` makes is logged.
  - The colour wheel drives `DotStar_CycleColor`.
  - The charge check samples a pin ten times.

Shared pieces:

- `bits.dfy` holds Arduino's `bitRead` on bytes and words, `bitWrite` on
  bytes, and an `Option` type.
- `arduino.dfy` holds the Arduino core's `HIGH`/`LOW` and the pin-mode
  constants.

The headline results:

- **GPIO expander.** `update()` reports exactly the watched pins whose level
  changed, in ascending order and each once (`Mcp23017.ChangedPinsExact`,
  `Mcp23017.UpdateNotifiesChangedPins`, `Mcp23017.Mcp23017.Update`). An
  unchanged snapshot reports nothing (`Mcp23017.RepeatedSnapshotIsSilent`).
- **LED wire.** A receiver that latches the data line on each write that
  drives the clock line high recovers exactly the bytes `DotStar_Show` sent, whatever the data
  line's earlier level (`TinyPico.WireRoundTrip`, `TinyPico.TinyPico.Show`).
- **ADC marshalling.** A word survives the byte split and join. The sign
  extension maps 0x800-0xFFF onto -2048..-1. A 12-bit threshold survives the
  encoding `startComparator` uses (`Ads1015.JoinSplit`,
  `Ads1015.SignExtensionOfTwelveBits`, `Ads1015.ThresholdRoundTrip`).

The change detector's default watch mask is 0xFF, both in
`RegisterChangeCB(fn)` (`MCP23017.h:102`) and in the field initialiser
(`MCP23017.h:118`). So by default only pins 0-7 are reported
(`Mcp23017.DefaultMaskWatchesPortA`).

## Model

| member | source | states |
|---|---|---|
| Bits.Bit8 | TinyPICO-IOExpander/src/MCP23017.cpp:160 | (no contract of its own) bitRead on a byte; ZeroIffNoBit ties it to the byte's value |
| Bits.Bit16 | TinyPICO-IOExpander/src/MCP23017.cpp:197 | (no contract of its own) bitRead on a word; MaskTest16 ties it to update()'s mask test |
| Bits.MaskTest16 | TinyPICO-IOExpander/src/MCP23017.cpp:197 | x & (1 << i) is nonzero exactly when bit i of x is set |
| Bits.ZeroIffNoBit | TinyPICO-IOExpander/src/MCP23017.cpp:159-170 | a byte is zero exactly when none of its eight bits is set, so INT_ERR comes back exactly when no flag is set |
| Bits.BitWrite | TinyPICO-IOExpander/src/MCP23017.cpp:21 | bitWrite sets the chosen bit to the value and keeps every other bit |
| Bits.BitWriteKeepsOthers | TinyPICO-IOExpander/src/MCP23017.cpp:20-21 | after bitWrite, bit j for j other than n reads as before |
| Mcp23017.ButtonsAreSingleBits | TinyPICO-IOExpander/src/MCP23017.h:36-51 | there are 16 BUTTON constants and BUTTONi == 1 << i |
| Mcp23017.PortRegister | TinyPICO-IOExpander/src/MCP23017.cpp:16 | (no contract of its own) the A register for pins below 8, the B register otherwise |
| Mcp23017.LatchOf | TinyPICO-IOExpander/src/MCP23017.cpp:26-34 | a write also lands in a second address exactly when it is to GPIOA or GPIOB (their latches OLATA and OLATB) or to IOCONA or IOCONB (one register, MCP23017.cpp:112-115); that address is a register too |
| Mcp23017.AfterWrite | TinyPICO-IOExpander/src/MCP23017.cpp:26-34 | after a write the address and its second address hold the value, every other register is unchanged, and IOCONA and IOCONB keep agreeing once they agree |
| Mcp23017.WithBit | TinyPICO-IOExpander/src/MCP23017.cpp:14-24 | the register selected by pin < 8 (A) or not (B) gets bit pin % 8 set to the value; its other bits are unchanged, its latch (if it has one) holds the same byte, and every other register is unchanged |
| Mcp23017.DigitalWritten | TinyPICO-IOExpander/src/MCP23017.cpp:49-64 | after digitalWrite the port's GPIO register and latch agree; bit pin % 8 of the latch is the value, its other bits are the old latch's, and no other register changes |
| Mcp23017.DigitalWritesAddUp | TinyPICO-IOExpander/src/MCP23017.cpp:49-64 | after digitalWrite to two different pins of one port, the GPIO register holds both levels |
| Mcp23017.TwoPinsFromClearedLatch | TinyPICO-IOExpander/src/MCP23017.cpp:49-64 | from OLATA == 0, setting pins 0 and 1 leaves GPIOA == 0x03 |
| Mcp23017.IoconWith | TinyPICO-IOExpander/src/MCP23017.cpp:119-123 | MIRROR (bit 6), ODR (bit 2) and INTPOL (bit 1) take the given values; bits under mask 0xB9 are preserved |
| Mcp23017.IoconWithTwice | TinyPICO-IOExpander/src/MCP23017.cpp:125-130 | writing the same three IOCON bits again leaves the byte as it is |
| Mcp23017.LowestSetBitFrom | TinyPICO-IOExpander/src/MCP23017.cpp:159-161 | the scan finds a set bit with no set bit below it |
| Mcp23017.FirstInterruptPin | TinyPICO-IOExpander/src/MCP23017.cpp:152-170 | the result is the lowest flagged pin of INTFA, else 8 plus the lowest of INTFB, else 255; 255 exactly when neither register has a flag; always < 16 or 255 |
| Mcp23017.PortWord | TinyPICO-IOExpander/src/MCP23017.cpp:104-107 | the low byte of the snapshot is port A and the high byte is port B |
| Mcp23017.PortWordBits | TinyPICO-IOExpander/src/MCP23017.cpp:94-110 | pin i of the snapshot is bit i of GPIOA, and pin i + 8 is bit i of GPIOB |
| Mcp23017.Changed | TinyPICO-IOExpander/src/MCP23017.cpp:196 | (no contract of its own) pin i is watched and its level differs between the snapshots; ChangeTest ties it to the source's test |
| Mcp23017.ChangedBelow | TinyPICO-IOExpander/src/MCP23017.cpp:194-198 | every pin reported below n is below n; ChangedBelowExact states which pins they are |
| Mcp23017.ChangedPins | TinyPICO-IOExpander/src/MCP23017.cpp:194-198 | every reported pin is below 16; ChangedPinsExact states which pins they are and their order |
| Mcp23017.ChangeTest | TinyPICO-IOExpander/src/MCP23017.cpp:196 | the masked XOR test holds exactly when the pin is watched and its level differs between the snapshots |
| Mcp23017.ChangedBelowExact | TinyPICO-IOExpander/src/MCP23017.cpp:194-198 | the pins reported below n are exactly the changed ones, strictly ascending |
| Mcp23017.ChangedPinsExact | TinyPICO-IOExpander/src/MCP23017.cpp:189-200 | a pin is reported iff it is below 16, watched, and at a different level; the reports are strictly ascending, so each pin appears once |
| Mcp23017.RepeatedSnapshotIsSilent | TinyPICO-IOExpander/src/MCP23017.cpp:193-199 | a snapshot equal to the previous one reports no pin, whatever the mask |
| Mcp23017.DefaultMaskWatchesPortA | TinyPICO-IOExpander/src/MCP23017.h:100-103 | under the default mask 0xFF only pins 0-7 are ever reported |
| Mcp23017.SingleEdgeExample | TinyPICO-IOExpander/src/MCP23017.cpp:189-200 | with baseline 0, snapshot 1 and every pin watched, the only report is pin 0 |
| Mcp23017.Notifications | TinyPICO-IOExpander/src/MCP23017.h:66-70 | no handler means no call; otherwise there is one call per reported pin |
| Mcp23017.UpdateNotifiesChangedPins | TinyPICO-IOExpander/src/MCP23017.cpp:193-198 | call k carries the handler, the new snapshot, the k-th changed pin and that pin's inverted level; the pins of the calls are ascending |
| Mcp23017.GpioEvents.constructor | TinyPICO-IOExpander/src/MCP23017.h:57-58 | a new event holder has no handler and has made no call |
| Mcp23017.GpioEvents.ClearCallbacks | TinyPICO-IOExpander/src/MCP23017.h:58 | the handler becomes unset |
| Mcp23017.GpioEvents.RegisterChangeCallback | TinyPICO-IOExpander/src/MCP23017.h:61-65 | the new handler replaces any earlier one, and the result is true |
| Mcp23017.GpioEvents.Change | TinyPICO-IOExpander/src/MCP23017.h:66-70 | one call is logged if a handler is set, none otherwise |
| Mcp23017.Mcp23017.constructor | TinyPICO-IOExpander/src/MCP23017.h:114-118 | the previous snapshot starts at 0, the watch mask at 0xFF, and no handler is set |
| Mcp23017.Mcp23017.Begin | TinyPICO-IOExpander/src/MCP23017.cpp:3-12 | stores the address and writes 0xFF (all inputs) to IODIRA and IODIRB, nothing else |
| Mcp23017.Mcp23017.BeginDefault | TinyPICO-IOExpander/src/MCP23017.h:79 | begin() uses address 0x20 |
| Mcp23017.Mcp23017.Write | TinyPICO-IOExpander/src/MCP23017.cpp:26-34 | the register file becomes AfterWrite of the old one: the address and its second address (OLAT for GPIO, the other IOCON address for IOCON) take the value; the result is true |
| Mcp23017.Mcp23017.Read | TinyPICO-IOExpander/src/MCP23017.cpp:36-47 | returns the addressed register |
| Mcp23017.Mcp23017.ReadPort | TinyPICO-IOExpander/src/MCP23017.cpp:84-92 | readPorts(port) returns the one register |
| Mcp23017.Mcp23017.ReadPorts | TinyPICO-IOExpander/src/MCP23017.cpp:94-110 | the snapshot has GPIOB in its high byte and GPIOA in its low byte |
| Mcp23017.Mcp23017.UpdateRegisterBit | TinyPICO-IOExpander/src/MCP23017.cpp:14-24 | the register file becomes WithBit of the old one: one bit set iff pValue is nonzero |
| Mcp23017.Mcp23017.DigitalWrite | TinyPICO-IOExpander/src/MCP23017.cpp:49-64 | the register file becomes DigitalWritten of the old one: the old latch with bit pin % 8 replaced goes to GPIO and latch, so writes to one port add up (DigitalWritesAddUp) |
| Mcp23017.Mcp23017.DigitalRead | TinyPICO-IOExpander/src/MCP23017.cpp:66-71 | the result is 0 or 1, is 1 iff bit pin % 8 of the pin's GPIO register is set, and for pin < 16 equals bit pin of readPorts() |
| Mcp23017.Mcp23017.PinMode | TinyPICO-IOExpander/src/MCP23017.cpp:73-76 | the IODIR bit becomes 1 iff the mode is INPUT; nothing else changes |
| Mcp23017.Mcp23017.PullUp | TinyPICO-IOExpander/src/MCP23017.cpp:78-81 | the GPPU bit becomes 1 iff d is nonzero; nothing else changes |
| Mcp23017.Mcp23017.SetupInterrupts | TinyPICO-IOExpander/src/MCP23017.cpp:116-131 | only the two IOCON addresses change; both end as IoconWith of the old IOCONA byte, since the read through IOCONB sees the first write |
| Mcp23017.Mcp23017.SetupInterruptPin | TinyPICO-IOExpander/src/MCP23017.cpp:133-146 | the INTCON bit is set iff the mode is not CHANGE, the DEFVAL bit iff the mode is FALLING, and the GPINTEN bit always is; nothing else changes |
| Mcp23017.Mcp23017.GetLastInterruptPin | TinyPICO-IOExpander/src/MCP23017.cpp:152-170 | the two early-return scans compute FirstInterruptPin of INTFA and INTFB |
| Mcp23017.Mcp23017.GetLastInterruptPinValue | TinyPICO-IOExpander/src/MCP23017.cpp:176-187 | 255 iff no interrupt flag is set; otherwise the captured bit of the reported pin in INTCAPA or INTCAPB, as 0 or 1 |
| Mcp23017.Mcp23017.RegisterChangeCallback | TinyPICO-IOExpander/src/MCP23017.h:100-103 | registers the handler with mask 0xFF and returns true |
| Mcp23017.Mcp23017.RegisterChangeCallbackWithMask | TinyPICO-IOExpander/src/MCP23017.h:105-110 | the current snapshot becomes the baseline (so the state present at registration reports nothing), then the mask and handler are stored; returns true |
| Mcp23017.Mcp23017.NotifyIfChanged | TinyPICO-IOExpander/src/MCP23017.cpp:196-197 | pin i's handler call is made iff the pin changed, with level true when the pin reads 0 |
| Mcp23017.Mcp23017.Update | TinyPICO-IOExpander/src/MCP23017.cpp:189-200 | the calls made are Notifications of the changed pins between the new snapshot and the old baseline; the baseline becomes the snapshot and the handler is kept |
| Ads1015.HighByte | TinyPICO-IOExpander/src/ADS1015.cpp:7 | (no contract of its own) the first byte sent for a word; JoinSplit and SplitJoin make it and LowByte the inverse of Join |
| Ads1015.LowByte | TinyPICO-IOExpander/src/ADS1015.cpp:8 | (no contract of its own) the second byte sent for a word; see HighByte |
| Ads1015.Join | TinyPICO-IOExpander/src/ADS1015.cpp:23 | the first reply byte becomes the high byte and the second the low byte |
| Ads1015.JoinSplit | TinyPICO-IOExpander/src/ADS1015.cpp:7-8 | a word written as high then low byte reads back as the same word |
| Ads1015.SplitJoin | TinyPICO-IOExpander/src/ADS1015.cpp:23 | two bytes read as a word split back into the same bytes |
| Ads1015.SingleEndedMux | TinyPICO-IOExpander/src/ADS1015.cpp:65-79 | channels above 3 select no MUX flag |
| Ads1015.DifferentialMux | TinyPICO-IOExpander/src/ADS1015.cpp:109-112 | channels above 1 select no MUX flag |
| Ads1015.SingleEndedConfig | TinyPICO-IOExpander/src/ADS1015.cpp:54-82 | the CONFIG word contains the defaults, the gain, the channel's MUX flag and the start bit, and no other bit |
| Ads1015.DifferentialConfig | TinyPICO-IOExpander/src/ADS1015.cpp:98-115 | the same for the differential MUX flag |
| Ads1015.ComparatorConfig | TinyPICO-IOExpander/src/ADS1015.cpp:145-171 | the CONFIG word contains the comparator defaults, the gain and the MUX flag, and no other bit (no start bit) |
| Ads1015.ToInt16 | TinyPICO-IOExpander/src/ADS1015.cpp:127 | the int16_t cast: the result is x or x - 0x10000 (the one in the int16 range), and it is negative exactly when bit 15 of x is set |
| Ads1015.SignedConversion | TinyPICO-IOExpander/src/ADS1015.cpp:124-139 | (no contract of its own) the shifted word, sign-extended for a nonzero shift; SignExtensionOfTwelveBits states its value and ConversionRoundTrip its inverse |
| Ads1015.ThresholdWord | TinyPICO-IOExpander/src/ADS1015.cpp:175 | (no contract of its own) the threshold shifted into the register layout; ThresholdRoundTrip and ConversionRoundTrip make it the inverse of SignedConversion |
| Ads1015.ShiftFourFitsTwelveBits | TinyPICO-IOExpander/src/ADS1015.cpp:92 | raw >> 4 never exceeds 0xFFF |
| Ads1015.ExtendTwelveBits | TinyPICO-IOExpander/src/ADS1015.cpp:133-138 | 12-bit values up to 0x7FF keep their value; values from 0x800 become the value minus 0x1000, in [-2048, -1] |
| Ads1015.SignExtensionOfTwelveBits | TinyPICO-IOExpander/src/ADS1015.cpp:187-202 | the signed result with shift 4 is raw >> 4, or raw >> 4 minus 0x1000 in [-2048, -1] when it is above 0x7FF |
| Ads1015.SingleEndedRange | TinyPICO-IOExpander/src/ADS1015.cpp:92 | a single-ended result is at most 0xFFF |
| Ads1015.ThresholdRoundTrip | TinyPICO-IOExpander/src/ADS1015.cpp:175 | a threshold in [-2048, 2047], shifted left by 4 and decoded like a conversion result, gives back the threshold |
| Ads1015.ConversionRoundTrip | TinyPICO-IOExpander/src/ADS1015.cpp:187-202 | decoding a conversion word and re-encoding it as a threshold gives the word with its 4 unused low bits cleared |
| Ads1015.WriteTransfer | TinyPICO-IOExpander/src/ADS1015.cpp:5-8 | a register write is one transfer to the device and pointer, whose two bytes join back to the value |
| Ads1015.ReplyValue | TinyPICO-IOExpander/src/ADS1015.cpp:14-24 | a failed pointer write or a short reply reads as 0; otherwise the bytes come back as high and low byte |
| Ads1015.Ads1015.Begin | TinyPICO-IOExpander/src/ADS1015.cpp:26-34 | stores the address, the conversion delay, shift 4 and gain GAIN_TWOTHIRDS |
| Ads1015.Ads1015.Write | TinyPICO-IOExpander/src/ADS1015.cpp:3-12 | logs pointer, high byte, low byte; succeeds iff the end-of-transmission status is 0 |
| Ads1015.Ads1015.Read | TinyPICO-IOExpander/src/ADS1015.cpp:14-24 | logs the register read and returns ReplyValue of the device's answer |
| Ads1015.Ads1015.AnalogSetGain | TinyPICO-IOExpander/src/ADS1015.cpp:36-39 | stores the gain |
| Ads1015.Ads1015.AnalogGetGain | TinyPICO-IOExpander/src/ADS1015.cpp:41-44 | returns the stored gain |
| Ads1015.Ads1015.AnalogReadSingleEnded | TinyPICO-IOExpander/src/ADS1015.cpp:46-93 | channel above 3: returns 0 with no bus traffic; otherwise writes SingleEndedConfig, waits, reads CONVERT, and returns the word shifted right by the bit shift |
| Ads1015.Ads1015.AnalogReadDifferential | TinyPICO-IOExpander/src/ADS1015.cpp:95-140 | writes DifferentialConfig, waits, reads CONVERT, and returns the sign-extended result as an int16_t |
| Ads1015.Ads1015.StartComparator | TinyPICO-IOExpander/src/ADS1015.cpp:142-179 | writes the shifted threshold to HITHRESH first, then ComparatorConfig to CONFIG |
| Ads1015.Ads1015.GetLastConversionResults | TinyPICO-IOExpander/src/ADS1015.cpp:181-203 | waits, reads CONVERT, and returns the sign-extended result |
| TinyPico.Color | TinyPICO-Helper/src/TinyPICO.cpp:55-58 | the packed value is below 2^24, with b in bits 0-7, g in bits 8-15 and r in bits 16-23 |
| TinyPico.PackedPixel | TinyPICO-Helper/src/TinyPICO.cpp:126-128 | the packed setter stores three bytes; PackedPixelOfColor and ColorOfPackedPixel make it the inverse of Color on 24 bits |
| TinyPico.PackedPixelOfColor | TinyPICO-Helper/src/TinyPICO.cpp:114-131 | storing Color(r, g, b) packed gives the buffer [b, g, r], as the separate setter does |
| TinyPico.ColorOfPackedPixel | TinyPICO-Helper/src/TinyPICO.cpp:124-131 | packing the stored buffer again gives the low 24 bits of the packed value |
| TinyPico.Wheel | TinyPICO-Helper/src/TinyPICO.cpp:165-179 | at least one channel of the wheel colour is zero |
| TinyPico.WheelSum | TinyPICO-Helper/src/TinyPICO.cpp:165-179 | the three channels add up to 255 |
| TinyPico.WheelPixel | TinyPICO-Helper/src/TinyPICO.cpp:168-178 | the buffer for a rotation is what the packed setter stores for the wheel colour; its three bytes add up to 255 and one of them is zero |
| TinyPico.StoredBrightness | TinyPICO-Helper/src/TinyPICO.cpp:43-52 | b + 1 for b < 255; 255 wraps to 0 |
| TinyPico.Scale | TinyPICO-Helper/src/TinyPICO.cpp:78 | the scaled byte is never larger than the pixel byte |
| TinyPico.ScaleAtMost | TinyPICO-Helper/src/TinyPICO.cpp:78 | the high byte of p * bright is at most p |
| TinyPico.ScaledPixel | TinyPICO-Helper/src/TinyPICO.cpp:73-88 | the byte sent is at most the pixel byte, and equals it when the stored brightness is 0 |
| TinyPico.BrightnessExtremes | TinyPICO-Helper/src/TinyPICO.cpp:45-51 | setting 255 stores 0 and sends bytes unscaled; setting 0 stores 1 and sends every byte as 0 |
| TinyPico.Colours | TinyPICO-Helper/src/TinyPICO.cpp:73-88 | three colour bytes, none larger than its buffer byte; at stored brightness 0 they are the buffer itself |
| TinyPico.Frame | TinyPICO-Helper/src/TinyPICO.cpp:72-89 | (no contract of its own) the bytes one show sends; FrameLayout states their layout |
| TinyPico.FrameLayout | TinyPICO-Helper/src/TinyPICO.cpp:72-89 | the frame is four 0x00 bytes, 0xFF, the colour bytes, 0xFF (9 bytes for one pixel) |
| TinyPico.Wire | TinyPICO-Helper/src/TinyPICO.cpp:72-89 | the pin writes of a run of swspi_out calls: 24 per byte |
| TinyPico.FrameWire | TinyPICO-Helper/src/TinyPICO.cpp:72-89 | the frame's pin writes are those of the start frame, then the header, the colour bytes and the end byte |
| TinyPico.Pulse | TinyPICO-Helper/src/TinyPICO.cpp:97-102 | (no contract of its own) one loop pass: data level, clock high, clock low; ReceivePulse states what a receiver reads from it |
| TinyPico.Sent | TinyPICO-Helper/src/TinyPICO.cpp:95-103 | (no contract of its own) the pulses for the top k bits; SentLength, SentWaveform and ReceiveSent state their length, shape and meaning |
| TinyPico.Waveform | TinyPICO-Helper/src/TinyPICO.cpp:93-104 | one byte makes 24 pin writes |
| TinyPico.SentWaveform | TinyPICO-Helper/src/TinyPICO.cpp:95-103 | the eight loop passes make exactly the byte's waveform |
| TinyPico.MostSignificantFirst | TinyPICO-Helper/src/TinyPICO.cpp:95-100 | pulse j sets the data line to bit 7 - j of the byte: most significant bit first |
| TinyPico.ReceiveSent | TinyPICO-Helper/src/TinyPICO.cpp:95-103 | a receiver latching data on each write that drives the clock high reads the bits the pulses carry |
| TinyPico.ReceiveWire | TinyPICO-Helper/src/TinyPICO.cpp:93-104 | the receiver reads the bits of every byte, byte after byte |
| TinyPico.TopBits | TinyPICO-Helper/src/TinyPICO.cpp:95-97 | the top k bits of the byte, one per pass; TopBitsAt and MostSignificantFirst fix their order, most significant first |
| TinyPico.ShiftInTopBits | TinyPICO-Helper/src/TinyPICO.cpp:95 | shifting a byte's eight bits into an empty shift register gives the byte |
| TinyPico.UnpackBitsOf | TinyPICO-Helper/src/TinyPICO.cpp:93-104 | the bits of a byte sequence, regrouped by eight, are the bytes |
| TinyPico.WireRoundTrip | TinyPICO-Helper/src/TinyPICO.cpp:93-104 | a receiver on the two pins recovers every byte sent, whatever the data line's earlier level |
| TinyPico.Sum | TinyPICO-Helper/src/TinyPICO.cpp:187-194 | the accumulated measuredVal; for 0/1 samples it lies between 0 and the sample count |
| TinyPico.SumZeroIffAllLow | TinyPICO-Helper/src/TinyPICO.cpp:188-194 | LOW/HIGH samples sum to zero exactly when all are LOW |
| TinyPico.IsChargingBattery | TinyPICO-Helper/src/TinyPICO.cpp:185-195 | true iff all ten samples are LOW |
| TinyPico.TinyPico.constructor | TinyPICO-Helper/src/TinyPICO.cpp:19-35 | a dark buffer, brightness 128, not initialised, rotation 0, no pin writes |
| TinyPico.TinyPico.SetBrightness | TinyPICO-Helper/src/TinyPICO.cpp:43-52 | stores StoredBrightness(b) |
| TinyPico.TinyPico.DigitalWrite | TinyPICO-Helper/src/TinyPICO.cpp:98-102 | logs one pin write |
| TinyPico.TinyPico.ClockOut | TinyPICO-Helper/src/TinyPICO.cpp:97-102 | the data level, then clock high, then clock low |
| TinyPico.TinyPico.SwspiOut | TinyPICO-Helper/src/TinyPICO.cpp:93-104 | appends exactly Waveform(n): eight bits, most significant first, one clock pulse each |
| TinyPico.TinyPico.Show | TinyPICO-Helper/src/TinyPICO.cpp:60-90 | afterwards isInit holds; the pin log grows by the waveform of the frame for the buffer and the stored brightness |
| TinyPico.TinyPico.SendFrame | TinyPICO-Helper/src/TinyPICO.cpp:68-89 | sends the whole frame |
| TinyPico.TinyPico.SendHead | TinyPICO-Helper/src/TinyPICO.cpp:72-77 | sends bytes 0-4 of the frame: the start frame and the pixel header |
| TinyPico.TinyPico.SendTail | TinyPICO-Helper/src/TinyPICO.cpp:73-89 | sends bytes 5-8 of the frame: the colour bytes and the end byte |
| TinyPico.TinyPico.SendStartFrame | TinyPICO-Helper/src/TinyPICO.cpp:72 | sends four zero bytes |
| TinyPico.TinyPico.SendColours | TinyPICO-Helper/src/TinyPICO.cpp:73-88 | sends each buffer byte scaled by the brightness, or raw when it is 0 |
| TinyPico.TinyPico.SendByte | TinyPICO-Helper/src/TinyPICO.cpp:72-89 | one swspi_out call sends the next byte of the frame |
| TinyPico.TinyPico.Clear | TinyPICO-Helper/src/TinyPICO.cpp:106-111 | the buffer becomes [0, 0, 0] and is shown |
| TinyPico.TinyPico.SetPixelColor | TinyPICO-Helper/src/TinyPICO.cpp:114-121 | the buffer becomes [b, g, r] and is shown |
| TinyPico.TinyPico.SetPixelColorPacked | TinyPICO-Helper/src/TinyPICO.cpp:124-131 | the buffer becomes the low, middle and high bytes of c, and is shown |
| TinyPico.TinyPico.CycleColor | TinyPICO-Helper/src/TinyPICO.cpp:158-182 | once now is past the last rotation time plus wait (32-bit wrap): the rotation is the next one modulo 256, the buffer holds its wheel colour, and the frame is sent twice; otherwise nothing changes |
| TinyPico.TinyPico.AdvanceColor | TinyPICO-Helper/src/TinyPICO.cpp:162-180 | records the time, advances the rotation, sets the wheel colour, and shows it again |

## Left out

- The I2C bus of both expander drivers is not modelled as transactions.
  - For the MCP23017 it is a register file that always answers, so the
    "return 0" error paths of `read()` and the failure result of `write()`
    are not modelled.
  - For the ADS1015, `read()`'s two failure answers are modelled as `Reply`
    values. `write()`'s status is a parameter, and callers pass success, as
    the driver ignores it.
- ADS1015 `read()` assumes the first `Wire.read()` is evaluated first. The
  order of the two calls in `(Wire.read() << 8) | Wire.read()` is
  unspecified in C++.
- ADS1015 constants: the flag, pointer, gain and delay values are defined in
  ADS1015.h, which is not part of this model. They are declared without a
  value, and nothing proved depends on what they are.
- Ads1015.Ads1015.StartComparator: the threshold is passed as its int16_t
  bit pattern. The shift is on 16 bits, so the int promotion is not modelled.
- Delays (`delay()` in the ADS1015 reads and the 200 ms wait in
  `DotStar_Show`) are logged as `Wait` entries or left out.
- Time: `millis()` in `DotStar_CycleColor` is the parameter `now`, read once.
  The source calls it twice.
- The `DotStar_CycleColor()` overload without arguments is
  `CycleColor(now, 0)`.
- Pin setup is left out, because it only sets pin modes and levels:
  `DotStar_SetPower`, `swspi_init`, `swspi_end`, the destructor, and the
  `pinMode` calls of the constructor.
- TinyPico.TinyPico.Show: records `isInit` but not the `swspi_init` call it
  guards.
  - The do-while over one pixel runs once, so it is written as straight-line
    code.
  - The pixel header is sent before the brightness test rather than inside
    each branch. The test does not depend on the header, so the writes are
    the same.
- Loop bodies and phases are written as helper methods with their own
  contracts, because the proof is cheaper that way: `NotifyIfChanged`,
  `ClockOut`, `SendByte`, `SendStartFrame`, `SendColours`, `SendHead`,
  `SendTail` and `AdvanceColor`.
- Mcp23017.Mcp23017.Write: requires an address below 22, the size of the
  register file; the source sends any address to the device.
- Mcp23017.Mcp23017.Read: requires an address below 22, as for Write.
- Mcp23017.Mcp23017.ReadPort: requires a port address below 22, as for Write.
- Mcp23017.Mcp23017.UpdateRegisterBit: requires both register addresses below
  22, as for Write. Every caller passes register constants.
- The MCP23017 register file keeps IOCONA and IOCONB as two bytes. Every
  write to either sets both, but a device image given to the constructor may
  hold different values in them.
- The MCP23017 register file stores what is written. Pin levels of inputs,
  a latch write driving the GPIO register, and read-only registers (INTF,
  INTCAP) are not modelled.
- Ads1015.Ads1015.Begin is the constructor, so calls made before `begin()`
  and a second `begin()` are not modelled.
- Floating point: `GetBatteryVoltage` and `Get_Internal_Temp_C`/`_F` (analog
  reads and float arithmetic).
- Foreign and peripheral calls: `temprature_sens_read`, and `Tone`/`NoTone`
  (the LEDC peripheral).
- The `TinyPICOExpander` wrappers only forward calls and allocate objects.
- The touch-pad click/long-press layer of the Explorer Shield template is not
  part of this model.
- The change handler is identified by a number. A call to it is logged, not
  executed.
