/** Driver for the ADS1015 12-bit I2C analog-to-digital converter: marshalling of
    16-bit register words into big-endian bytes, assembly of the CONFIG word from
    flags, and sign extension of the left-justified 12-bit conversion result.
    The I2C bus is a log of transfers; read()'s failures are Reply values and
    write()'s status is a parameter, as are the two bytes the device answers a
    register read with. The register pointers,
    CONFIG flags, gain codes and the conversion delay are defined in ADS1015.h,
    which is not part of this model: they are declared without a value, and
    nothing proved here depends on what they are. */
module Ads1015 {
  import opened Bits

  // Register pointers.
  const REG_POINTER_CONVERT: bv8
  const REG_POINTER_CONFIG: bv8
  const REG_POINTER_HITHRESH: bv8

  // CONFIG register flags.
  const REG_CONFIG_CQUE_NONE: bv16
  const REG_CONFIG_CQUE_1CONV: bv16
  const REG_CONFIG_CLAT_NONLAT: bv16
  const REG_CONFIG_CLAT_LATCH: bv16
  const REG_CONFIG_CPOL_ACTVLOW: bv16
  const REG_CONFIG_CMODE_TRAD: bv16
  const REG_CONFIG_DR_1600SPS: bv16
  const REG_CONFIG_MODE_SINGLE: bv16
  const REG_CONFIG_MODE_CONTIN: bv16
  const REG_CONFIG_MUX_SINGLE_0: bv16
  const REG_CONFIG_MUX_SINGLE_1: bv16
  const REG_CONFIG_MUX_SINGLE_2: bv16
  const REG_CONFIG_MUX_SINGLE_3: bv16
  const REG_CONFIG_MUX_DIFF_0_1: bv16
  const REG_CONFIG_MUX_DIFF_2_3: bv16
  const REG_CONFIG_OS_SINGLE: bv16

  /** The programmable-gain code for the +/-6.144 V range (an adsGain_t). */
  const GAIN_TWOTHIRDS: bv16

  /** Milliseconds to wait for a conversion. */
  const CONVERSIONDELAY: bv8

  /** A C++ int16_t. */
  type int16 = x: int | -0x8000 <= x < 0x8000

  /** The first byte sent for a word: its high byte. */
  function HighByte(v: bv16): bv8 {
    (v >> 8) as bv8
  }

  /** The second byte sent for a word: its low byte. */
  function LowByte(v: bv16): bv8 {
    (v & 0xFF) as bv8
  }

  /** The word read back from the two reply bytes, first byte high. */
  function Join(hi: bv8, lo: bv8): (v: bv16)
    ensures v >> 8 == hi as bv16 && v & 0xFF == lo as bv16
  {
    ((hi as bv16) << 8) | lo as bv16
  }

  /** A word survives being written as two bytes and read back. */
  lemma JoinSplit(v: bv16)
    ensures Join(HighByte(v), LowByte(v)) == v
  {
  }

  /** Two bytes survive being read as a word and written back. */
  lemma SplitJoin(hi: bv8, lo: bv8)
    ensures HighByte(Join(hi, lo)) == hi && LowByte(Join(hi, lo)) == lo
  {
  }

  /** Every bit of flag is set in word. */
  predicate Contains(word: bv16, flag: bv16) {
    word & flag == flag
  }

  /** Every bit set in word is set in one of the four parts. */
  ghost predicate OnlyBitsOf(word: bv16, a: bv16, b: bv16, c: bv16, d: bv16) {
    forall j: bv8 :: j < 16 && Bit16(word, j) ==> Bit16(a, j) || Bit16(b, j) || Bit16(c, j) || Bit16(d, j)
  }

  // One part at a time: several facts about the same OR at once are far
  // harder for the solver than each alone.
  lemma OrHasFirst(a: bv16, b: bv16, c: bv16, d: bv16) ensures Contains(a | b | c | d, a) {}
  lemma OrHasSecond(a: bv16, b: bv16, c: bv16, d: bv16) ensures Contains(a | b | c | d, b) {}
  lemma OrHasThird(a: bv16, b: bv16, c: bv16, d: bv16) ensures Contains(a | b | c | d, c) {}
  lemma OrHasFourth(a: bv16, b: bv16, c: bv16, d: bv16) ensures Contains(a | b | c | d, d) {}
  lemma Or3HasFirst(a: bv16, b: bv16, c: bv16) ensures Contains(a | b | c, a) {}
  lemma Or3HasSecond(a: bv16, b: bv16, c: bv16) ensures Contains(a | b | c, b) {}
  lemma Or3HasThird(a: bv16, b: bv16, c: bv16) ensures Contains(a | b | c, c) {}

  /** An OR of four parts contains each of them. */
  lemma OrContainsParts(a: bv16, b: bv16, c: bv16, d: bv16)
    ensures Contains(a | b | c | d, a) && Contains(a | b | c | d, b)
    ensures Contains(a | b | c | d, c) && Contains(a | b | c | d, d)
  {
    OrHasFirst(a, b, c, d); OrHasSecond(a, b, c, d);
    OrHasThird(a, b, c, d); OrHasFourth(a, b, c, d);
  }

  /** An OR of three parts contains each of them and has no other bit. */
  lemma OrOfThree(a: bv16, b: bv16, c: bv16)
    ensures Contains(a | b | c, a) && Contains(a | b | c, b) && Contains(a | b | c, c)
    ensures OnlyBitsOf(a | b | c, a, b, c, 0)
  {
    Or3HasFirst(a, b, c); Or3HasSecond(a, b, c); Or3HasThird(a, b, c);
    OrOnlyThree(a, b, c);
  }

  /** An OR of four parts has no bit that none of them has. */
  lemma OrOnlyParts(a: bv16, b: bv16, c: bv16, d: bv16)
    ensures OnlyBitsOf(a | b | c | d, a, b, c, d)
  {
  }

  /** An OR of three parts has no bit that none of them has. */
  lemma OrOnlyThree(a: bv16, b: bv16, c: bv16)
    ensures OnlyBitsOf(a | b | c, a, b, c, 0)
  {
  }

  /** The CONFIG defaults of a single-shot read: comparator off, non-latching,
      active-low ALERT/RDY, traditional comparator, 1600 samples per second,
      single-shot mode. */
  const SINGLE_SHOT_DEFAULTS: bv16 :=
    REG_CONFIG_CQUE_NONE | REG_CONFIG_CLAT_NONLAT | REG_CONFIG_CPOL_ACTVLOW |
    REG_CONFIG_CMODE_TRAD | REG_CONFIG_DR_1600SPS | REG_CONFIG_MODE_SINGLE

  /** The CONFIG defaults of the comparator: one-conversion assertion, latching,
      active-low, traditional, 1600 samples per second, continuous mode (the
      continuous-mode flag is ORed in twice). */
  const COMPARATOR_DEFAULTS: bv16 :=
    REG_CONFIG_CQUE_1CONV | REG_CONFIG_CLAT_LATCH | REG_CONFIG_CPOL_ACTVLOW |
    REG_CONFIG_CMODE_TRAD | REG_CONFIG_DR_1600SPS | REG_CONFIG_MODE_CONTIN | REG_CONFIG_MODE_CONTIN

  /** The single-ended MUX flag for input AINchannel; no flag for channel > 3,
      as the switch has no default case. */
  function SingleEndedMux(channel: bv8): (mux: bv16)
    ensures channel > 3 ==> mux == 0
  {
    if channel == 0 then REG_CONFIG_MUX_SINGLE_0
    else if channel == 1 then REG_CONFIG_MUX_SINGLE_1
    else if channel == 2 then REG_CONFIG_MUX_SINGLE_2
    else if channel == 3 then REG_CONFIG_MUX_SINGLE_3
    else 0
  }

  /** The differential MUX flag: AIN0-AIN1 for channel 0, AIN2-AIN3 for channel 1,
      no flag otherwise. */
  function DifferentialMux(channel: bv8): (mux: bv16)
    ensures channel > 1 ==> mux == 0
  {
    if channel == 0 then REG_CONFIG_MUX_DIFF_0_1
    else if channel == 1 then REG_CONFIG_MUX_DIFF_2_3
    else 0
  }

  /** The CONFIG word analogReadSingleEnded writes: the single-shot defaults,
      the gain, the channel's MUX flag and the start bit, and no other bit. */
  function SingleEndedConfig(gain: bv16, channel: bv8): (config: bv16)
    ensures Contains(config, SINGLE_SHOT_DEFAULTS) && Contains(config, gain)
    ensures Contains(config, SingleEndedMux(channel)) && Contains(config, REG_CONFIG_OS_SINGLE)
    ensures OnlyBitsOf(config, SINGLE_SHOT_DEFAULTS, gain, SingleEndedMux(channel), REG_CONFIG_OS_SINGLE)
  {
    OrContainsParts(SINGLE_SHOT_DEFAULTS, gain, SingleEndedMux(channel), REG_CONFIG_OS_SINGLE);
    OrOnlyParts(SINGLE_SHOT_DEFAULTS, gain, SingleEndedMux(channel), REG_CONFIG_OS_SINGLE);
    SINGLE_SHOT_DEFAULTS | gain | SingleEndedMux(channel) | REG_CONFIG_OS_SINGLE
  }

  /** The CONFIG word analogReadDifferential writes: as for a single-ended
      read, with the differential MUX flag. */
  function DifferentialConfig(gain: bv16, channel: bv8): (config: bv16)
    ensures Contains(config, SINGLE_SHOT_DEFAULTS) && Contains(config, gain)
    ensures Contains(config, DifferentialMux(channel)) && Contains(config, REG_CONFIG_OS_SINGLE)
    ensures OnlyBitsOf(config, SINGLE_SHOT_DEFAULTS, gain, DifferentialMux(channel), REG_CONFIG_OS_SINGLE)
  {
    OrContainsParts(SINGLE_SHOT_DEFAULTS, gain, DifferentialMux(channel), REG_CONFIG_OS_SINGLE);
    OrOnlyParts(SINGLE_SHOT_DEFAULTS, gain, DifferentialMux(channel), REG_CONFIG_OS_SINGLE);
    SINGLE_SHOT_DEFAULTS | gain | DifferentialMux(channel) | REG_CONFIG_OS_SINGLE
  }

  /** The CONFIG word startComparator writes: the comparator defaults, the gain
      and the single-ended MUX flag, and no other bit (the channel is not
      range-checked, and there is no start bit). */
  function ComparatorConfig(gain: bv16, channel: bv8): (config: bv16)
    ensures Contains(config, COMPARATOR_DEFAULTS) && Contains(config, gain)
    ensures Contains(config, SingleEndedMux(channel))
    ensures OnlyBitsOf(config, COMPARATOR_DEFAULTS, gain, SingleEndedMux(channel), 0)
  {
    OrOfThree(COMPARATOR_DEFAULTS, gain, SingleEndedMux(channel));
    COMPARATOR_DEFAULTS | gain | SingleEndedMux(channel)
  }

  /** The value of the int16_t whose two's complement bit pattern is x: the one
      value in the int16 range that differs from x by a multiple of 0x10000. */
  function ToInt16(x: bv16): (n: int16)
    ensures n == x as int || n == x as int - 0x10000
    ensures n < 0 <==> x >= 0x8000
  {
    var n := x as int;
    if n < 0x8000 then n else n - 0x10000
  }

  /** The int16_t bit pattern analogReadDifferential and getLastConversionResults
      return for the conversion register word raw: raw shifted right by shift,
      and for a nonzero shift a result above 0x7FF gets 0xF000 ORed in to extend
      its sign. */
  function SignedConversion(raw: bv16, shift: bv8): bv16
    requires shift < 16
  {
    var res := raw >> shift;
    if shift == 0 then res
    else if res > 0x07FF then res | 0xF000
    else res
  }

  /** With the ADS1015's shift of 4 the right-justified result has 12 bits. */
  lemma ShiftFourFitsTwelveBits(raw: bv16)
    ensures raw >> 4 <= 0x0FFF
  {
  }

  lemma SmallValue(x: bv16)
    requires x <= 0x07FF
    ensures x as int <= 0x07FF
  {
  }

  lemma SignBitsValue(x: bv16)
    requires 0x07FF < x <= 0x0FFF
    ensures 0x0800 <= x as int <= 0x0FFF && (x | 0xF000) as int == x as int + 0xF000
  {
  }

  /** Sign extension of a 12-bit result: 0x000-0x7FF are themselves, 0x800-0xFFF
      become negative. */
  lemma ExtendTwelveBits(res: bv16)
    requires res <= 0x0FFF
    ensures res <= 0x07FF ==> ToInt16(res) == res as int
    ensures res > 0x07FF ==> ToInt16(res | 0xF000) == res as int - 0x1000 && -2048 <= res as int - 0x1000 <= -1
  {
    if res > 0x07FF {
      SignBitsValue(res);
    } else {
      SmallValue(res);
    }
  }

  /** With shift 4: results up to 0x7FF come back unchanged, results from 0x800
      to 0xFFF come back as the result minus 0x1000, in [-2048, -1]. */
  lemma SignExtensionOfTwelveBits(raw: bv16)
    ensures raw >> 4 <= 0x07FF ==> ToInt16(SignedConversion(raw, 4)) == (raw >> 4) as int
    ensures raw >> 4 > 0x07FF ==>
              ToInt16(SignedConversion(raw, 4)) == (raw >> 4) as int - 0x1000 &&
              -2048 <= ToInt16(SignedConversion(raw, 4)) <= -1
  {
    ShiftFourFitsTwelveBits(raw);
    ExtendTwelveBits(raw >> 4);
  }

  /** The unsigned single-ended result with shift 4 never exceeds 0xFFF, and is
      never sign-extended. */
  lemma SingleEndedRange(hi: bv8, lo: bv8)
    ensures Join(hi, lo) >> 4 <= 0x0FFF
  {
    ShiftFourFitsTwelveBits(Join(hi, lo));
  }

  /** The HITHRESH word startComparator writes for the int16_t threshold with
      bit pattern t: t << shift, truncated to 16 bits. */
  function ThresholdWord(t: bv16, shift: bv8): bv16
    requires shift < 16
  {
    t << shift
  }

  /** A threshold in the 12-bit range, written as startComparator writes it,
      reads back through the conversion decoding as itself: thresholds and
      conversion results share one layout. */
  lemma ThresholdRoundTrip(t: bv16)
    requires -2048 <= ToInt16(t) <= 2047
    ensures SignedConversion(ThresholdWord(t, 4), 4) == t
  {
    assert t <= 0x07FF || t >= 0xF800;
  }

  /** Decoding a conversion word and encoding the result as a threshold gives
      back the word without its 4 unused low bits. */
  lemma ConversionRoundTrip(raw: bv16)
    ensures ThresholdWord(SignedConversion(raw, 4), 4) == raw & 0xFFF0
  {
  }

  /** One I2C transaction: a register write of two bytes, a register read, or
      a wait for a conversion. */
  datatype Transfer =
    | WriteWord(device: bv8, pointer: bv8, hi: bv8, lo: bv8)
    | ReadWord(device: bv8, pointer: bv8)
    | Wait(ms: bv8)

  /** How the device answers a register read: it does not acknowledge the
      pointer, it sends fewer than two bytes, or it sends the two bytes. */
  datatype Reply = Nack | Short | Bytes(hi: bv8, lo: bv8)

  /** The word read() returns for a reply: 0 on either failure, otherwise the
      two bytes, first byte high. */
  function ReplyValue(reply: Reply): (v: bv16)
    ensures !reply.Bytes? ==> v == 0
    ensures reply.Bytes? ==> HighByte(v) == reply.hi && LowByte(v) == reply.lo
  {
    match reply
    case Bytes(hi, lo) => SplitJoin(hi, lo); Join(hi, lo)
    case _ => 0
  }

  /** The transfer of a register write of value: the pointer, then the two
      bytes, which join back to value. */
  function WriteTransfer(device: bv8, pointer: bv8, value: bv16): (t: Transfer)
    ensures t.WriteWord? && t.device == device && t.pointer == pointer
    ensures Join(t.hi, t.lo) == value
  {
    JoinSplit(value);
    WriteWord(device, pointer, HighByte(value), LowByte(value))
  }

  class Ads1015 {
    var i2cAddress: bv8
    var conversionDelay: bv8
    var bitShift: bv8
    var gain: bv16
    /** Every transaction on the bus so far, in order. */
    var bus: seq<Transfer>

    ghost predicate Valid()
      reads this
    {
      bitShift < 16
    }

    /** begin(addr): stores the address, the conversion delay, the ADS1015's
        shift of 4 and the default gain of +/-6.144 V. */
    constructor Begin(addr: bv8)
      ensures Valid()
      ensures i2cAddress == addr && conversionDelay == CONVERSIONDELAY
      ensures bitShift == 4 && gain == GAIN_TWOTHIRDS && bus == []
    {
      i2cAddress := addr;
      conversionDelay := CONVERSIONDELAY;
      bitShift := 4;
      gain := GAIN_TWOTHIRDS;
      bus := [];
    }

    /** write(addr, value): the pointer, then the high byte, then the low byte;
        status is what ending the transmission returns, and only 0 is success. */
    method Write(addr: bv8, value: bv16, status: bv8) returns (ok: bool)
      modifies this`bus
      ensures bus == old(bus) + [WriteTransfer(i2cAddress, addr, value)]
      ensures ok <==> status == 0
    {
      bus := bus + [WriteWord(i2cAddress, addr, (value >> 8) as bv8, (value & 0xFF) as bv8)];
      if status == 0 {
        return true;
      }
      return false;
    }

    /** read(addr), where the device gives reply. */
    method Read(addr: bv8, reply: Reply) returns (value: bv16)
      modifies this`bus
      ensures bus == old(bus) + [ReadWord(i2cAddress, addr)]
      ensures value == ReplyValue(reply)
    {
      bus := bus + [ReadWord(i2cAddress, addr)];
      if reply.Nack? {
        return 0;
      }
      if reply.Short? {
        return 0;
      }
      value := ((reply.hi as bv16) << 8) | reply.lo as bv16;
    }

    method AnalogSetGain(g: bv16)
      modifies this`gain
      ensures gain == g
    {
      gain := g;
    }

    method AnalogGetGain() returns (g: bv16)
      ensures g == gain
    {
      g := gain;
    }

    /** One single-shot conversion of input AINchannel against ground; channel
        above 3 returns 0 and touches no bus. */
    method AnalogReadSingleEnded(channel: bv8, reply: Reply) returns (r: bv16)
      requires Valid()
      modifies this`bus
      ensures channel > 3 ==> r == 0 && bus == old(bus)
      ensures channel <= 3 ==>
                r == ReplyValue(reply) >> bitShift &&
                bus == old(bus) + [WriteTransfer(i2cAddress, REG_POINTER_CONFIG, SingleEndedConfig(gain, channel)),
                                   Wait(conversionDelay), ReadWord(i2cAddress, REG_POINTER_CONVERT)]
    {
      if channel > 3 {
        return 0;
      }
      var _ := Write(REG_POINTER_CONFIG, SingleEndedConfig(gain, channel), 0);
      bus := bus + [Wait(conversionDelay)];
      var raw := Read(REG_POINTER_CONVERT, reply);
      r := raw >> bitShift;
    }

    /** One single-shot differential conversion: AIN0-AIN1 for channel 0,
        AIN2-AIN3 for channel 1; other channels set no MUX flag. */
    method AnalogReadDifferential(channel: bv8, reply: Reply) returns (r: int16)
      requires Valid()
      modifies this`bus
      ensures r == ToInt16(SignedConversion(ReplyValue(reply), bitShift))
      ensures bus == old(bus) + [WriteTransfer(i2cAddress, REG_POINTER_CONFIG, DifferentialConfig(gain, channel)),
                                 Wait(conversionDelay), ReadWord(i2cAddress, REG_POINTER_CONVERT)]
    {
      var _ := Write(REG_POINTER_CONFIG, DifferentialConfig(gain, channel), 0);
      bus := bus + [Wait(conversionDelay)];
      var raw := Read(REG_POINTER_CONVERT, reply);
      r := ToInt16(SignedConversion(raw, bitShift));
    }

    /** Arms the comparator on input AINchannel: the HITHRESH word first, then
        the CONFIG word. The threshold is given by its int16_t bit pattern. */
    method StartComparator(channel: bv8, threshold: bv16)
      requires Valid()
      modifies this`bus
      ensures bus == old(bus) + [WriteTransfer(i2cAddress, REG_POINTER_HITHRESH, ThresholdWord(threshold, bitShift)),
                                 WriteTransfer(i2cAddress, REG_POINTER_CONFIG, ComparatorConfig(gain, channel))]
    {
      var _ := Write(REG_POINTER_HITHRESH, ThresholdWord(threshold, bitShift), 0);
      var _ := Write(REG_POINTER_CONFIG, ComparatorConfig(gain, channel), 0);
    }

    /** The signed result of the conversion in progress. */
    method GetLastConversionResults(reply: Reply) returns (r: int16)
      requires Valid()
      modifies this`bus
      ensures r == ToInt16(SignedConversion(ReplyValue(reply), bitShift))
      ensures bus == old(bus) + [Wait(conversionDelay), ReadWord(i2cAddress, REG_POINTER_CONVERT)]
    {
      bus := bus + [Wait(conversionDelay)];
      var raw := Read(REG_POINTER_CONVERT, reply);
      r := ToInt16(SignedConversion(raw, bitShift));
    }
  }
}
