/** The TinyPICO helper: a one-pixel APA102 ("DotStar") LED driven by
    bit-banged SPI on two GPIO pins, its colour helpers, and the battery charge
    check. Every digitalWrite the serialiser makes is appended to a log of pin
    writes; pin reads and the clock are parameters. */
module TinyPico {
  import opened Bits

  /** GPIO numbers of the LED's data and clock lines. */
  const DOTSTAR_DATA: bv8 := 2
  const DOTSTAR_CLK: bv8 := 12

  /** One digitalWrite(pin, level), with high true for HIGH and false for LOW. */
  datatype PinWrite = PinWrite(pin: bv8, high: bool)

  /** A colour as three channel bytes. */
  datatype Rgb = Rgb(r: bv8, g: bv8, b: bv8)

  // ---------------------------------------------------------------------------
  // Colours

  /** Color(r, g, b): the packed 0xRRGGBB value. */
  function Color(r: bv8, g: bv8, b: bv8): (c: bv32)
    ensures c < 0x0100_0000
    ensures c & 0xFF == b as bv32 && (c >> 8) & 0xFF == g as bv32 && c >> 16 == r as bv32
  {
    ((r as bv32) << 16) | ((g as bv32) << 8) | b as bv32
  }

  /** The three bytes the packed DotStar_SetPixelColor stores: the low byte
      first, as the uint8_t truncations of c, c >> 8 and c >> 16. */
  function PackedPixel(c: bv32): (px: seq<bv8>)
    ensures |px| == 3
  {
    [(c & 0xFF) as bv8, ((c >> 8) & 0xFF) as bv8, ((c >> 16) & 0xFF) as bv8]
  }

  /** Packing a colour and storing it packed gives the buffer the separate
      setter stores: blue, green, red. */
  lemma PackedPixelOfColor(r: bv8, g: bv8, b: bv8)
    ensures PackedPixel(Color(r, g, b)) == [b, g, r]
  {
    var c := Color(r, g, b);
    assert (c & 0xFF) as bv8 == b;
    assert ((c >> 8) & 0xFF) as bv8 == g;
    assert ((c >> 16) & 0xFF) as bv8 == r;
  }

  /** Storing a packed value and packing the buffer back gives the value's
      low 24 bits: the top byte of a packed colour is dropped. */
  lemma ColorOfPackedPixel(c: bv32)
    ensures Color(PackedPixel(c)[2], PackedPixel(c)[1], PackedPixel(c)[0]) == c & 0x00FF_FFFF
  {
  }

  /** The colour wheel at a rotation count: position 255 - rotation, red
      falling into blue on the first third, blue into green on the second,
      green into red on the last. */
  function Wheel(rotation: bv8): (rgb: Rgb)
    ensures rgb.r == 0 || rgb.g == 0 || rgb.b == 0
  {
    var pos := 255 - rotation;
    if pos < 85 then Rgb(255 - pos * 3, 0, pos * 3)
    else if pos < 170 then Rgb(0, (pos - 85) * 3, 255 - (pos - 85) * 3)
    else Rgb((pos - 170) * 3, 255 - (pos - 170) * 3, 0)
  }

  /** The wheel's three channels always add up to 255: the colour never
      wraps around and keeps full intensity. */
  lemma WheelSum(rotation: bv8)
    ensures Wheel(rotation).r as int + Wheel(rotation).g as int + Wheel(rotation).b as int == 255
  {
    var pos := 255 - rotation;
    if pos < 85 {
      WheelRamp(pos);
    } else if pos < 170 {
      WheelRamp(pos - 85);
    } else {
      WheelRamp(pos - 170);
    }
  }

  /** On a third of the wheel, pos * 3 and 255 - pos * 3 do not wrap around
      and add up to 255. */
  lemma WheelRamp(pos: bv8)
    requires pos <= 85
    ensures (pos * 3) as int == pos as int * 3
    ensures (255 - pos * 3) as int == 255 - pos as int * 3
  {
  }

  /** The buffer DotStar_CycleColor stores for a rotation count: what the
      packed setter stores for the wheel colour. Its bytes add up to 255 and at
      least one of them is zero. */
  function WheelPixel(rotation: bv8): (px: seq<bv8>)
    ensures |px| == 3
    ensures px == PackedPixel(Color(Wheel(rotation).r, Wheel(rotation).g, Wheel(rotation).b))
    ensures px[0] as int + px[1] as int + px[2] as int == 255
    ensures px[0] == 0 || px[1] == 0 || px[2] == 0
  {
    var w := Wheel(rotation);
    WheelSum(rotation);
    PackedPixelOfColor(w.r, w.g, w.b);
    [w.b, w.g, w.r]
  }

  // ---------------------------------------------------------------------------
  // Brightness

  /** The stored brightness for DotStar_SetBrightness(b): b + 1, wrapping. */
  function StoredBrightness(b: bv8): (s: bv8)
    ensures b < 255 ==> s as int == b as int + 1
    ensures b == 255 ==> s == 0
  {
    b + 1
  }

  /** The high byte of p * bright, as DotStar_Show scales a pixel value. */
  function Scale(p: bv8, bright: bv8): (s: bv8)
    ensures s <= p
  {
    ScaleAtMost(p, bright);
    (((p as bv16) * (bright as bv16)) >> 8) as bv8
  }

  /** Multiplying by a byte and keeping the high byte never increases a
      value. */
  lemma ScaleAtMost(p: bv8, bright: bv8)
    ensures (((p as bv16) * (bright as bv16)) >> 8) as bv8 <= p
  {
  }

  /** The byte sent for pixel value p under stored brightness bright: the raw
      value when bright is 0, otherwise scaled. */
  function ScaledPixel(p: bv8, bright: bv8): (s: bv8)
    ensures s <= p
    ensures bright == 0 ==> s == p
  {
    if bright == 0 then p else Scale(p, bright)
  }

  /** Setting brightness 255 stores 0, which sends every value unscaled;
      setting 0 stores 1, which sends every value as 0 (off). */
  lemma BrightnessExtremes(p: bv8)
    ensures StoredBrightness(255) == 0 && ScaledPixel(p, StoredBrightness(255)) == p
    ensures StoredBrightness(0) == 1 && ScaledPixel(p, StoredBrightness(0)) == 0
  {
  }

  // ---------------------------------------------------------------------------
  // The frame and its bit-banged waveform

  /** The start frame: four zero bytes. */
  const START_FRAME: seq<bv8> := [0, 0, 0, 0]

  /** The colour bytes sent for a pixel buffer, in buffer order: none is
      brighter than its buffer byte, and at stored brightness 0 they are the
      buffer itself. */
  function Colours(pixel: seq<bv8>, bright: bv8): (c: seq<bv8>)
    requires |pixel| == 3
    ensures |c| == 3
    ensures forall k :: 0 <= k < 3 ==> c[k] <= pixel[k]
    ensures bright == 0 ==> c == pixel
  {
    [ScaledPixel(pixel[0], bright), ScaledPixel(pixel[1], bright), ScaledPixel(pixel[2], bright)]
  }

  /** The byte before the colour bytes (three marker bits and full global
      brightness) and the end byte after them. */
  const PIXEL_HEADER: bv8 := 0xFF
  const END_FRAME: bv8 := 0xFF

  /** The bytes DotStar_Show sends for the colour bytes: the start frame, the
      0xFF pixel header, the colour bytes, and one 0xFF end byte. */
  function Frame(colours: seq<bv8>): seq<bv8> {
    START_FRAME + [PIXEL_HEADER] + colours + [END_FRAME]
  }

  /** A frame is the colour bytes framed by five leading bytes (four zero
      bytes and the 0xFF header) and one trailing 0xFF. */
  lemma FrameLayout(colours: seq<bv8>)
    ensures |Frame(colours)| == |colours| + 6
    ensures forall k :: 0 <= k < 4 ==> Frame(colours)[k] == 0
    ensures Frame(colours)[4] == 0xFF && Frame(colours)[|colours| + 5] == 0xFF
    ensures forall k :: 0 <= k < |colours| ==> Frame(colours)[5 + k] == colours[k]
  {
  }

  /** The frame's waveform, part by part. */
  lemma FrameWire(colours: seq<bv8>)
    ensures Wire(Frame(colours)) == Wire(START_FRAME) + Waveform(PIXEL_HEADER) + Wire(colours) + Waveform(END_FRAME)
  {
    WireAppend(START_FRAME + [PIXEL_HEADER] + colours, [END_FRAME]);
    WireAppend(START_FRAME + [PIXEL_HEADER], colours);
    WireAppend(START_FRAME, [PIXEL_HEADER]);
    WireOne(PIXEL_HEADER);
    WireOne(END_FRAME);
  }

  /** The waveform of one byte. */
  lemma WireOne(b: bv8)
    ensures Wire([b]) == Waveform(b)
  {
    assert [b][1..] == [];
  }

  /** One data bit: the data line set to the bit, then a clock pulse. */
  function Pulse(bit: bool): seq<PinWrite> {
    [PinWrite(DOTSTAR_DATA, bit), PinWrite(DOTSTAR_CLK, true), PinWrite(DOTSTAR_CLK, false)]
  }

  /** The pulses swspi_out makes for the top k bits of m: the top bit, then
      the rest of m shifted left by one. */
  function Sent(m: bv8, k: nat): seq<PinWrite>
    decreases k
  {
    if k == 0 then [] else Pulse(m & 0x80 != 0) + Sent(m << 1, k - 1)
  }

  /** What swspi_out(n) writes: one pulse per bit of n, most significant
      first, so write i is write i % 3 of the pulse for bit i / 3. */
  function Waveform(n: bv8): (w: seq<PinWrite>)
    ensures |w| == 24
  {
    seq(24, i requires 0 <= i < 24 => Pulse(TopBits(n, 8)[i / 3])[i % 3])
  }

  /** The top k bits make three writes each. */
  lemma {:induction false} SentLength(m: bv8, k: nat)
    ensures |Sent(m, k)| == 3 * k
    decreases k
  {
    if k != 0 {
      SentLength(m << 1, k - 1);
    }
  }

  /** The pulses for the top k bits, write by write: write r of the pulse
      for bit j. */
  lemma {:induction false} SentAt(m: bv8, k: nat, j: nat, r: nat)
    requires j < k && r < 3
    ensures 3 * j + r < |Sent(m, k)| && Sent(m, k)[3 * j + r] == Pulse(TopBits(m, k)[j])[r]
    decreases k
  {
    SentLength(m, k);
    if j > 0 {
      SentAt(m << 1, k - 1, j - 1, r);
      assert Sent(m, k)[3 * j + r] == Sent(m << 1, k - 1)[3 * (j - 1) + r];
    }
  }

  /** The pulses swspi_out's loop makes for all eight bits are the
      waveform. */
  lemma SentWaveform(n: bv8)
    ensures Sent(n, 8) == Waveform(n)
  {
    forall i | 0 <= i < 24
      ensures Sent(n, 8)[i] == Waveform(n)[i]
    {
      SentAt(n, 8, i / 3, i % 3);
    }
    SentLength(n, 8);
  }

  /** The waveform of a byte sequence, byte after byte: 24 writes per byte. */
  function Wire(bytes: seq<bv8>): (w: seq<PinWrite>)
    ensures |w| == 24 * |bytes|
  {
    if bytes == [] then [] else Waveform(bytes[0]) + Wire(bytes[1..])
  }

  /** Concatenation is associative. */
  lemma Assoc<T>(a: seq<T>, b: seq<T>, c: seq<T>)
    ensures (a + b) + c == a + (b + c)
  {
  }

  /** One more byte adds its waveform at the end. */
  lemma {:induction false} WireSnoc(bytes: seq<bv8>, b: bv8)
    ensures Wire(bytes + [b]) == Wire(bytes) + Waveform(b)
  {
    if bytes != [] {
      assert (bytes + [b])[1..] == bytes[1..] + [b];
      WireSnoc(bytes[1..], b);
      Assoc(Waveform(bytes[0]), Wire(bytes[1..]), Waveform(b));
    } else {
      assert Wire([b]) == Waveform(b) + Wire([]);
    }
  }

  /** The waveform of two byte sequences in a row is the two waveforms in a
      row. */
  lemma {:induction false} WireAppend(a: seq<bv8>, b: seq<bv8>)
    ensures Wire(a + b) == Wire(a) + Wire(b)
  {
    if a != [] {
      assert (a + b)[1..] == a[1..] + b;
      WireAppend(a[1..], b);
      Assoc(Waveform(a[0]), Wire(a[1..]), Wire(b));
    } else {
      assert a + b == b;
    }
  }

  /** Taking all of a sequence gives the sequence. */
  lemma TakeAll<T>(s: seq<T>)
    ensures s[..|s|] == s
  {
  }

  /** After the first i bytes of frame comes byte i. */
  lemma WireStep(frame: seq<bv8>, i: nat)
    requires i < |frame|
    ensures Wire(frame[..i + 1]) == Wire(frame[..i]) + Waveform(frame[i])
  {
    assert frame[..i + 1] == frame[..i] + [frame[i]];
    WireSnoc(frame[..i], frame[i]);
  }

  // ---------------------------------------------------------------------------
  // An APA102 receiver: it latches the data line on each write that drives
  // the clock line high. In the waveforms swspi_out makes every such write
  // follows a write that drove the clock low, so each one is a rising edge.

  /** The bits a receiver clocks in from a sequence of pin writes, with data
      the current level of the data line. */
  function Receive(writes: seq<PinWrite>, data: bool): seq<bool> {
    if writes == [] then []
    else if writes[0].pin == DOTSTAR_DATA then Receive(writes[1..], writes[0].high)
    else if writes[0].pin == DOTSTAR_CLK && writes[0].high then [data] + Receive(writes[1..], data)
    else Receive(writes[1..], data)
  }

  /** The top k bits of m, most significant first. */
  function TopBits(m: bv8, k: nat): (bits: seq<bool>)
    ensures |bits| == k
    decreases k
  {
    if k == 0 then [] else [m & 0x80 != 0] + TopBits(m << 1, k - 1)
  }

  /** The level the data line is left at after the pulses for the top k bits
      of m, when it was at data before. */
  function DataAfter(m: bv8, k: nat, data: bool): bool
    decreases k
  {
    if k == 0 then data else DataAfter(m << 1, k - 1, m & 0x80 != 0)
  }

  /** A shift register clocking bits into acc: each bit enters at the bottom
      and pushes the earlier ones up. */
  function ShiftIn(bits: seq<bool>, acc: bv8): bv8 {
    if bits == [] then acc else ShiftIn(bits[1..], (acc << 1) | (if bits[0] then 1 else 0))
  }

  /** Bytes from a bit stream, eight bits at a time. */
  function Unpack(bits: seq<bool>): seq<bv8>
    decreases |bits|
  {
    if |bits| < 8 then [] else [ShiftIn(bits[..8], 0)] + Unpack(bits[8..])
  }

  /** The bits of a byte sequence, byte after byte, most significant first. */
  function BitsOf(bytes: seq<bv8>): (bits: seq<bool>)
    ensures |bits| == 8 * |bytes|
  {
    if bytes == [] then [] else TopBits(bytes[0], 8) + BitsOf(bytes[1..])
  }

  /** A receiver clocks in the bit of one pulse and is left with the data
      line at that bit. */
  lemma ReceivePulse(bit: bool, rest: seq<PinWrite>, data: bool)
    ensures Receive(Pulse(bit) + rest, data) == [bit] + Receive(rest, bit)
  {
    var w := Pulse(bit) + rest;
    assert w[1..] == [PinWrite(DOTSTAR_CLK, true), PinWrite(DOTSTAR_CLK, false)] + rest;
    assert w[1..][1..] == [PinWrite(DOTSTAR_CLK, false)] + rest;
    assert w[1..][1..][1..] == rest;
    calc {
      Receive(w, data);
      Receive(w[1..], bit);
      [bit] + Receive(w[1..][1..], bit);
      [bit] + Receive(rest, bit);
    }
  }

  /** A receiver clocks in exactly the bits a run of pulses sends. */
  lemma {:induction false} ReceiveSent(m: bv8, k: nat, rest: seq<PinWrite>, data: bool)
    ensures Receive(Sent(m, k) + rest, data) == TopBits(m, k) + Receive(rest, DataAfter(m, k, data))
    decreases k
  {
    if k != 0 {
      Assoc(Pulse(m & 0x80 != 0), Sent(m << 1, k - 1), rest);
      ReceivePulse(m & 0x80 != 0, Sent(m << 1, k - 1) + rest, data);
      ReceiveSent(m << 1, k - 1, rest, m & 0x80 != 0);
      Assoc([m & 0x80 != 0], TopBits(m << 1, k - 1), Receive(rest, DataAfter(m, k, data)));
    } else {
      assert Sent(m, k) + rest == rest;
    }
  }

  /** A receiver clocks in the bits of every byte on the wire. */
  lemma {:induction false} ReceiveWire(bytes: seq<bv8>, data: bool)
    ensures Receive(Wire(bytes), data) == BitsOf(bytes)
  {
    if bytes != [] {
      SentWaveform(bytes[0]);
      ReceiveSent(bytes[0], 8, Wire(bytes[1..]), data);
      ReceiveWire(bytes[1..], DataAfter(bytes[0], 8, data));
    }
  }

  /** Clocking in the top k bits is clocking in the first, then the rest. */
  lemma ShiftInStep(m: bv8, k: nat, acc: bv8)
    requires k > 0
    ensures ShiftIn(TopBits(m, k), acc) == ShiftIn(TopBits(m << 1, k - 1), (acc << 1) | (if m & 0x80 != 0 then 1 else 0))
  {
    assert TopBits(m, k)[1..] == TopBits(m << 1, k - 1);
  }

  /** Shifting the top bit of n << j into the top j bits of n gives its top
      j + 1 bits. */
  lemma ShiftInBit(n: bv8, j: bv8)
    requires j < 8
    ensures ((n >> (8 - j)) << 1) | (if (n << j) & 0x80 != 0 then 1 else 0) == n >> (7 - j)
  {
  }

  /** Clocking the eight bits of a byte into an empty shift register gives
      the byte back. */
  lemma ShiftInTopBits(n: bv8)
    ensures ShiftIn(TopBits(n, 8), 0) == n
  {
    var m := n;
    var acc: bv8 := 0;
    var k := 8;
    var j: bv8 := 0;
    while k > 0
      invariant 0 <= k <= 8 && j as int == 8 - k
      invariant ShiftIn(TopBits(n, 8), 0) == ShiftIn(TopBits(m, k), acc)
      invariant m == n << j && acc == n >> (8 - j)
      decreases k
    {
      ShiftInStep(m, k, acc);
      ShiftInBit(n, j);
      acc := (acc << 1) | (if m & 0x80 != 0 then 1 else 0);
      m := m << 1;
      k := k - 1;
      j := j + 1;
    }
  }

  /** Reading the bits of a byte sequence back eight at a time gives the
      bytes. */
  lemma {:induction false} UnpackBitsOf(bytes: seq<bv8>)
    ensures Unpack(BitsOf(bytes)) == bytes
  {
    if bytes != [] {
      var bits := BitsOf(bytes);
      assert bits[..8] == TopBits(bytes[0], 8);
      assert bits[8..] == BitsOf(bytes[1..]);
      ShiftInTopBits(bytes[0]);
      UnpackBitsOf(bytes[1..]);
    }
  }

  /** Round trip: an APA102 receiver listening on the two pins, whatever the
      data line's level before, recovers exactly the bytes sent. */
  lemma WireRoundTrip(bytes: seq<bv8>, data: bool)
    ensures Unpack(Receive(Wire(bytes), data)) == bytes
  {
    ReceiveWire(bytes, data);
    UnpackBitsOf(bytes);
  }

  /** Pulse j of the top k bits of m carries the top bit of m << j. */
  lemma {:induction false} TopBitsAt(m: bv8, k: nat, j: bv8)
    requires j as int < k <= 8
    ensures TopBits(m, k)[j as int] == ((m << j) & 0x80 != 0)
    decreases k
  {
    if j != 0 {
      TopBitsAt(m << 1, k - 1, j - 1);
      assert (m << 1) << (j - 1) == m << j;
    }
  }

  /** The bits go out most significant first: pulse j of swspi_out(n) sets
      the data line to bit 7 - j of n. */
  lemma MostSignificantFirst(n: bv8, j: bv8)
    requires j < 8
    ensures TopBits(n, 8)[j as int] == Bit8(n, 7 - j)
    ensures Waveform(n)[3 * j as int] == PinWrite(DOTSTAR_DATA, Bit8(n, 7 - j))
  {
    TopBitsAt(n, 8, j);
    assert ((n << j) & 0x80 != 0) == ((n >> (7 - j)) & 1 == 1);
    var i := 3 * j as int;
    assert i / 3 == j as int && i % 3 == 0;
    assert Waveform(n)[i] == Pulse(TopBits(n, 8)[j as int])[0];
  }

  // ---------------------------------------------------------------------------
  // Battery

  /** The sum of the charge-pin samples, oldest first; for 0/1 samples it lies
      between 0 and their count. */
  function Sum(samples: seq<int>): (s: int)
    ensures (forall k :: 0 <= k < |samples| ==> 0 <= samples[k] <= 1) ==> 0 <= s <= |samples|
  {
    if samples == [] then 0 else Sum(samples[..|samples| - 1]) + samples[|samples| - 1]
  }

  /** Samples that are all LOW or HIGH sum to zero exactly when all are LOW. */
  lemma {:induction false} SumZeroIffAllLow(samples: seq<int>)
    requires forall k :: 0 <= k < |samples| ==> samples[k] == 0 || samples[k] == 1
    ensures Sum(samples) >= 0
    ensures Sum(samples) == 0 <==> forall k :: 0 <= k < |samples| ==> samples[k] == 0
  {
    if samples != [] {
      SumZeroIffAllLow(samples[..|samples| - 1]);
    }
  }

  /** IsChargingBattery(): the charge pin is read ten times, and the battery is
      charging when every read is LOW. samples are the ten digitalRead()
      results, each LOW or HIGH. */
  method IsChargingBattery(samples: seq<int>) returns (charging: bool)
    requires |samples| == 10
    requires forall k :: 0 <= k < |samples| ==> samples[k] == 0 || samples[k] == 1
    ensures charging <==> forall k :: 0 <= k < |samples| ==> samples[k] == 0
  {
    var measuredVal := 0;
    var i := 0;
    while i < 10
      invariant 0 <= i <= 10
      invariant measuredVal == Sum(samples[..i])
    {
      assert samples[..i + 1][..i] == samples[..i];
      measuredVal := measuredVal + samples[i];
      i := i + 1;
    }
    assert samples[..10] == samples;
    SumZeroIffAllLow(samples);
    charging := measuredVal == 0;
  }

  // ---------------------------------------------------------------------------
  // The board

  class TinyPico {
    /** The LED's blue, green and red bytes, in that order. */
    const pixel: array<bv8>
    var brightness: bv8
    var isInit: bool
    var colorRotation: bv8
    var nextRotation: bv32
    /** Every pin write swspi_out has made so far, in order. The writes
        swspi_init and DotStar_SetPower make are not logged. */
    var pins: seq<PinWrite>

    ghost predicate Valid()
      reads this
    {
      pixel.Length == 3
    }

    /** TinyPICO(): a dark pixel, brightness 128, not yet initialised. */
    constructor ()
      ensures Valid() && fresh(pixel)
      ensures pixel[..] == [0, 0, 0]
      ensures brightness == 128 && !isInit && colorRotation == 0 && nextRotation == 0 && pins == []
    {
      pixel := new bv8[3];
      brightness := 128;
      isInit := false;
      colorRotation := 0;
      nextRotation := 0;
      pins := [];
      new;
      var i := 0;
      while i < 3
        invariant 0 <= i <= 3
        invariant forall k :: 0 <= k < i ==> pixel[k] == 0
        modifies pixel
      {
        pixel[i] := 0;
        i := i + 1;
      }
    }

    /** DotStar_SetBrightness(b). */
    method SetBrightness(b: bv8)
      modifies this`brightness
      ensures brightness == StoredBrightness(b)
    {
      brightness := b + 1;
    }

    /** digitalWrite(pin, HIGH) when high, digitalWrite(pin, LOW) otherwise. */
    method DigitalWrite(pin: bv8, high: bool)
      modifies this`pins
      ensures pins == old(pins) + [PinWrite(pin, high)]
    {
      pins := pins + [PinWrite(pin, high)];
    }

    /** One pass of swspi_out's loop: the data line set from the top bit, then
        the clock raised and lowered. */
    method ClockOut(top: bool)
      modifies this`pins
      ensures pins == old(pins) + Pulse(top)
    {
      if top {
        DigitalWrite(DOTSTAR_DATA, true);
      } else {
        DigitalWrite(DOTSTAR_DATA, false);
      }
      DigitalWrite(DOTSTAR_CLK, true);
      DigitalWrite(DOTSTAR_CLK, false);
    }

    /** swspi_out(n): eight times, the top bit of n on the data line and a
        clock pulse, shifting n left after each. */
    method SwspiOut(n: bv8)
      modifies this`pins
      ensures pins == old(pins) + Waveform(n)
    {
      var m := n;
      var i := 8;
      while i != 0
        invariant 0 <= i <= 8
        invariant pins + Sent(m, i) == old(pins) + Sent(n, 8)
        decreases i
      {
        i := i - 1;
        Assoc(pins, Pulse(m & 0x80 != 0), Sent(m << 1, i));
        ClockOut(m & 0x80 != 0);
        m := m << 1;
      }
      SentWaveform(n);
    }

    /** DotStar_Show(): the first call initialises the SPI pins; every call
        sends the frame for the buffer and the stored brightness. */
    method Show()
      requires Valid()
      modifies this`isInit, this`pins
      ensures isInit
      ensures pins == old(pins) + Wire(Frame(Colours(pixel[..], brightness)))
    {
      if !isInit {
        isInit := true;
      }
      SendFrame();
    }

    /** The frame for the buffer and the stored brightness. */
    method SendFrame()
      requires Valid()
      modifies this`pins
      ensures pins == old(pins) + Wire(Frame(Colours(pixel[..], brightness)))
    {
      ghost var frame := Frame(Colours(pixel[..], brightness));
      FrameLayout(Colours(pixel[..], brightness));
      assert frame[..0] == [];
      SendHead(old(pins), frame);
      SendTail(old(pins), frame);
      TakeAll(frame);
    }

    /** The start frame and the pixel header: bytes 0 to 4 of the frame.
        The source sends the header inside each branch of the brightness
        test; since the test does not depend on it, sending it first is the
        same. */
    method SendHead(ghost base: seq<PinWrite>, ghost frame: seq<bv8>)
      requires |frame| >= 5 && forall k :: 0 <= k < 4 ==> frame[k] == 0
      requires frame[4] == PIXEL_HEADER
      requires pins == base + Wire(frame[..0])
      modifies this`pins
      ensures pins == base + Wire(frame[..5])
    {
      SendStartFrame(base, frame);
      SendByte(base, frame, 4, PIXEL_HEADER);
    }

    /** The colour bytes and the end frame: bytes 5 to 8 of the frame. */
    method SendTail(ghost base: seq<PinWrite>, ghost frame: seq<bv8>)
      requires Valid() && |frame| == 9
      requires forall k :: 0 <= k < 3 ==> frame[5 + k] == ScaledPixel(pixel[k], brightness)
      requires frame[8] == END_FRAME
      requires pins == base + Wire(frame[..5])
      modifies this`pins
      ensures pins == base + Wire(frame[..9])
    {
      SendColours(base, frame);
      SendByte(base, frame, 8, END_FRAME);
    }

    /** The start frame, bytes 0 to 3 of the frame: swspi_out(0) four
        times. */
    method SendStartFrame(ghost base: seq<PinWrite>, ghost frame: seq<bv8>)
      requires |frame| >= 4 && forall k :: 0 <= k < 4 ==> frame[k] == 0
      requires pins == base + Wire(frame[..0])
      modifies this`pins
      ensures pins == base + Wire(frame[..4])
    {
      var i := 0;
      while i < 4
        invariant i <= 4
        invariant pins == base + Wire(frame[..i])
      {
        SendByte(base, frame, i, 0);
        i := i + 1;
      }
    }

    /** The colour bytes, bytes 5 to 7 of the frame: each buffer byte scaled
        by the stored brightness, or sent unscaled when it is 0. */
    method SendColours(ghost base: seq<PinWrite>, ghost frame: seq<bv8>)
      requires Valid()
      requires |frame| >= 8 && forall k :: 0 <= k < 3 ==> frame[5 + k] == ScaledPixel(pixel[k], brightness)
      requires pins == base + Wire(frame[..5])
      modifies this`pins
      ensures pins == base + Wire(frame[..8])
    {
      var i := 0;
      ghost var j := 5;
      if brightness != 0 {
        while i < 3
          invariant i <= 3 && j == i + 5
          invariant pins == base + Wire(frame[..j])
        {
          SendByte(base, frame, j, Scale(pixel[i], brightness));
          i := i + 1;
          j := j + 1;
        }
      } else {
        while i < 3
          invariant i <= 3 && j == i + 5
          invariant pins == base + Wire(frame[..j])
        {
          SendByte(base, frame, j, pixel[i]);
          i := i + 1;
          j := j + 1;
        }
      }
    }

    /** swspi_out(b) for byte i of bytes, once base and the bytes before it
        are out. */
    method SendByte(ghost base: seq<PinWrite>, ghost bytes: seq<bv8>, ghost i: nat, b: bv8)
      requires i < |bytes| && b == bytes[i] && pins == base + Wire(bytes[..i])
      modifies this`pins
      ensures pins == base + Wire(bytes[..i + 1])
    {
      SwspiOut(b);
      WireStep(bytes, i);
      Assoc(base, Wire(bytes[..i]), Waveform(b));
    }

    /** DotStar_Clear(): a dark buffer, then a show. */
    method Clear()
      requires Valid()
      modifies pixel, this`isInit, this`pins
      ensures pixel[..] == [0, 0, 0] && isInit
      ensures pins == old(pins) + Wire(Frame(Colours(pixel[..], brightness)))
    {
      var i := 0;
      while i < 3
        invariant 0 <= i <= 3
        invariant forall k :: 0 <= k < i ==> pixel[k] == 0
        invariant pins == old(pins) && isInit == old(isInit)
      {
        pixel[i] := 0;
        i := i + 1;
      }
      assert pixel[..] == [0, 0, 0];
      Show();
    }

    /** DotStar_SetPixelColor(r, g, b): the buffer holds blue, green, red, and
        is shown. */
    method SetPixelColor(r: bv8, g: bv8, b: bv8)
      requires Valid()
      modifies pixel, this`isInit, this`pins
      ensures pixel[..] == [b, g, r] && isInit
      ensures pins == old(pins) + Wire(Frame(Colours(pixel[..], brightness)))
    {
      pixel[0] := b;
      pixel[1] := g;
      pixel[2] := r;
      assert pixel[..] == [b, g, r];
      Show();
    }

    /** DotStar_SetPixelColor(c) for a packed 0xRRGGBB value. */
    method SetPixelColorPacked(c: bv32)
      requires Valid()
      modifies pixel, this`isInit, this`pins
      ensures pixel[..] == PackedPixel(c) && isInit
      ensures pins == old(pins) + Wire(Frame(Colours(pixel[..], brightness)))
    {
      pixel[0] := (c & 0xFF) as bv8;
      pixel[1] := ((c >> 8) & 0xFF) as bv8;
      pixel[2] := ((c >> 16) & 0xFF) as bv8;
      assert pixel[..] == PackedPixel(c);
      Show();
    }

    /** DotStar_CycleColor(wait) at time now, the value millis() returns
        (milliseconds, unsigned 32 bits, so nextRotation + wait wraps): once
        now is past the last rotation time plus wait, the rotation advances,
        the pixel is set to the wheel colour, which sends its frame, and the
        pixel is shown once more. Otherwise nothing changes. */
    method CycleColor(now: bv32, wait: bv32)
      requires Valid()
      modifies pixel, this`nextRotation, this`colorRotation, this`isInit, this`pins
      ensures now > old(nextRotation) + wait ==>
                nextRotation == now && colorRotation == old(colorRotation) + 1 && isInit &&
                pixel[..] == WheelPixel(colorRotation) &&
                pins == old(pins) + Wire(Frame(Colours(pixel[..], brightness))) + Wire(Frame(Colours(pixel[..], brightness)))
      ensures !(now > old(nextRotation) + wait) ==>
                nextRotation == old(nextRotation) && colorRotation == old(colorRotation) &&
                isInit == old(isInit) && pixel[..] == old(pixel[..]) && pins == old(pins)
    {
      if now > nextRotation + wait {
        AdvanceColor(now);
      }
    }

    /** The body of the rotation step at time now: the next wheel colour,
        set and shown twice. */
    method AdvanceColor(now: bv32)
      requires Valid()
      modifies pixel, this`nextRotation, this`colorRotation, this`isInit, this`pins
      ensures nextRotation == now && colorRotation == old(colorRotation) + 1 && isInit
      ensures pixel[..] == WheelPixel(colorRotation)
      ensures pins == old(pins) + Wire(Frame(Colours(pixel[..], brightness))) + Wire(Frame(Colours(pixel[..], brightness)))
    {
      nextRotation := now;
      colorRotation := colorRotation + 1;
      var wheel := Wheel(colorRotation);
      SetPixelColor(wheel.r, wheel.g, wheel.b);
      Show();
    }
  }
}
