/** Driver for the MCP23017 16-bit I2C GPIO expander and its port-change
    detector. The I2C bus is abstracted away: the device is its register file,
    an array of 22 bytes in the device's default (BANK = 0) layout, where every
    register read and write succeeds. The registered change handler is an
    identity; each invocation of it is appended to a log. */
module Mcp23017 {
  import opened Bits
  import opened Optional
  import opened Arduino

  const MCP23017_ADDRESS: bv8 := 0x20

  // Register addresses: the A and B halves of each register are interleaved.
  const IODIRA: uint8 := 0x00
  const IPOLA: uint8 := 0x02
  const GPINTENA: uint8 := 0x04
  const DEFVALA: uint8 := 0x06
  const INTCONA: uint8 := 0x08
  const IOCONA: uint8 := 0x0A
  const GPPUA: uint8 := 0x0C
  const INTFA: uint8 := 0x0E
  const INTCAPA: uint8 := 0x10
  const GPIOA: uint8 := 0x12
  const OLATA: uint8 := 0x14

  const IODIRB: uint8 := 0x01
  const IPOLB: uint8 := 0x03
  const GPINTENB: uint8 := 0x05
  const DEFVALB: uint8 := 0x07
  const INTCONB: uint8 := 0x09
  const IOCONB: uint8 := 0x0B
  const GPPUB: uint8 := 0x0D
  const INTFB: uint8 := 0x0F
  const INTCAPB: uint8 := 0x11
  const GPIOB: uint8 := 0x13
  const OLATB: uint8 := 0x15

  /** Number of registers: addresses 0x00 to 0x15. */
  const REGISTER_COUNT: nat := 22

  /** What the interrupt queries return when no interrupt flag is set. */
  const INT_ERR: bv8 := 255

  // Masks naming the sixteen expander pins in a port snapshot.
  const BUTTON0: bv16 := 0x01
  const BUTTON1: bv16 := 0x02
  const BUTTON2: bv16 := 0x04
  const BUTTON3: bv16 := 0x08
  const BUTTON4: bv16 := 0x10
  const BUTTON5: bv16 := 0x20
  const BUTTON6: bv16 := 0x40
  const BUTTON7: bv16 := 0x80
  const BUTTON8: bv16 := 0x100
  const BUTTON9: bv16 := 0x200
  const BUTTON10: bv16 := 0x400
  const BUTTON11: bv16 := 0x800
  const BUTTON12: bv16 := 0x1000
  const BUTTON13: bv16 := 0x2000
  const BUTTON14: bv16 := 0x4000
  const BUTTON15: bv16 := 0x8000

  /** The BUTTONi constants in pin order. */
  const BUTTONS: seq<bv16> := [BUTTON0, BUTTON1, BUTTON2, BUTTON3, BUTTON4, BUTTON5, BUTTON6, BUTTON7,
                               BUTTON8, BUTTON9, BUTTON10, BUTTON11, BUTTON12, BUTTON13, BUTTON14, BUTTON15]

  /** BUTTONi is the snapshot with only pin i set, that is, 1 << i. */
  lemma ButtonsAreSingleBits()
    ensures |BUTTONS| == 16
    ensures forall i: bv8 :: i < 16 ==> BUTTONS[i] == (1 as bv16) << i
  {
  }

  predicate IsRegister(addr: int) {
    0 <= addr < REGISTER_COUNT
  }

  /** The register of a pair that holds the given pin: A for pins 0-7, B otherwise. */
  function PortRegister(pin: bv8, portA: uint8, portB: uint8): uint8 {
    if pin < 8 then portA else portB
  }

  /** The second address a write to `addr` lands in. The device keeps an output
      latch per port, so a write to GPIOA or GPIOB writes OLATA or OLATB as
      well; and IOCONA and IOCONB are two addresses of the one configuration
      register. Every other register is written alone. */
  function LatchOf(addr: uint8): (l: uint8)
    ensures IsRegister(addr) ==> IsRegister(l)
    ensures l != addr <==> addr == GPIOA || addr == GPIOB || addr == IOCONA || addr == IOCONB
  {
    if addr == GPIOA then OLATA
    else if addr == GPIOB then OLATB
    else if addr == IOCONA then IOCONB
    else if addr == IOCONB then IOCONA
    else addr
  }

  /** The register file after the device accepts `value` at `addr`: the address
      and its second address hold the value, every other register keeps its own.
      The two IOCON addresses, once they agree, keep agreeing. */
  function AfterWrite(r: seq<bv8>, addr: uint8, value: bv8): (s: seq<bv8>)
    requires |r| == REGISTER_COUNT && IsRegister(addr)
    ensures |s| == |r| && s[addr] == value && s[LatchOf(addr)] == value
    ensures forall a :: 0 <= a < |r| && a != addr && a != LatchOf(addr) ==> s[a] == r[a]
    ensures r[IOCONA] == r[IOCONB] ==> s[IOCONA] == s[IOCONB]
  {
    r[addr := value][LatchOf(addr) := value]
  }

  /** The register file after bitWrite of bit `pin % 8` of the pin's register to v
      and the write back: that bit becomes v, the register's other bits keep their
      values, and so does every register other than it and its latch. */
  function WithBit(r: seq<bv8>, pin: bv8, v: bool, portA: uint8, portB: uint8): (s: seq<bv8>)
    requires |r| == REGISTER_COUNT && IsRegister(portA) && IsRegister(portB)
    ensures |s| == |r|
    ensures Bit8(s[PortRegister(pin, portA, portB)], pin % 8) == v
    ensures s[PortRegister(pin, portA, portB)] & !(1 << (pin % 8)) == r[PortRegister(pin, portA, portB)] & !(1 << (pin % 8))
    ensures s[LatchOf(PortRegister(pin, portA, portB))] == s[PortRegister(pin, portA, portB)]
    ensures forall a :: 0 <= a < |r| && a != PortRegister(pin, portA, portB) && a != LatchOf(PortRegister(pin, portA, portB)) ==> s[a] == r[a]
  {
    var reg := PortRegister(pin, portA, portB);
    AfterWrite(r, reg, BitWrite(r[reg], pin % 8, v))
  }

  /** The register file after digitalWrite(pin, v): the port's output latch with
      bit pin % 8 replaced by v is written to the port's GPIO register, which the
      device copies into the latch. So GPIO and latch agree afterwards, the pin's
      bit is v, the latch's other bits are kept and no other register changes. */
  function DigitalWritten(r: seq<bv8>, pin: bv8, v: bool): (s: seq<bv8>)
    requires |r| == REGISTER_COUNT
    ensures |s| == |r|
    ensures s[PortRegister(pin, GPIOA, GPIOB)] == s[PortRegister(pin, OLATA, OLATB)]
    ensures Bit8(s[PortRegister(pin, OLATA, OLATB)], pin % 8) == v
    ensures s[PortRegister(pin, OLATA, OLATB)] & !(1 << (pin % 8)) == r[PortRegister(pin, OLATA, OLATB)] & !(1 << (pin % 8))
    ensures forall a :: 0 <= a < |r| && a != PortRegister(pin, GPIOA, GPIOB) && a != PortRegister(pin, OLATA, OLATB) ==> s[a] == r[a]
  {
    AfterWrite(r, PortRegister(pin, GPIOA, GPIOB), BitWrite(r[PortRegister(pin, OLATA, OLATB)], pin % 8, v))
  }

  /** digitalWrite calls to two pins of one port add up: after the second, the
      port's GPIO register still holds the level the first one gave. */
  lemma DigitalWritesAddUp(r: seq<bv8>, p: bv8, q: bv8, vp: bool, vq: bool)
    requires |r| == REGISTER_COUNT
    requires (p < 8 <==> q < 8) && p % 8 != q % 8
    ensures var s := DigitalWritten(DigitalWritten(r, p, vp), q, vq);
            Bit8(s[PortRegister(p, GPIOA, GPIOB)], p % 8) == vp &&
            Bit8(s[PortRegister(p, GPIOA, GPIOB)], q % 8) == vq
  {
    var s1 := DigitalWritten(r, p, vp);
    BitWriteKeepsOthers(s1[PortRegister(p, OLATA, OLATB)], q % 8, vq, p % 8);
  }

  /** Setting pins 0 and 1 from a cleared latch leaves both set in GPIOA. */
  lemma TwoPinsFromClearedLatch(r: seq<bv8>)
    requires |r| == REGISTER_COUNT && r[OLATA] == 0
    ensures DigitalWritten(DigitalWritten(r, 0, true), 1, true)[GPIOA] == 0x03
  {
  }

  /** IOCON with MIRROR (bit 6), ODR (bit 2) and INTPOL (bit 1) written and its
      other bits (7, 5, 4, 3, 0: mask 0xB9) kept. */
  function IoconWith(x: bv8, mirror: bool, openDrain: bool, polarity: bool): (r: bv8)
    ensures Bit8(r, 6) == mirror && Bit8(r, 2) == openDrain && Bit8(r, 1) == polarity
    ensures r & 0xB9 == x & 0xB9
  {
    BitWrite(BitWrite(BitWrite(x, 6, mirror), 2, openDrain), 1, polarity)
  }

  /** Writing the same three IOCON bits a second time changes nothing. */
  lemma IoconWithTwice(x: bv8, mirror: bool, openDrain: bool, polarity: bool)
    ensures IoconWith(IoconWith(x, mirror, openDrain, polarity), mirror, openDrain, polarity)
            == IoconWith(x, mirror, openDrain, polarity)
  {
  }

  /** Index of the lowest set bit of a byte, searching from bit i up. */
  function LowestSetBitFrom(x: bv8, i: bv8): (k: bv8)
    requires i < 8
    requires x >> i != 0
    requires forall j: bv8 :: j < i ==> !Bit8(x, j)
    ensures i <= k < 8 && Bit8(x, k)
    ensures forall j: bv8 :: j < k ==> !Bit8(x, j)
    decreases 8 - i
  {
    if Bit8(x, i) then i else LowestSetBitFrom(x, i + 1)
  }

  /** The pin getLastInterruptPin reports for the flag registers INTFA and INTFB:
      the lowest flagged pin of port A, else 8 plus the lowest of port B, else INT_ERR. */
  function FirstInterruptPin(intfA: bv8, intfB: bv8): (pin: bv8)
    ensures pin < 16 || pin == INT_ERR
    ensures pin == INT_ERR <==> intfA == 0 && intfB == 0
    ensures pin < 8 ==> Bit8(intfA, pin) && forall j: bv8 :: j < pin ==> !Bit8(intfA, j)
    ensures 8 <= pin < 16 ==>
              intfA == 0 && Bit8(intfB, pin - 8) && forall j: bv8 :: j < pin - 8 ==> !Bit8(intfB, j)
  {
    ZeroIffNoBit(intfA);
    ZeroIffNoBit(intfB);
    if intfA != 0 then LowestSetBitFrom(intfA, 0)
    else if intfB != 0 then 8 + LowestSetBitFrom(intfB, 0)
    else INT_ERR
  }

  /** The 16-bit port snapshot of the two GPIO bytes: port B high, port A low. */
  function PortWord(a: bv8, b: bv8): (w: bv16)
    ensures (w & 0xFF) as bv8 == a && (w >> 8) as bv8 == b
  {
    ((b as bv16) << 8) | a as bv16
  }

  /** Pin i of the snapshot is bit i of port A for i < 8 and bit i - 8 of port B. */
  lemma PortWordBits(a: bv8, b: bv8, i: bv8)
    requires i < 8
    ensures Bit16(PortWord(a, b), i) == Bit8(a, i)
    ensures Bit16(PortWord(a, b), i + 8) == Bit8(b, i)
  {
  }

  /** A pin update() must report: watched by the mask and at a different level
      in the two snapshots. */
  predicate Changed(ports: bv16, prev: bv16, mask: bv16, i: bv8)
    requires i < 16
  {
    Bit16(mask, i) && Bit16(ports, i) != Bit16(prev, i)
  }

  /** The changed pins below n, in ascending order. */
  function ChangedBelow(ports: bv16, prev: bv16, mask: bv16, n: bv8): (pins: seq<bv8>)
    requires n <= 16
    ensures forall k :: 0 <= k < |pins| ==> pins[k] < n
    decreases n
  {
    if n == 0 then []
    else ChangedBelow(ports, prev, mask, n - 1) + (if Changed(ports, prev, mask, n - 1) then [n - 1] else [])
  }

  /** The pins update() reports for snapshot `ports` after `prev` under `mask`. */
  function ChangedPins(ports: bv16, prev: bv16, mask: bv16): (pins: seq<bv8>)
    ensures forall k :: 0 <= k < |pins| ==> pins[k] < 16
  {
    ChangedBelow(ports, prev, mask, 16)
  }

  /** update()'s per-pin test, the masked bits of the two snapshots compared
      under 1 << i, holds exactly for a changed pin. */
  lemma ChangeTest(p: bv16, q: bv16, m: bv16, i: bv8)
    requires i < 16
    ensures (((p & m) & (1 << i)) ^ ((q & m) & (1 << i)) != 0) == Changed(p, q, m, i)
  {
  }

  /** No pin changes between two equal snapshots. */
  lemma SameSnapshotNoChange(p: bv16, m: bv16, i: bv8)
    requires i < 16
    ensures !Changed(p, p, m, i)
  {
  }

  /** ChangedBelow lists exactly the changed pins below n, strictly ascending. */
  lemma {:induction false} ChangedBelowExact(ports: bv16, prev: bv16, mask: bv16, n: bv8)
    requires n <= 16
    ensures forall x: bv8 :: x in ChangedBelow(ports, prev, mask, n) <==> x < n && Changed(ports, prev, mask, x)
    ensures forall a, b :: 0 <= a < b < |ChangedBelow(ports, prev, mask, n)| ==>
              ChangedBelow(ports, prev, mask, n)[a] < ChangedBelow(ports, prev, mask, n)[b]
    decreases n
  {
    if n > 0 {
      ChangedBelowExact(ports, prev, mask, n - 1);
    }
  }

  /** Two equal snapshots have no changed pin below n. */
  lemma {:induction false} SameSnapshotBelow(ports: bv16, mask: bv16, n: bv8)
    requires n <= 16
    ensures ChangedBelow(ports, ports, mask, n) == []
    decreases n
  {
    if n > 0 {
      SameSnapshotNoChange(ports, mask, n - 1);
      SameSnapshotBelow(ports, mask, n - 1);
    }
  }

  /** update() reports pin i iff i is watched and its level differs from the
      previous snapshot, and it reports the pins in ascending order. */
  lemma ChangedPinsExact(ports: bv16, prev: bv16, mask: bv16)
    ensures forall i: bv8 :: i in ChangedPins(ports, prev, mask) <==>
              i < 16 && Bit16(mask, i) && Bit16(ports, i) != Bit16(prev, i)
    ensures forall a, b :: 0 <= a < b < |ChangedPins(ports, prev, mask)| ==>
              ChangedPins(ports, prev, mask)[a] < ChangedPins(ports, prev, mask)[b]
  {
    ChangedBelowExact(ports, prev, mask, 16);
  }

  /** A snapshot equal to the previous one reports nothing, whatever the mask. */
  lemma RepeatedSnapshotIsSilent(ports: bv16, mask: bv16)
    ensures ChangedPins(ports, ports, mask) == []
  {
    SameSnapshotBelow(ports, mask, 16);
  }

  /** Under the default mask 0xFF only pins 0-7 are ever reported. */
  lemma DefaultMaskWatchesPortA(ports: bv16, prev: bv16)
    ensures forall i :: i in ChangedPins(ports, prev, 0xFF) ==> i < 8
  {
    ChangedPinsExact(ports, prev, 0xFF);
  }

  /** Baseline 0, snapshot 1, all pins watched: of the pins below n, only
      pin 0 is reported. */
  lemma {:induction false} SingleEdgeBelow(n: bv8)
    requires 1 <= n <= 16
    ensures ChangedBelow(1, 0, 0xFFFF, n) == [0]
    decreases n
  {
    if n > 1 {
      SingleEdgeBelow(n - 1);
      assert !Changed(1, 0, 0xFFFF, n - 1);
    } else {
      assert Changed(1, 0, 0xFFFF, 0);
    }
  }

  /** Baseline 0, snapshot 1, all pins watched: exactly one report, for
      pin 0. */
  lemma SingleEdgeExample()
    ensures ChangedPins(1, 0, 0xFFFF) == [0]
  {
    SingleEdgeBelow(16);
  }

  /** Identity of a registered change handler (a function pointer in the driver). */
  type HandlerId = nat

  /** One invocation chngFn(ports, button, state) of the change handler. */
  datatype ChangeCall = ChangeCall(handler: HandlerId, ports: bv16, button: bv8, state: bool)

  /** The handler invocations update() makes for snapshot `ports` and the reported
      pins: one per pin, in order, with the active-low level (true when the bit is 0);
      none when no handler is registered. */
  function Notifications(h: Option<HandlerId>, ports: bv16, pins: seq<bv8>): (r: seq<ChangeCall>)
    requires forall k :: 0 <= k < |pins| ==> pins[k] < 16
    ensures h.None? ==> r == []
    ensures h.Some? ==> |r| == |pins|
  {
    if h.None? then []
    else seq(|pins|, k requires 0 <= k < |pins| => ChangeCall(h.value, ports, pins[k], !Bit16(ports, pins[k])))
  }

  /** Reporting one more pin appends its one invocation. */
  lemma NotificationsSnoc(h: Option<HandlerId>, ports: bv16, pins: seq<bv8>, p: bv8)
    requires forall k :: 0 <= k < |pins| ==> pins[k] < 16
    requires p < 16
    ensures Notifications(h, ports, pins + [p]) ==
              Notifications(h, ports, pins) + if h.Some? then [ChangeCall(h.value, ports, p, !Bit16(ports, p))] else []
  {
    var pins' := pins + [p];
    assert forall k :: 0 <= k < |pins| ==> pins'[k] == pins[k];
  }

  /** What update() tells the handler: for each changed pin, in ascending order,
      the handler, the new snapshot, the pin and whether it now reads low. */
  lemma UpdateNotifiesChangedPins(h: HandlerId, ports: bv16, prev: bv16, mask: bv16)
    ensures |Notifications(Some(h), ports, ChangedPins(ports, prev, mask))| == |ChangedPins(ports, prev, mask)|
    ensures forall k :: 0 <= k < |ChangedPins(ports, prev, mask)| ==>
              var c := Notifications(Some(h), ports, ChangedPins(ports, prev, mask))[k];
              c.handler == h && c.ports == ports && c.button == ChangedPins(ports, prev, mask)[k] &&
              Changed(ports, prev, mask, c.button) && c.state == !Bit16(ports, c.button)
    ensures forall a, b :: 0 <= a < b < |ChangedPins(ports, prev, mask)| ==>
              Notifications(Some(h), ports, ChangedPins(ports, prev, mask))[a].button <
              Notifications(Some(h), ports, ChangedPins(ports, prev, mask))[b].button
  {
    ChangedBelowExact(ports, prev, mask, 16);
  }

  /** One more pin examined by update()'s loop: pin i is reported, with its
      active-low level, iff it changed. */
  lemma NotificationsStep(h: Option<HandlerId>, ports: bv16, prev: bv16, mask: bv16, i: bv8)
    requires i < 16
    ensures Notifications(h, ports, ChangedBelow(ports, prev, mask, i + 1)) ==
              Notifications(h, ports, ChangedBelow(ports, prev, mask, i)) +
              if Changed(ports, prev, mask, i) && h.Some? then [ChangeCall(h.value, ports, i, !Bit16(ports, i))] else []
  {
    NotificationsSnoc(h, ports, ChangedBelow(ports, prev, mask, i), i);
  }

  /** The optional change handler of the driver and the log of its invocations. */
  class GpioEvents {
    var chngFn: Option<HandlerId>
    var calls: seq<ChangeCall>

    constructor ()
      ensures chngFn == None && calls == []
    {
      calls := [];
      new;
      ClearCallbacks();
    }

    method ClearCallbacks()
      modifies this
      ensures chngFn == None && calls == old(calls)
    {
      chngFn := None;
    }

    /** Stores f (which may be absent), replacing any earlier handler. */
    method RegisterChangeCallback(f: Option<HandlerId>) returns (ok: bool)
      modifies this
      ensures chngFn == f && calls == old(calls) && ok
    {
      chngFn := f;
      ok := true;
    }

    /** Calls the handler if one is registered; does nothing otherwise. */
    method Change(ports: bv16, button: bv8, state: bool)
      modifies this`calls
      ensures calls == old(calls) + if chngFn.Some? then [ChangeCall(chngFn.value, ports, button, state)] else []
    {
      if chngFn.Some? {
        calls := calls + [ChangeCall(chngFn.value, ports, button, state)];
      }
    }
  }

  class Mcp23017 {
    /** The device's registers, indexed by register address. */
    const regs: array<bv8>
    const cb: GpioEvents
    var i2cAddress: bv8
    var prevPorts: bv16
    var callbackPortMask: bv16

    ghost predicate Valid() {
      regs.Length == REGISTER_COUNT
    }

    /** A driver for a device whose registers currently hold `device`; the
        previous snapshot and the watch mask take their declared defaults and no
        change handler is registered. */
    constructor (device: seq<bv8>)
      requires |device| == REGISTER_COUNT
      ensures Valid() && fresh(regs) && fresh(cb) && regs[..] == device
      ensures prevPorts == 0 && callbackPortMask == 0xFF
      ensures cb.chngFn == None && cb.calls == []
    {
      regs := new bv8[REGISTER_COUNT](i => if 0 <= i < |device| then device[i] else 0);
      cb := new GpioEvents();
      prevPorts := 0;
      callbackPortMask := 0xFF;
    }

    method Begin(addr: bv8)
      requires Valid()
      modifies this`i2cAddress, regs
      ensures i2cAddress == addr
      ensures regs[..] == old(regs[..])[IODIRA := 0xFF][IODIRB := 0xFF]
    {
      i2cAddress := addr;
      var _ := Write(IODIRA, 0xFF);
      var _ := Write(IODIRB, 0xFF);
    }

    /** begin() with the device's default address. */
    method BeginDefault()
      requires Valid()
      modifies this`i2cAddress, regs
      ensures i2cAddress == MCP23017_ADDRESS
      ensures regs[..] == old(regs[..])[IODIRA := 0xFF][IODIRB := 0xFF]
    {
      Begin(MCP23017_ADDRESS);
    }

    method Write(addr: uint8, value: bv8) returns (ok: bool)
      requires Valid() && IsRegister(addr)
      modifies regs
      ensures regs[..] == AfterWrite(old(regs[..]), addr, value) && ok
    {
      regs[addr] := value;
      regs[LatchOf(addr)] := value;
      ok := true;
    }

    method Read(addr: uint8) returns (value: bv8)
      requires Valid() && IsRegister(addr)
      ensures value == regs[addr]
    {
      value := regs[addr];
    }

    /** readPorts(port): the single register `port`. */
    method ReadPort(port: uint8) returns (value: bv8)
      requires Valid() && IsRegister(port)
      ensures value == regs[port]
    {
      value := Read(port);
    }

    /** readPorts(): GPIOB in the high byte, GPIOA in the low byte. */
    function ReadPorts(): (ba: bv16)
      requires Valid()
      reads regs
      ensures (ba & 0xFF) as bv8 == regs[GPIOA] && (ba >> 8) as bv8 == regs[GPIOB]
    {
      PortWord(regs[GPIOA], regs[GPIOB])
    }

    method UpdateRegisterBit(pin: bv8, pValue: bv8, portAaddr: uint8, portBaddr: uint8)
      requires Valid() && IsRegister(portAaddr) && IsRegister(portBaddr)
      modifies regs
      ensures regs[..] == WithBit(old(regs[..]), pin, pValue != 0, portAaddr, portBaddr)
    {
      var regAddr := PortRegister(pin, portAaddr, portBaddr);
      var bit := pin % 8;
      var regValue := Read(regAddr);
      regValue := BitWrite(regValue, bit, pValue != 0);
      var _ := Write(regAddr, regValue);
    }

    /** Drives a pin from the port's output latch with bit `pin % 8` replaced. */
    method DigitalWrite(pin: bv8, value: bv8)
      requires Valid()
      modifies regs
      ensures regs[..] == DigitalWritten(old(regs[..]), pin, value != 0)
    {
      var bit := pin % 8;
      var regAddr := PortRegister(pin, OLATA, OLATB);
      var gpio := Read(regAddr);
      gpio := BitWrite(gpio, bit, value != 0);
      regAddr := PortRegister(pin, GPIOA, GPIOB);
      var _ := Write(regAddr, gpio);
    }

    method DigitalRead(pin: bv8) returns (r: bv8)
      requires Valid()
      ensures r == 0 || r == 1
      ensures r == 1 <==> Bit8(regs[PortRegister(pin, GPIOA, GPIOB)], pin % 8)
      ensures pin < 16 ==> (r == 1 <==> Bit16(ReadPorts(), pin))
    {
      var bit := pin % 8;
      var regAddr := PortRegister(pin, GPIOA, GPIOB);
      var v := Read(regAddr);
      r := (v >> bit) & 0x1;
      PortWordBits(regs[GPIOA], regs[GPIOB], bit);
    }

    /** The direction bit of the pin becomes 1 (input) iff mode is INPUT. */
    method PinMode(pin: bv8, mode: bv8)
      requires Valid()
      modifies regs
      ensures regs[..] == WithBit(old(regs[..]), pin, mode == INPUT, IODIRA, IODIRB)
    {
      UpdateRegisterBit(pin, if mode == INPUT then 1 else 0, IODIRA, IODIRB);
    }

    /** The pull-up bit of the pin becomes set iff d is nonzero. */
    method PullUp(p: bv8, d: bv8)
      requires Valid()
      modifies regs
      ensures regs[..] == WithBit(old(regs[..]), p, d != 0, GPPUA, GPPUB)
    {
      UpdateRegisterBit(p, d, GPPUA, GPPUB);
    }

    /** Writes MIRROR, ODR and INTPOL of the configuration register through
        IOCONA and then again through IOCONB. The second read sees the first
        write, so both addresses end with IoconWith of the old IOCONA byte. */
    method SetupInterrupts(mirrorIntPin: bv8, openDrain: bv8, polarity: bv8)
      requires Valid()
      modifies regs
      ensures regs[..] == old(regs[..])
                [IOCONA := IoconWith(old(regs[IOCONA]), mirrorIntPin != 0, openDrain != 0, polarity != 0)]
                [IOCONB := IoconWith(old(regs[IOCONA]), mirrorIntPin != 0, openDrain != 0, polarity != 0)]
    {
      var ioconfValue := Read(IOCONA);
      ioconfValue := BitWrite(ioconfValue, 6, mirrorIntPin != 0);
      ioconfValue := BitWrite(ioconfValue, 2, openDrain != 0);
      ioconfValue := BitWrite(ioconfValue, 1, polarity != 0);
      var _ := Write(IOCONA, ioconfValue);

      IoconWithTwice(old(regs[IOCONA]), mirrorIntPin != 0, openDrain != 0, polarity != 0);
      ioconfValue := Read(IOCONB);
      ioconfValue := BitWrite(ioconfValue, 6, mirrorIntPin != 0);
      ioconfValue := BitWrite(ioconfValue, 2, openDrain != 0);
      ioconfValue := BitWrite(ioconfValue, 1, polarity != 0);
      var _ := Write(IOCONB, ioconfValue);
    }

    /** Enables the pin's interrupt: compare against DEFVAL unless mode is CHANGE,
        a default of 1 iff mode is FALLING, and the enable bit set. */
    method SetupInterruptPin(pin: bv8, mode: bv8)
      requires Valid()
      modifies regs
      ensures regs[..] ==
                WithBit(WithBit(WithBit(old(regs[..]), pin, mode != CHANGE, INTCONA, INTCONB),
                                pin, mode == FALLING, DEFVALA, DEFVALB),
                        pin, true, GPINTENA, GPINTENB)
    {
      UpdateRegisterBit(pin, if mode != CHANGE then 1 else 0, INTCONA, INTCONB);
      UpdateRegisterBit(pin, if mode == FALLING then 1 else 0, DEFVALA, DEFVALB);
      UpdateRegisterBit(pin, HIGH, GPINTENA, GPINTENB);
    }

    method GetLastInterruptPin() returns (pin: bv8)
      requires Valid()
      ensures pin == FirstInterruptPin(regs[INTFA], regs[INTFB])
    {
      var intf := Read(INTFA);
      var i: bv8 := 0;
      while i < 8
        invariant i <= 8
        invariant forall j: bv8 :: j < i ==> !Bit8(intf, j)
        decreases 8 - i
      {
        if Bit8(intf, i) {
          return i;
        }
        i := i + 1;
      }
      ZeroIffNoBit(intf);

      intf := Read(INTFB);
      i := 0;
      while i < 8
        invariant i <= 8
        invariant forall j: bv8 :: j < i ==> !Bit8(intf, j)
        decreases 8 - i
      {
        if Bit8(intf, i) {
          return i + 8;
        }
        i := i + 1;
      }
      ZeroIffNoBit(intf);
      return INT_ERR;
    }

    /** The captured level of the pin getLastInterruptPin reports, or INT_ERR. */
    method GetLastInterruptPinValue() returns (v: bv8)
      requires Valid()
      ensures v == INT_ERR <==> regs[INTFA] == 0 && regs[INTFB] == 0
      ensures v != INT_ERR ==>
                var pin := FirstInterruptPin(regs[INTFA], regs[INTFB]);
                v == if Bit8(regs[PortRegister(pin, INTCAPA, INTCAPB)], pin % 8) then 1 else 0
    {
      var intPin := GetLastInterruptPin();
      if intPin != INT_ERR {
        var intcapreg := PortRegister(intPin, INTCAPA, INTCAPB);
        var bit := intPin % 8;
        var cap := Read(intcapreg);
        return (cap >> bit) & 0x01;
      }
      return INT_ERR;
    }

    /** Registers f with the default watch mask 0xFF (pins 0-7). */
    method RegisterChangeCallback(f: Option<HandlerId>) returns (ok: bool)
      requires Valid()
      modifies this`prevPorts, this`callbackPortMask, cb
      ensures prevPorts == ReadPorts() && callbackPortMask == 0xFF
      ensures cb.chngFn == f && cb.calls == old(cb.calls) && ok
    {
      ok := RegisterChangeCallbackWithMask(f, 0xFF);
    }

    /** Takes the current ports as the baseline, then stores the mask and f. */
    method RegisterChangeCallbackWithMask(f: Option<HandlerId>, portMask: bv16) returns (ok: bool)
      requires Valid()
      modifies this`prevPorts, this`callbackPortMask, cb
      ensures prevPorts == ReadPorts() && callbackPortMask == portMask
      ensures cb.chngFn == f && cb.calls == old(cb.calls) && ok
    {
      prevPorts := ReadPorts();
      callbackPortMask := portMask;
      ok := cb.RegisterChangeCallback(f);
    }

    /** One pass of update()'s loop: pin i's handler call is made iff its masked
        bit differs between the snapshot and the previous one. */
    method NotifyIfChanged(ports: bv16, prev: bv16, mask: bv16, i: bv8)
      requires i < 16
      modifies cb`calls
      ensures cb.calls == old(cb.calls) +
                if Changed(ports, prev, mask, i) && cb.chngFn.Some?
                then [ChangeCall(cb.chngFn.value, ports, i, !Bit16(ports, i))] else []
    {
      ChangeTest(ports, prev, mask, i);
      MaskTest16(ports, i);
      if ((ports & mask) & (1 << i)) ^ ((prev & mask) & (1 << i)) != 0 {
        cb.Change(ports, i, !(ports & (1 << i) != 0));
      }
    }

    /** Edge detector: one handler call per watched pin whose level changed since
        the previous snapshot, in ascending pin order; then the snapshot becomes
        the new baseline. */
    method Update()
      requires Valid()
      modifies this`prevPorts, cb
      ensures prevPorts == ReadPorts()
      ensures cb.chngFn == old(cb.chngFn)
      ensures cb.calls == old(cb.calls) +
                Notifications(old(cb.chngFn), ReadPorts(), ChangedPins(ReadPorts(), old(prevPorts), callbackPortMask))
    {
      var ports := ReadPorts();
      if ports ^ prevPorts != 0 {
        var i: bv8 := 0;
        while i < 16
          invariant i <= 16
          invariant prevPorts == old(prevPorts) && cb.chngFn == old(cb.chngFn)
          invariant cb.calls == old(cb.calls) +
                      Notifications(cb.chngFn, ports, ChangedBelow(ports, prevPorts, callbackPortMask, i))
          decreases 16 - i
        {
          NotificationsStep(cb.chngFn, ports, prevPorts, callbackPortMask, i);
          NotifyIfChanged(ports, prevPorts, callbackPortMask, i);
          i := i + 1;
        }
      } else {
        RepeatedSnapshotIsSilent(ports, callbackPortMask);
      }
      prevPorts := ports;
    }
  }
}
