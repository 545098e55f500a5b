/** Optional values: the model's stand-in for a nullable function pointer. */
module Optional {
  datatype Option<+T> = None | Some(value: T)
}

/** Bit access on the byte and word registers the drivers manipulate, after
    Arduino's bitRead/bitWrite macros. Bit positions are bytes themselves, as the
    drivers' uint8_t pin and bit numbers are. */
module Bits {
  /** An unsigned 8-bit integer used as a number (register addresses, counts). */
  type uint8 = x: int | 0 <= x < 256

  /** bitRead(x, i) on a byte. */
  predicate Bit8(x: bv8, i: bv8)
    requires i < 8
  {
    (x >> i) & 1 == 1
  }

  /** bitRead(x, i) on a 16-bit word. */
  predicate Bit16(x: bv16, i: bv8)
    requires i < 16
  {
    (x >> i) & 1 == 1
  }

  /** bitWrite(x, n, v): bit n becomes v, every other bit is kept. */
  function BitWrite(x: bv8, n: bv8, v: bool): (r: bv8)
    requires n < 8
    ensures Bit8(r, n) == v
    ensures r & !(1 << n) == x & !(1 << n)
  {
    if v then x | (1 << n) else x & !(1 << n)
  }

  /** bitWrite leaves every bit other than n as it was. */
  lemma BitWriteKeepsOthers(x: bv8, n: bv8, v: bool, j: bv8)
    requires n < 8 && j < 8 && j != n
    ensures Bit8(BitWrite(x, n, v), j) == Bit8(x, j)
  {
  }

  /** Testing x & (1 << i) against zero is bitRead on a word. */
  lemma MaskTest16(x: bv16, i: bv8)
    requires i < 16
    ensures (x & (1 << i) != 0) == Bit16(x, i)
  {
  }

  /** A byte is zero exactly when none of its bits is set. */
  lemma ZeroIffNoBit(x: bv8)
    ensures x == 0 <==> forall j: bv8 :: j < 8 ==> !Bit8(x, j)
  {
    if x != 0 {
      assert Bit8(x, 0) || Bit8(x, 1) || Bit8(x, 2) || Bit8(x, 3) ||
             Bit8(x, 4) || Bit8(x, 5) || Bit8(x, 6) || Bit8(x, 7);
    }
  }
}
