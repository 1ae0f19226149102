/** Unsigned machine integers of the emulator, as bounded mathematical integers.
    `quint8` values are `byte`s and `quint16` values are `word`s; a C++ assignment
    into one of them is written out as `% 256` or `% 0x10000`. */
module Bits {
  type byte = x: int | 0 <= x < 0x100
  type word = x: int | 0 <= x < 0x1_0000

  /** The word stored little-endian as `lo`, `hi` (`quint16(hi << 8) + lo`). */
  function Word(hi: byte, lo: byte): (w: word)
    ensures Hi(w) == hi && Lo(w) == lo
  {
    hi * 0x100 + lo
  }

  /** `w >> 8` */
  function Hi(w: word): byte { w / 0x100 }

  /** `w & 0xFF` */
  function Lo(w: word): byte { w % 0x100 }

  lemma {:induction false} WordOfHalves(w: word)
    ensures Word(Hi(w), Lo(w)) == w
  {
  }

  /** Page of an address: what `addr & 0xFF00` compares, divided by 0x100. */
  function Page(w: word): byte { w / 0x100 }

  /** Bit 7 of a non-negative value, as `x & 0x80` tests it. */
  predicate Bit7(x: int)
    requires x >= 0
  {
    x / 0x80 % 2 == 1
  }

  /** The value of a `quint8` read as a two's complement signed byte. */
  function Signed(b: byte): (s: int)
    ensures -0x80 <= s < 0x80
    ensures s % 0x100 == b
    ensures s < 0 <==> Bit7(b)
  {
    if b < 0x80 then b else b - 0x100
  }

  /** Wrap-around addition into a `quint16`. */
  function AddW(a: word, d: int): (r: word)
    ensures (r - a - d) % 0x1_0000 == 0
  {
    (a + d) % 0x1_0000
  }

  /** Wrap-around addition into a `quint8`. */
  function AddB(a: byte, d: int): (r: byte)
    ensures (r - a - d) % 0x100 == 0
  {
    (a + d) % 0x100
  }

  /** One more step after a wrap-around addition of `d` is an addition of
      `d + 1`: `sp` pulled twice or three times. */
  lemma {:induction false} AddBNext(a: byte, d: nat)
    requires d < 0xFF
    ensures AddB(AddB(a, d), 1) == AddB(a, d + 1)
  {
    if a + d < 0xFF {
      assert AddB(a, d) == a + d && AddB(a, d + 1) == a + d + 1;
    } else if a + d == 0xFF {
      assert AddB(a, d) == 0xFF && AddB(a, d + 1) == 0;
    } else {
      assert AddB(a, d) == a + d - 0x100 && AddB(a, d + 1) == a + d + 1 - 0x100;
    }
  }

  /** 2 to the power `n`: `1 << n`. */
  function Pow2(n: nat): (p: nat)
    ensures p >= 1
  {
    if n == 0 then 1 else 2 * Pow2(n - 1)
  }

  /** A value that may be missing. */
  datatype Option<T> = None | Some(value: T)
}
