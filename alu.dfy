/** The arithmetic of the 6502 operations in cpu.cpp: what each operation
    computes from its operands, before the CPU writes the flags. */
module Alu {
  import opened Bits

  function CarryIn(c: bool): nat { if c then 1 else 0 }

  /** Result byte and the carry/overflow flags of an addition or subtraction. */
  datatype Sum = Sum(value: byte, carry: bool, overflow: bool)

  /** ADC: `sum = a + m + c` in a `quint16`, C = `sum >= 256`,
      V = `(a ^ sum) & (m ^ sum) & 0x80`, result = `sum & 0xFF`. */
  function Adc(a: byte, m: byte, c: bool): (r: Sum)
    ensures r.value == (a + m + CarryIn(c)) % 0x100
    ensures r.carry <==> a + m + CarryIn(c) >= 0x100
    ensures r.overflow <==> !(-0x80 <= Signed(a) + Signed(m) + CarryIn(c) < 0x80)
    ensures !r.overflow ==> Signed(r.value) == Signed(a) + Signed(m) + CarryIn(c)
  {
    var sum := a + m + CarryIn(c);
    Bit7OfLowByte(sum);
    SignedSum(a, m, CarryIn(c), sum % 0x100);
    Sum(sum % 0x100, sum >= 0x100, Bit7(a) != Bit7(sum) && Bit7(m) != Bit7(sum))
  }

  /** SBC: `sub = a - m - !c` in a `quint16`, C = `!(sub & 0x100)`,
      V = `(a ^ sub) & (~m ^ sub) & 0x80`, result = `sub & 0xFF`. */
  function Sbc(a: byte, m: byte, c: bool): (r: Sum)
    ensures r.value == (a - m - 1 + CarryIn(c)) % 0x100
    ensures r.carry <==> a - m - 1 + CarryIn(c) >= 0
    ensures r.overflow <==> !(-0x80 <= Signed(a) - Signed(m) - 1 + CarryIn(c) < 0x80)
    ensures !r.overflow ==> Signed(r.value) == Signed(a) - Signed(m) - 1 + CarryIn(c)
  {
    var sub := (a - m - (1 - CarryIn(c))) % 0x1_0000;
    Bit7OfLowByte(sub);
    LowByteOfWrapped(a - m - 1 + CarryIn(c));
    BorrowBit(a - m - 1 + CarryIn(c));
    Complement(m);
    SignedSum(a, 0xFF - m, CarryIn(c), sub % 0x100);
    // bit 7 of the int `~m` is the complement of bit 7 of m
    Sum(sub % 0x100, sub / 0x100 % 2 == 0, Bit7(a) != Bit7(sub) && !Bit7(m) != Bit7(sub))
  }

  /** Bit 7 of a 16-bit value is bit 7 of its low byte. */
  lemma {:induction false} Bit7OfLowByte(x: int)
    requires 0 <= x < 0x1_0000
    ensures Bit7(x) == Bit7(x % 0x100)
  {
    var q, r := x / 0x100, x % 0x100;
    assert x == 0x100 * q + r;
    assert x / 0x80 == 2 * q + r / 0x80;
  }

  /** Keeping 16 bits and then 8 keeps 8; a difference is a sum with the
      complement, modulo 256. */
  lemma {:induction false} LowByteOfWrapped(d: int)
    requires -0x100 <= d < 0x100
    ensures d % 0x1_0000 % 0x100 == d % 0x100 == (d + 0x100) % 0x100
  {
    if d >= 0 {
      assert d % 0x1_0000 == d && d % 0x100 == d;
      assert (d + 0x100) % 0x100 == d;
    } else {
      assert d % 0x1_0000 == d + 0x1_0000;
      assert (d + 0x1_0000) % 0x100 == d + 0x100;
      assert d % 0x100 == d + 0x100;
      assert (d + 0x100) % 0x100 == d + 0x100;
    }
  }

  /** Bit 8 of a byte difference kept to 16 bits is set exactly when the
      difference is negative. */
  lemma {:induction false} BorrowBit(d: int)
    requires -0x100 <= d < 0x100
    ensures d % 0x1_0000 / 0x100 % 2 == 0 <==> d >= 0
  {
    if d < 0 {
      assert d % 0x1_0000 == d + 0x1_0000;
      assert (d + 0x1_0000) / 0x100 == 0xFF;
    } else {
      assert d % 0x1_0000 == d;
    }
  }

  /** The one's complement of a byte flips bit 7 and negates the signed
      value minus one. */
  lemma {:induction false} Complement(m: byte)
    ensures Bit7(0xFF - m) == !Bit7(m) && Signed(0xFF - m) == -1 - Signed(m)
  {
  }

  /** The overflow rule of an 8-bit addition: the result's bit 7 differs from
      both operands' exactly when the signed sum leaves -128..127, and
      otherwise the result read as signed is the signed sum. */
  lemma {:induction false} SignedSum(a: byte, b: byte, ci: nat, low: byte)
    requires ci <= 1 && low == (a + b + ci) % 0x100
    ensures (Bit7(a) != Bit7(low) && Bit7(b) != Bit7(low)) <==> !(-0x80 <= Signed(a) + Signed(b) + ci < 0x80)
    ensures -0x80 <= Signed(a) + Signed(b) + ci < 0x80 ==> Signed(low) == Signed(a) + Signed(b) + ci
  {
    var s := a + b + ci;
    if s >= 0x100 {
      assert low == s - 0x100;
    } else {
      assert low == s;
    }
  }

  /** Subtraction with carry is addition of the one's complement. */
  lemma {:induction false} SbcIsAdcOfComplement(a: byte, m: byte, c: bool)
    ensures Sbc(a, m, c) == Adc(a, 0xFF - m, c)
  {
    LowByteOfWrapped(a - m - 1 + CarryIn(c));
    Complement(m);
  }

  /** Flags of CMP, CPX and CPY: `temp = r - m` in a `quint16`, C = `r >= m`,
      Z = `(temp & 0xFF) == 0`, N = `temp & 0x80`. */
  datatype Compared = Compared(carry: bool, zero: bool, negative: bool)

  function Compare(r: byte, m: byte): (f: Compared)
    ensures f.zero <==> r == m
    ensures f.carry <==> r >= m
    ensures f.negative <==> Bit7((r - m) % 0x100)
  {
    var temp := (r - m) % 0x1_0000;
    Bit7OfLowByte(temp);
    LowByteOfWrapped(r - m);
    Compared(r >= m, temp % 0x100 == 0, Bit7(temp))
  }

  /** Result byte and carry out of a shift or rotate. */
  datatype Shifted = Shifted(value: byte, carry: bool)

  /** ASL: `temp = v << 1`, C = `temp >= 0x100`. */
  function Asl(v: byte): (r: Shifted)
    ensures r.value == 2 * v % 0x100
    ensures r.carry <==> Bit7(v)
  {
    var temp := 2 * v;
    Shifted(temp % 0x100, temp >= 0x100)
  }

  /** LSR: `temp = v >> 1`, C = `v & 1`. */
  function Lsr(v: byte): (r: Shifted)
    ensures 2 * r.value + CarryIn(r.carry) == v
    ensures !Bit7(r.value)
  {
    Shifted(v / 2, v % 2 == 1)
  }

  /** ROL: `temp = (v << 1) | c`, C = `temp >= 0x100`. */
  function Rol(v: byte, c: bool): (r: Shifted)
    ensures 2 * v + CarryIn(c) == 0x100 * CarryIn(r.carry) + r.value
  {
    var temp := 2 * v + CarryIn(c);
    Shifted(temp % 0x100, temp >= 0x100)
  }

  /** ROR: `temp = (v >> 1) | (c << 7)`, C = `v & 1`. */
  function Ror(v: byte, c: bool): (r: Shifted)
    ensures v + 0x100 * CarryIn(c) == 2 * r.value + CarryIn(r.carry)
  {
    Shifted(v / 2 + 0x80 * CarryIn(c), v % 2 == 1)
  }

  /** A rotate right undoes a rotate left through the carry, and vice versa. */
  lemma {:induction false} RotatesAreInverse(v: byte, c: bool)
    ensures Ror(Rol(v, c).value, Rol(v, c).carry) == Shifted(v, c)
    ensures Rol(Ror(v, c).value, Ror(v, c).carry) == Shifted(v, c)
  {
  }

  /** INC, INX, INY: `quint8` increment. */
  function Inc(v: byte): (r: byte)
    ensures v < 0xFF ==> r == v + 1
    ensures v == 0xFF ==> r == 0
  {
    (v + 1) % 0x100
  }

  /** DEC, DEX, DEY: `quint8` decrement (a `quint16` result masked by 0xFF in DEC). */
  function Dec(v: byte): (r: byte)
    ensures v > 0 ==> r == v - 1
    ensures v == 0 ==> r == 0xFF
  {
    (v - 1) % 0x100
  }

  lemma {:induction false} IncDecInverse(v: byte)
    ensures Dec(Inc(v)) == v && Inc(Dec(v)) == v
  {
  }

  /** AND, ORA and EOR compute the C bitwise operators on the bytes. */
  function And(a: byte, m: byte): byte
  {
    ((a as bv8) & (m as bv8)) as int
  }

  function Or(a: byte, m: byte): byte
  {
    ((a as bv8) | (m as bv8)) as int
  }

  function Xor(a: byte, m: byte): byte
  {
    ((a as bv8) ^ (m as bv8)) as int
  }
}
