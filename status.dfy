/** The 6502 processor status word (`PSW` in cpu.h): one byte whose bits are
    the flags C, Z, I, D, B, U, V, N from bit 0 to bit 7. */
module Status {
  datatype Flag = C | Z | I | D | B | U | V | N

  /** Bit position of each flag in the status byte. */
  function Pos(f: Flag): (k: nat)
    ensures k < 8
  {
    match f
    case C => 0
    case Z => 1
    case I => 2
    case D => 3
    case B => 4
    case U => 5
    case V => 6
    case N => 7
  }

  /** `StatusFlag` value of a flag (`1 << position`). */
  function Mask(f: Flag): (m: bv8)
  {
    match f
    case C => 0x01
    case Z => 0x02
    case I => 0x04
    case D => 0x08
    case B => 0x10
    case U => 0x20
    case V => 0x40
    case N => 0x80
  }

  lemma {:induction false} MaskIsBitPosition(f: Flag)
    ensures Mask(f) == 1 << Pos(f)
  {
    match f
    case C =>
    case Z =>
    case I =>
    case D =>
    case B =>
    case U =>
    case V =>
    case N =>
  }

  lemma {:induction false} MasksDistinct(f: Flag, g: Flag)
    ensures f != g <==> Mask(f) & Mask(g) == 0
  {
  }

  datatype Psw = Psw(data: bv8)
  {
    /** `get_x()`: whether the flag's bit is set. */
    predicate Get(f: Flag)
    {
      data & Mask(f) != 0
    }

    /** `set_x(b)`: OR the flag's bit in, or AND with its complement. */
    function Set(f: Flag, b: bool): (r: Psw)
      ensures r.Get(f) == b
      ensures r.data & !Mask(f) == data & !Mask(f)
      ensures forall g: Flag :: g != f ==> r.Get(g) == Get(g)
    {
      if b then Psw(data | Mask(f)) else Psw(data & !Mask(f))
    }
  }

  /** The eight flags cover the whole byte: two status words that agree on
      every flag are the same word. */
  lemma {:induction false} PswExtensional(l: Psw, r: Psw)
    requires forall f: Flag :: l.Get(f) == r.Get(f)
    ensures l == r
  {
    assert l.Get(C) == r.Get(C) && l.Get(Z) == r.Get(Z) && l.Get(I) == r.Get(I)
        && l.Get(D) == r.Get(D) && l.Get(B) == r.Get(B) && l.Get(U) == r.Get(U)
        && l.Get(V) == r.Get(V) && l.Get(N) == r.Get(N);
  }

  /** A freshly constructed status word: only U is set. */
  const Fresh: Psw := Psw(0x20)

  lemma {:induction false} FreshHoldsOnlyU(f: Flag)
    ensures Fresh.Get(f) <==> f == U
  {
  }
}
