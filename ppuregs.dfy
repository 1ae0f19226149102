/** The bit-field overlays of ppu.h: PPUSTATUS, PPUMASK and PPUCTRL are bytes
    read and written one bit at a time, the "loopy" scroll register is a
    16-bit word of five packed fields, and OAM is 64 four-byte entries. */
module PpuRegs {
  import opened Bits

  // ---------------------------------------------------------- byte registers

  /** `1 << pos` for a bit of a byte, as a table. */
  function BitMask(pos: nat): (m: bv8)
    requires pos < 8
  {
    if pos == 0 then 0x01 else if pos == 1 then 0x02 else if pos == 2 then 0x04
    else if pos == 3 then 0x08 else if pos == 4 then 0x10 else if pos == 5 then 0x20
    else if pos == 6 then 0x40 else 0x80
  }

  lemma {:induction false} BitMaskIsShift(pos: nat)
    requires pos < 8
    ensures BitMask(pos) == 1 << pos
  {
  }

  /** Bit `pos` of an 8-bit register, as a one-bit field of the union reads it. */
  predicate Flag(r: bv8, pos: nat)
    requires pos < 8
  {
    r & BitMask(pos) != 0
  }

  /** Assigning a one-bit field: only bit `pos` changes. */
  function WithFlag(r: bv8, pos: nat, b: bool): (s: bv8)
    requires pos < 8
    ensures Flag(s, pos) == b
    ensures forall q: nat :: q < 8 && q != pos ==> Flag(s, q) == Flag(r, q)
  {
    var s := if b then r | BitMask(pos) else r & !BitMask(pos);
    OtherFlagsKept(r, pos, s);
    s
  }

  /** Setting or clearing bit `pos` leaves every other bit as it was. */
  lemma {:induction false} OtherFlagsKept(r: bv8, pos: nat, s: bv8)
    requires pos < 8 && (s == r | BitMask(pos) || s == r & !BitMask(pos))
    ensures forall q: nat :: q < 8 && q != pos ==> Flag(s, q) == Flag(r, q)
  {
    forall q: nat | q < 8 && q != pos
      ensures Flag(s, q) == Flag(r, q)
    {
      MasksDisjoint(pos, q);
      MaskedOutside(r, BitMask(pos), BitMask(q));
    }
  }

  lemma {:induction false} MasksDisjoint(p: nat, q: nat)
    requires p < 8 && q < 8 && p != q
    ensures BitMask(p) & BitMask(q) == 0
  {
  }

  lemma {:induction false} MaskedOutside(r: bv8, m: bv8, n: bv8)
    requires m & n == 0
    ensures (r | m) & n == r & n && (r & !m) & n == r & n
  {
  }

  /** PPUSTATUS: bits 0-4 unused. */
  const SpriteOverflow: nat := 5
  const SpriteZeroHit: nat := 6
  const VerticalBlank: nat := 7

  /** PPUMASK */
  const Grayscale: nat := 0
  const RenderBackgroundLeft: nat := 1
  const RenderSpritesLeft: nat := 2
  const RenderBackground: nat := 3
  const RenderSprites: nat := 4

  /** PPUCTRL; bit 6 (slave mode) is unused. */
  const CtrlNametableX: nat := 0
  const CtrlNametableY: nat := 1
  const IncrementMode: nat := 2
  const PatternSprite: nat := 3
  const PatternBackground: nat := 4
  const SpriteSize: nat := 5
  const EnableNmi: nat := 7

  /** Bits 5, 6 and 7 of PPUSTATUS are its three flags. */
  lemma {:induction false} StatusFlagsAreTopBits(r: bv8)
    ensures Flag(r, SpriteOverflow) <==> r & 0x20 != 0
    ensures Flag(r, SpriteZeroHit) <==> r & 0x40 != 0
    ensures Flag(r, VerticalBlank) <==> r & 0x80 != 0
    ensures r & 0xE0 == (if Flag(r, SpriteOverflow) then 0x20 else 0)
                      | (if Flag(r, SpriteZeroHit) then 0x40 else 0)
                      | (if Flag(r, VerticalBlank) then 0x80 else 0)
  {
  }

  // ---------------------------------------------------------- loopy register

  /** The fields of `loopy_register`, low bit first; bit 15 is unused. */
  datatype Field = CoarseX | CoarseY | NametableX | NametableY | FineY

  function Low(f: Field): (n: nat)
    ensures n < 15
  {
    match f
    case CoarseX => 0
    case CoarseY => 5
    case NametableX => 10
    case NametableY => 11
    case FineY => 12
  }

  /** The largest value of a field: 5, 5, 1, 1 and 3 bits wide. */
  function Max(f: Field): bv16
  {
    match f
    case CoarseX => 0x1F
    case CoarseY => 0x1F
    case NametableX => 1
    case NametableY => 1
    case FineY => 7
  }

  /** Reading a field. */
  function Get(r: bv16, f: Field): (v: bv16)
    ensures v <= Max(f)
  {
    match f
    case CoarseX => r & 0x1F
    case CoarseY => (r >> 5) & 0x1F
    case NametableX => (r >> 10) & 1
    case NametableY => (r >> 11) & 1
    case FineY => (r >> 12) & 7
  }

  /** Assigning a field: the other fields and bit 15 keep their values. */
  function Set(r: bv16, f: Field, v: bv16): (s: bv16)
    requires v <= Max(f)
    ensures Get(s, f) == v
    ensures Get(s, CoarseX) == Get(r, CoarseX) || f == CoarseX
    ensures Get(s, CoarseY) == Get(r, CoarseY) || f == CoarseY
    ensures Get(s, NametableX) == Get(r, NametableX) || f == NametableX
    ensures Get(s, NametableY) == Get(r, NametableY) || f == NametableY
    ensures Get(s, FineY) == Get(r, FineY) || f == FineY
    ensures s & 0x8000 == r & 0x8000
  {
    match f
    case CoarseX => var s := (r & !0x001F) | v; SetCoarseX(r, v, s); s
    case CoarseY => var s := (r & !0x03E0) | (v << 5); SetCoarseY(r, v, s); s
    case NametableX => var s := (r & !0x0400) | (v << 10); SetNametableX(r, v, s); s
    case NametableY => var s := (r & !0x0800) | (v << 11); SetNametableY(r, v, s); s
    case FineY => var s := (r & !0x7000) | (v << 12); SetFineY(r, v, s); s
  }

  lemma {:induction false} SetCoarseX(r: bv16, v: bv16, s: bv16)
    requires v <= 0x1F && s == (r & !0x001F) | v
    ensures Get(s, CoarseX) == v
    ensures Get(s, CoarseY) == Get(r, CoarseY)
    ensures Get(s, NametableX) == Get(r, NametableX)
    ensures Get(s, NametableY) == Get(r, NametableY)
    ensures Get(s, FineY) == Get(r, FineY)
    ensures s & 0x8000 == r & 0x8000
  {
  }

  lemma {:induction false} SetCoarseY(r: bv16, v: bv16, s: bv16)
    requires v <= 0x1F && s == (r & !0x03E0) | (v << 5)
    ensures Get(s, CoarseY) == v
    ensures Get(s, CoarseX) == Get(r, CoarseX)
    ensures Get(s, NametableX) == Get(r, NametableX)
    ensures Get(s, NametableY) == Get(r, NametableY)
    ensures Get(s, FineY) == Get(r, FineY)
    ensures s & 0x8000 == r & 0x8000
  {
  }

  lemma {:induction false} SetNametableX(r: bv16, v: bv16, s: bv16)
    requires v <= 1 && s == (r & !0x0400) | (v << 10)
    ensures Get(s, NametableX) == v
    ensures Get(s, CoarseX) == Get(r, CoarseX)
    ensures Get(s, CoarseY) == Get(r, CoarseY)
    ensures Get(s, NametableY) == Get(r, NametableY)
    ensures Get(s, FineY) == Get(r, FineY)
    ensures s & 0x8000 == r & 0x8000
  {
  }

  lemma {:induction false} SetNametableY(r: bv16, v: bv16, s: bv16)
    requires v <= 1 && s == (r & !0x0800) | (v << 11)
    ensures Get(s, NametableY) == v
    ensures Get(s, CoarseX) == Get(r, CoarseX)
    ensures Get(s, CoarseY) == Get(r, CoarseY)
    ensures Get(s, NametableX) == Get(r, NametableX)
    ensures Get(s, FineY) == Get(r, FineY)
    ensures s & 0x8000 == r & 0x8000
  {
  }

  lemma {:induction false} SetFineY(r: bv16, v: bv16, s: bv16)
    requires v <= 7 && s == (r & !0x7000) | (v << 12)
    ensures Get(s, FineY) == v
    ensures Get(s, CoarseX) == Get(r, CoarseX)
    ensures Get(s, CoarseY) == Get(r, CoarseY)
    ensures Get(s, NametableX) == Get(r, NametableX)
    ensures Get(s, NametableY) == Get(r, NametableY)
    ensures s & 0x8000 == r & 0x8000
  {
  }

  /** The five fields and bit 15 determine the register. */
  lemma {:induction false} FieldsDetermineRegister(r: bv16, s: bv16)
    requires forall f: Field :: Get(r, f) == Get(s, f)
    requires r & 0x8000 == s & 0x8000
    ensures r == s
  {
    assert Get(r, CoarseX) == Get(s, CoarseX) && Get(r, CoarseY) == Get(s, CoarseY);
    assert Get(r, NametableX) == Get(s, NametableX) && Get(r, NametableY) == Get(s, NametableY);
    assert Get(r, FineY) == Get(s, FineY);
  }

  /** The register as the packed word: coarse X in bits 0-4, coarse Y in 5-9,
      the nametable bits in 10 and 11, fine Y in 12-14. */
  lemma {:induction false} LoopyLayout(r: bv16)
    ensures r == (r & 0x8000) | Get(r, CoarseX) | (Get(r, CoarseY) << 5)
                 | (Get(r, NametableX) << 10) | (Get(r, NametableY) << 11) | (Get(r, FineY) << 12)
  {
  }

  // ---------------------------------------------------------- OAM

  /** `sObjectAttributeEntry` */
  datatype Sprite = Sprite(y: byte, id: byte, attribute: byte, x: byte)

  /** The cleared entry the sprite line is filled with (`memset 0xFF`). */
  const Blank: Sprite := Sprite(0xFF, 0xFF, 0xFF, 0xFF)

  /** Entry `i` of OAM seen through `pOAM` as 256 bytes: four bytes per entry
      in the order y, id, attribute, x. */
  function Entry(oam: seq<byte>, i: nat): (s: Sprite)
    requires |oam| == 256 && i < 64
    ensures s.y == oam[4 * i] && s.id == oam[4 * i + 1]
    ensures s.attribute == oam[4 * i + 2] && s.x == oam[4 * i + 3]
  {
    Sprite(oam[4 * i], oam[4 * i + 1], oam[4 * i + 2], oam[4 * i + 3])
  }

  /** Byte `k` of `pOAM` is field `k % 4` of entry `k / 4`. */
  lemma {:induction false} OamByteView(oam: seq<byte>, k: nat)
    requires |oam| == 256 && k < 256
    ensures var e := Entry(oam, k / 4);
            oam[k] == match k % 4 case 0 => e.y case 1 => e.id case 2 => e.attribute case _ => e.x
  {
    var i := k / 4;
    assert k == 4 * i + k % 4;
  }
}
