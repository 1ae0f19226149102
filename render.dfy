/** The pure rules of ppu.cpp: how a PPU address reaches a nametable or a
    palette entry, how the loopy scroll register steps through the screen,
    which OAM entries a scanline selects, how a sprite row is found in the
    pattern table, which pixel wins, and how the beam position advances. */
module Render {
  import opened Bits
  import opened PpuRegs
  import Mappers

  // ---------------------------------------------------------- address map

  /** The cell of the 2 KB nametable memory (`tblName[t][i]` is cell
      `0x400 * t + i`) that a 12-bit nametable offset reaches under a mirroring
      mode. A mirroring byte that is not a `MirrorMode` reaches none. */
  function NametableSlot(mirror: byte, a: nat): (r: Option<nat>)
    requires a < 0x1000
    ensures mirror == Mappers.Horizontal ==> r == Some((a / 0x800) * 0x400 + a % 0x400)
    ensures mirror == Mappers.Vertical ==> r == Some((a / 0x400 % 2) * 0x400 + a % 0x400)
    ensures mirror == Mappers.OneScreenLo ==> r == Some(a % 0x400)
    ensures mirror == Mappers.OneScreenHi ==> r == Some(0x400 + a % 0x400)
    ensures r.None? <==> !MirrorMode(mirror)
    ensures r.Some? ==> r.value < 0x800
  {
    var quadrant := a / 0x400;
    var table :=
      if mirror == Mappers.Horizontal then Some(if quadrant <= 1 then 0 else 1)
      else if mirror == Mappers.Vertical then Some(if quadrant == 0 || quadrant == 2 then 0 else 1)
      else if mirror == Mappers.OneScreenLo then Some(0)
      else if mirror == Mappers.OneScreenHi then Some(1)
      else None;
    if table.None? then None else Some(table.value * 0x400 + a % 0x400)
  }

  predicate MirrorMode(mirror: byte)
  {
    mirror in {Mappers.Horizontal, Mappers.Vertical, Mappers.OneScreenLo, Mappers.OneScreenHi}
  }

  /** Which of the four logical nametables share storage: horizontal
      mirroring pairs 0 with 1 and 2 with 3, vertical pairs 0 with 2 and 1
      with 3, one-screen modes fold all four together. */
  lemma {:induction false} MirroringShares(mirror: byte, a: nat, b: nat)
    requires a < 0x1000 && b < 0x1000 && MirrorMode(mirror)
    ensures mirror == Mappers.Horizontal ==>
              (NametableSlot(mirror, a) == NametableSlot(mirror, b) <==>
                 a / 0x800 == b / 0x800 && a % 0x400 == b % 0x400)
    ensures mirror == Mappers.Vertical ==>
              (NametableSlot(mirror, a) == NametableSlot(mirror, b) <==>
                 a / 0x400 % 2 == b / 0x400 % 2 && a % 0x400 == b % 0x400)
    ensures mirror == Mappers.OneScreenLo || mirror == Mappers.OneScreenHi ==>
              (NametableSlot(mirror, a) == NametableSlot(mirror, b) <==> a % 0x400 == b % 0x400)
  {
    var sa, sb := NametableSlot(mirror, a), NametableSlot(mirror, b);
    if sa == sb {
      assert sa.value / 0x400 == sb.value / 0x400 && sa.value % 0x400 == sb.value % 0x400;
    }
  }

  /** The palette entry a 5-bit palette offset reaches: the transparent entry
      of each sprite palette (0x10, 0x14, 0x18, 0x1C) is the matching
      background entry. */
  function PaletteSlot(a: nat): (r: nat)
    requires a < 32
    ensures r < 32
    ensures r == (if a >= 0x10 && a % 4 == 0 then a - 0x10 else a)
  {
    if a == 0x10 then 0x00
    else if a == 0x14 then 0x04
    else if a == 0x18 then 0x08
    else if a == 0x1C then 0x0C
    else a
  }

  /** Two palette offsets share an entry exactly when they are equal or are
      the same multiple of 4 in the two halves. */
  lemma {:induction false} PaletteAliasing(a: nat, b: nat)
    requires a < 32 && b < 32
    ensures PaletteSlot(a) == PaletteSlot(b) <==> a == b || (a % 4 == 0 && b % 4 == 0 && a % 0x10 == b % 0x10)
    ensures PaletteSlot(PaletteSlot(a)) == PaletteSlot(a)
  {
  }

  /** A palette byte as `ppuRead` returns it: six bits, or only the two
      luminance bits when PPUMASK asks for grayscale. */
  function Shade(v: byte, grayscale: bool): (r: byte)
    ensures r < 0x40 && r % 0x10 == (if grayscale then 0 else v % 0x10)
    ensures r / 0x10 == v / 0x10 % 4
  {
    ShadeParts(v);
    if grayscale then v % 0x40 / 0x10 * 0x10 else v % 0x40
  }

  /** The low six bits of a byte: its luminance pair above its hue nibble. */
  lemma {:induction false} ShadeParts(v: byte)
    ensures v % 0x40 == v / 0x10 % 4 * 0x10 + v % 0x10
    ensures v % 0x40 / 0x10 == v / 0x10 % 4
  {
    var q := v / 0x10;
    var m := v % 0x10;
    assert v == 0x10 * q + m && q < 0x10;
    var h := q / 4;
    var l := q % 4;
    assert q == 4 * h + l;
    assert v == 0x40 * h + (0x10 * l + m);
    assert 0 <= 0x10 * l + m < 0x40;
    assert v % 0x40 == 0x10 * l + m;
  }

  // ---------------------------------------------------------- scroll register

  /** The horizontal tile position, 0-63, across the two side-by-side
      nametables. */
  function TileColumn(v: bv16): (c: bv16)
    ensures c < 64
  {
    Get(v, NametableX) * 32 + Get(v, CoarseX)
  }

  /** `IncrementScrollX` when rendering: the next tile column, wrapping into
      the neighbouring nametable after column 31. */
  function ScrolledX(v: bv16): (r: bv16)
    ensures Get(r, CoarseX) == (Get(v, CoarseX) + 1) % 32
    ensures Get(r, NametableX) == if Get(v, CoarseX) == 31 then 1 - Get(v, NametableX) else Get(v, NametableX)
  {
    if Get(v, CoarseX) == 31 then Set(Set(v, CoarseX, 0), NametableX, 1 - Get(v, NametableX))
    else Set(v, CoarseX, Get(v, CoarseX) + 1)
  }

  /** Stepping X moves one column to the right, modulo the 64 columns of the
      two nametables, and leaves the vertical fields and bit 15 alone. */
  lemma {:induction false} ScrolledXAdvancesColumn(v: bv16)
    ensures TileColumn(ScrolledX(v)) == (TileColumn(v) + 1) % 64
    ensures var r := ScrolledX(v);
            Get(r, CoarseY) == Get(v, CoarseY) && Get(r, NametableY) == Get(v, NametableY)
            && Get(r, FineY) == Get(v, FineY) && r & 0x8000 == v & 0x8000
  {
  }

  /** `IncrementScrollY` when rendering: fine Y counts round the eight
      pixel rows of a tile, and coarse Y and nametable Y move only when it
      wraps. */
  function ScrolledY(v: bv16): (r: bv16)
    ensures Get(r, FineY) == if Get(v, FineY) < 7 then Get(v, FineY) + 1 else 0
    ensures Get(v, FineY) < 7 ==> Get(r, CoarseY) == Get(v, CoarseY) && Get(r, NametableY) == Get(v, NametableY)
  {
    if Get(v, FineY) < 7 then Set(v, FineY, Get(v, FineY) + 1)
    else
      var w := Set(v, FineY, 0);
      if Get(v, CoarseY) == 29 then Set(Set(w, CoarseY, 0), NametableY, 1 - Get(v, NametableY))
      else if Get(v, CoarseY) == 31 then Set(w, CoarseY, 0)
      else Set(w, CoarseY, Get(v, CoarseY) + 1)
  }

  /** The pixel row, 0-479, across the two stacked nametables, for a coarse Y
      inside the 30 rows of tiles. */
  function PixelRow(v: bv16): (y: bv16)
    requires Get(v, CoarseY) < 30
    ensures y < 480
  {
    (Get(v, NametableY) * 30 + Get(v, CoarseY)) * 8 + Get(v, FineY)
  }

  /** Within the 30 tile rows, stepping Y moves one pixel down modulo the 480
      rows of the two nametables. */
  lemma {:induction false} ScrolledYAdvancesRow(v: bv16)
    requires Get(v, CoarseY) < 30
    ensures Get(ScrolledY(v), CoarseY) < 30 && PixelRow(ScrolledY(v)) == (PixelRow(v) + 1) % 480
  {
    if Get(v, FineY) < 7 {
      ScrolledYWithinTile(v);
    } else if Get(v, CoarseY) == 29 {
      ScrolledYWrapsNametable(v);
    } else {
      ScrolledYNextTile(v);
    }
  }

  lemma {:induction false} ScrolledYWithinTile(v: bv16)
    requires Get(v, CoarseY) < 30 && Get(v, FineY) < 7
    ensures Get(ScrolledY(v), CoarseY) < 30 && PixelRow(ScrolledY(v)) == (PixelRow(v) + 1) % 480
  {
    var f, c, n := Get(v, FineY), Get(v, CoarseY), Get(v, NametableY);
    var r := ScrolledY(v);
    assert Get(r, FineY) == f + 1 && Get(r, CoarseY) == c && Get(r, NametableY) == n;
    RowSteps(n, c, f, n, c, f + 1);
  }

  lemma {:induction false} ScrolledYWrapsNametable(v: bv16)
    requires Get(v, CoarseY) == 29 && Get(v, FineY) == 7
    ensures Get(ScrolledY(v), CoarseY) < 30 && PixelRow(ScrolledY(v)) == (PixelRow(v) + 1) % 480
  {
    var f, c, n := Get(v, FineY), Get(v, CoarseY), Get(v, NametableY);
    var r := ScrolledY(v);
    assert Get(r, FineY) == 0 && Get(r, CoarseY) == 0 && Get(r, NametableY) == 1 - n;
    RowSteps(n, c, f, 1 - n, 0, 0);
  }

  lemma {:induction false} ScrolledYNextTile(v: bv16)
    requires Get(v, CoarseY) < 29 && Get(v, FineY) == 7
    ensures Get(ScrolledY(v), CoarseY) < 30 && PixelRow(ScrolledY(v)) == (PixelRow(v) + 1) % 480
  {
    var f, c, n := Get(v, FineY), Get(v, CoarseY), Get(v, NametableY);
    var r := ScrolledY(v);
    assert Get(r, FineY) == 0 && Get(r, NametableY) == n && Get(r, CoarseY) == c + 1;
    RowSteps(n, c, f, n, c + 1, 0);
  }

  /** From the attribute rows 30 and 31 stepping Y moves to row 31 and then
      back to row 0 of the same nametable, without flipping it. */
  lemma {:induction false} ScrolledYAttributeRows(v: bv16)
    ensures Get(v, FineY) == 7 && Get(v, CoarseY) == 30 ==>
              Get(ScrolledY(v), CoarseY) == 31 && Get(ScrolledY(v), NametableY) == Get(v, NametableY)
    ensures Get(v, FineY) == 7 && Get(v, CoarseY) == 31 ==>
              Get(ScrolledY(v), CoarseY) == 0 && Get(ScrolledY(v), NametableY) == Get(v, NametableY)
  {
  }

  /** Stepping Y never changes the horizontal fields or bit 15. */
  lemma {:induction false} ScrolledYKeepsHorizontal(v: bv16)
    ensures var r := ScrolledY(v);
            Get(r, CoarseX) == Get(v, CoarseX) && Get(r, NametableX) == Get(v, NametableX)
            && r & 0x8000 == v & 0x8000
  {
  }

  /** The arithmetic of one step down: the next fine row, the next tile row,
      or from the last row of a nametable to the first of the other. */
  lemma {:induction false} RowSteps(n: bv16, c: bv16, f: bv16, n': bv16, c': bv16, f': bv16)
    requires n <= 1 && c < 30 && f <= 7 && n' <= 1 && c' < 30 && f' <= 7
    requires (f < 7 && n' == n && c' == c && f' == f + 1)
             || (f == 7 && c < 29 && n' == n && c' == c + 1 && f' == 0)
             || (f == 7 && c == 29 && n' == 1 - n && c' == 0 && f' == 0)
    ensures (n' * 30 + c') * 8 + f' == ((n * 30 + c) * 8 + f + 1) % 480
  {
  }

  /** `TransferAddressX` when rendering: the horizontal fields from `t`. */
  function TransferredX(v: bv16, t: bv16): (r: bv16)
    ensures Get(r, CoarseX) == Get(t, CoarseX) && Get(r, NametableX) == Get(t, NametableX)
    ensures Get(r, CoarseY) == Get(v, CoarseY) && Get(r, NametableY) == Get(v, NametableY)
    ensures Get(r, FineY) == Get(v, FineY) && r & 0x8000 == v & 0x8000
  {
    Set(Set(v, NametableX, Get(t, NametableX)), CoarseX, Get(t, CoarseX))
  }

  /** `TransferAddressY` when rendering: the vertical fields from `t`. */
  function TransferredY(v: bv16, t: bv16): (r: bv16)
    ensures Get(r, FineY) == Get(t, FineY) && Get(r, NametableY) == Get(t, NametableY)
    ensures Get(r, CoarseY) == Get(t, CoarseY)
    ensures Get(r, CoarseX) == Get(v, CoarseX) && Get(r, NametableX) == Get(v, NametableX)
    ensures r & 0x8000 == v & 0x8000
  {
    Set(Set(Set(v, FineY, Get(t, FineY)), NametableY, Get(t, NametableY)), CoarseY, Get(t, CoarseY))
  }

  /** Transferring both halves copies the temporary address except bit 15. */
  lemma {:induction false} TransfersCopyAddress(v: bv16, t: bv16)
    ensures TransferredY(TransferredX(v, t), t) & 0x7FFF == t & 0x7FFF
  {
    var r := TransferredY(TransferredX(v, t), t);
    FieldsDetermineRegister(r, (t & 0x7FFF) | (r & 0x8000));
  }

  /** One write of `write_addr` into the temporary address: the first sets
      the high six bits (clearing bits 14 and 15), the second the low byte. */
  function AddrLatch(t: bv16, d: byte, first: bool): (r: bv16)
    ensures first ==> r >> 8 == (d % 0x40) as bv16 && r & 0xFF == t & 0xFF
    ensures !first ==> r >> 8 == t >> 8 && r & 0xFF == d as bv16
  {
    if first then (((d % 0x40) as bv16) << 8) | (t & 0x00FF)
    else (t & 0xFF00) | (d as bv16)
  }

  /** Two writes, high then low, leave the address `hi & 0x3F` : `lo`. */
  lemma {:induction false} AddrPairSetsAddress(t: bv16, hi: byte, lo: byte)
    ensures var r := AddrLatch(AddrLatch(t, hi, true), lo, false);
            r >> 8 == (hi % 0x40) as bv16 && r & 0xFF == lo as bv16 && r < 0x4000
  {
    var t1 := AddrLatch(t, hi, true);
    var r := AddrLatch(t1, lo, false);
    assert r >> 8 == t1 >> 8;
  }

  // ---------------------------------------------------------- background fetches

  /** The nametable byte fetched for the tile under the scroll register,
      `0x2000 | (v & 0x0FFF)`: tile (coarse X, coarse Y) of logical nametable
      2 * nametable Y + nametable X, 32 tiles to a row. */
  function TileAddress(v: bv16): (a: bv16)
    ensures a == 0x2000 + (Get(v, NametableY) * 2 + Get(v, NametableX)) * 0x400
                 + Get(v, CoarseY) * 32 + Get(v, CoarseX)
  {
    0x2000 | (v & 0x0FFF)
  }

  /** The attribute byte of that tile: the last 64 bytes of its nametable,
      one byte per 4x4 block of tiles. */
  function AttributeAddress(v: bv16): (a: bv16)
    ensures a == 0x23C0 + (Get(v, NametableY) * 2 + Get(v, NametableX)) * 0x400
                 + (Get(v, CoarseY) / 4) * 8 + Get(v, CoarseX) / 4
  {
    0x23C0 | (Get(v, NametableY) << 11) | (Get(v, NametableX) << 10)
    | ((Get(v, CoarseY) >> 2) << 3) | (Get(v, CoarseX) >> 2)
  }

  /** Which 2x2-tile quadrant of its attribute block a tile lies in:
      0 top left, 1 top right, 2 bottom left, 3 bottom right. */
  function Quadrant(v: bv16): (q: nat)
    ensures q < 4
  {
    (if Get(v, CoarseY) & 2 != 0 then 2 else 0) + (if Get(v, CoarseX) & 2 != 0 then 1 else 0)
  }

  /** The palette number a fetched attribute byte gives the tile: the two
      bits of its quadrant, bits 0-1 top left up to bits 6-7 bottom right. */
  function AttributeBits(b: bv8, v: bv16): (r: bv8)
    ensures r < 4
    ensures r == (b >> (2 * Quadrant(v))) & 3
  {
    var a := if Get(v, CoarseY) & 2 != 0 then b >> 4 else b;
    var a' := if Get(v, CoarseX) & 2 != 0 then a >> 2 else a;
    a' & 3
  }

  /** The pattern byte of a background tile row: plane 0 (low bits) or 8
      (high bits) of row `fineY` of tile `id` in the table PPUCTRL picks;
      the sum is truncated to the 16-bit parameter of `ppuRead`. */
  function BackgroundRowAddress(table: bool, id: byte, fineY: bv16, plane: nat): (a: word)
    requires fineY <= 7 && (plane == 0 || plane == 8)
    ensures a < 0x2000 && a / 0x1000 == (if table then 1 else 0)
    ensures a % 0x1000 / 16 == id && a % 16 == fineY as int + plane
  {
    var a := ((if table then 0x1000 else 0) + id * 16 + fineY as int + plane) % 0x10000;
    AddressFields(if table then 1 else 0, id, fineY as int + plane);
    a
  }

  /** A pattern address made of a table bit, a tile number and a row below
      16 fits in 13 bits and splits back into its three fields. */
  lemma {:induction false} AddressFields(t: nat, id: nat, r: nat)
    requires t <= 1 && id < 0x100 && r < 16
    ensures var a := t * 0x1000 + id * 16 + r;
            && a < 0x2000 && a % 0x10000 == a
            && a / 0x1000 == t && a % 0x1000 / 16 == id && a % 16 == r
  {
    var a := t * 0x1000 + id * 16 + r;
    var low := id * 16 + r;
    assert 0 <= low < 0x1000;
    assert a == 0x1000 * t + low;
    assert a / 0x1000 == t && a % 0x1000 == low;
    assert low / 16 == id && low % 16 == r;
    assert a == 16 * (t * 0x100 + id) + r;
  }

  // ---------------------------------------------------------- background shifters

  /** The tile the background fetches have read for the next eight pixels
      (`bg_next_tile_id`, `_attrib`, `_lsb`, `_msb`). */
  datatype Fetched = Fetched(id: byte, attrib: bv8, lsb: bv8, msb: bv8)

  /** The four 16-bit background shifters (`bg_shifter_pattern_lo`, `_hi`,
      `bg_shifter_attrib_lo`, `_hi`): the high byte is the tile being drawn,
      the low byte the next one. */
  datatype Shifters = Shifters(patLo: bv16, patHi: bv16, attLo: bv16, attHi: bv16)

  /** A palette bit spread over the eight pixels of a tile. */
  function Spread(b: bool): (r: bv8)
    ensures b <==> r == 0xFF
    ensures !b <==> r == 0
  {
    if b then 0xFF else 0
  }

  /** One shifter after a reload: high byte kept, low byte replaced. */
  function Reloaded(r: bv16, low: bv8): bv16
  {
    (r & 0xFF00) | low as bv16
  }

  /** `LoadBackgroundShifters`: the tile being drawn stays in the high bytes
      and the fetched tile's two pattern planes and its two palette bits,
      spread over eight pixels, fill the low bytes. */
  function Loaded(s: Shifters, f: Fetched): Shifters
  {
    Shifters(Reloaded(s.patLo, f.lsb), Reloaded(s.patHi, f.msb),
             Reloaded(s.attLo, Spread(f.attrib & 1 != 0)), Reloaded(s.attHi, Spread(f.attrib & 2 != 0)))
  }

  /** A reload keeps the high byte and puts the new byte in the low one. */
  lemma {:induction false} ReloadedBytes(r: bv16, low: bv8)
    ensures Reloaded(r, low) >> 8 == r >> 8 && Reloaded(r, low) & 0xFF == low as bv16
  {
  }

  /** After `LoadBackgroundShifters` the high bytes are unchanged and the low
      bytes hold the two fetched pattern planes and the two palette bits,
      each spread over a byte. */
  lemma {:induction false} LoadedBytes(s: Shifters, f: Fetched)
    ensures var r := Loaded(s, f);
            && r.patLo >> 8 == s.patLo >> 8 && r.patHi >> 8 == s.patHi >> 8
            && r.attLo >> 8 == s.attLo >> 8 && r.attHi >> 8 == s.attHi >> 8
            && r.patLo & 0xFF == f.lsb as bv16 && r.patHi & 0xFF == f.msb as bv16
            && r.attLo & 0xFF == Spread(f.attrib & 1 != 0) as bv16
            && r.attHi & 0xFF == Spread(f.attrib & 2 != 0) as bv16
  {
    ReloadedBytes(s.patLo, f.lsb);
    ReloadedBytes(s.patHi, f.msb);
    ReloadedBytes(s.attLo, Spread(f.attrib & 1 != 0));
    ReloadedBytes(s.attHi, Spread(f.attrib & 2 != 0));
  }

  /** The background half of `UpdateShifters`: every shifter moves one pixel. */
  function Shifted(s: Shifters): Shifters
  {
    Shifters(s.patLo << 1, s.patHi << 1, s.attLo << 1, s.attHi << 1)
  }

  function ShiftedBy(s: Shifters, n: nat): Shifters
    decreases n
  {
    if n == 0 then s else Shifted(ShiftedBy(s, n - 1))
  }

  /** The background (pixel, palette) `clock` takes at fine X: bit 15 - fine X
      of the pattern shifters and of the attribute shifters. */
  function Pixel(s: Shifters, fineX: nat): (r: (nat, nat))
    requires fineX < 8
    ensures r.0 < 4 && r.1 < 4
  {
    ((if Drawn(s.patHi, fineX) then 2 else 0) + (if Drawn(s.patLo, fineX) then 1 else 0),
     (if Drawn(s.attHi, fineX) then 2 else 0) + (if Drawn(s.attLo, fineX) then 1 else 0))
  }

  /** The bit of a shifter the multiplexer picks at fine X = j. */
  predicate Drawn(v: bv16, j: nat)
    requires j < 8
  {
    v & Mux(j) != 0
  }

  /** `0x8000 >> j`: the shifter bit drawn at fine X = j, as a table. */
  function Mux(j: nat): (m: bv16)
    requires j < 8
  {
    if j == 0 then 0x8000 else if j == 1 then 0x4000 else if j == 2 then 0x2000
    else if j == 3 then 0x1000 else if j == 4 then 0x0800 else if j == 5 then 0x0400
    else if j == 6 then 0x0200 else 0x0100
  }

  lemma {:induction false} MuxIsShift(j: nat)
    requires j < 8
    ensures Mux(j) == 0x8000 >> j
  {
  }

  /** Bit k of a byte. */
  predicate Bit8(v: bv8, k: nat)
    requires k < 8
  {
    v & BitMask(k) != 0
  }

  lemma {:induction false} ShiftedByEight(s: Shifters)
    ensures var r := ShiftedBy(s, 8);
            r.patLo == s.patLo << 8 && r.patHi == s.patHi << 8 && r.attLo == s.attLo << 8 && r.attHi == s.attHi << 8
  {
    ShiftedByEightSteps(s);
    ShiftEight(s.patLo);
    ShiftEight(s.patHi);
    ShiftEight(s.attLo);
    ShiftEight(s.attHi);
  }

  lemma {:induction false} ShiftedByEightSteps(s: Shifters)
    ensures ShiftedBy(s, 8) == Shifted(Shifted(Shifted(Shifted(Shifted(Shifted(Shifted(Shifted(s))))))))
  {
    assert ShiftedBy(s, 4) == Shifted(Shifted(Shifted(Shifted(s))));
  }

  /** Eight one-bit shifts are one shift by eight. */
  lemma {:induction false} ShiftEight(x: bv16)
    ensures ((((((((x << 1) << 1) << 1) << 1) << 1) << 1) << 1) << 1) == x << 8
  {
  }

  lemma {:induction false} ReloadedAfterEight(v: bv16, low: bv8, j: nat)
    requires j < 8
    ensures Drawn(Reloaded(v, low) << 8, j) <==> Bit8(low, 7 - j)
  {
  }

  /** A loaded tile is drawn eight shifts later: at fine X = j the pixel is
      bit 7 - j of the two fetched planes, and the palette is the fetched
      attribute's two bits. */
  lemma {:induction false} LoadedTileDrawnAfterEight(s: Shifters, f: Fetched, j: nat)
    requires j < 8
    ensures Pixel(ShiftedBy(Loaded(s, f), 8), j)
            == ((if Bit8(f.msb, 7 - j) then 2 else 0) + (if Bit8(f.lsb, 7 - j) then 1 else 0),
                (if f.attrib & 2 != 0 then 2 else 0) + (if f.attrib & 1 != 0 then 1 else 0))
  {
    LoadedTileBits(s, f, j);
    PixelOfBits(ShiftedBy(Loaded(s, f), 8), j, Bit8(f.msb, 7 - j), Bit8(f.lsb, 7 - j), f.attrib & 2 != 0, f.attrib & 1 != 0);
  }

  /** Eight shifts after a reload, the multiplexer at fine X = j picks bit
      7 - j of each fetched pattern plane and the fetched palette bits. */
  lemma {:induction false} LoadedTileBits(s: Shifters, f: Fetched, j: nat)
    requires j < 8
    ensures var r := ShiftedBy(Loaded(s, f), 8);
            && Drawn(r.patLo, j) == Bit8(f.lsb, 7 - j) && Drawn(r.patHi, j) == Bit8(f.msb, 7 - j)
            && Drawn(r.attLo, j) == (f.attrib & 1 != 0) && Drawn(r.attHi, j) == (f.attrib & 2 != 0)
  {
    LoadedShiftedEight(s, f);
    var r := ShiftedBy(Loaded(s, f), 8);
    ReloadedDrawn(r.patLo, s.patLo, f.lsb, j);
    ReloadedDrawn(r.patHi, s.patHi, f.msb, j);
    SpreadDrawn(r.attLo, s.attLo, f.attrib & 1 != 0, j);
    SpreadDrawn(r.attHi, s.attHi, f.attrib & 2 != 0, j);
  }

  /** A shifter eight shifts after a reload draws bit 7 - j of the new byte. */
  lemma {:induction false} ReloadedDrawn(x: bv16, v: bv16, low: bv8, j: nat)
    requires j < 8 && x == Reloaded(v, low) << 8
    ensures Drawn(x, j) == Bit8(low, 7 - j)
  {
    ReloadedAfterEight(v, low, j);
  }

  /** An attribute shifter eight shifts after a reload draws its palette bit. */
  lemma {:induction false} SpreadDrawn(x: bv16, v: bv16, b: bool, j: nat)
    requires j < 8 && x == Reloaded(v, Spread(b)) << 8
    ensures Drawn(x, j) == b
  {
    ReloadedAfterEight(v, Spread(b), j);
    SpreadBit(b, 7 - j);
  }

  /** The pixel and palette from the four bits the multiplexer picks. */
  lemma {:induction false} PixelOfBits(r: Shifters, j: nat, ph: bool, pl: bool, ah: bool, al: bool)
    requires j < 8
    requires Drawn(r.patHi, j) == ph && Drawn(r.patLo, j) == pl
    requires Drawn(r.attHi, j) == ah && Drawn(r.attLo, j) == al
    ensures Pixel(r, j) == ((if ph then 2 else 0) + (if pl then 1 else 0), (if ah then 2 else 0) + (if al then 1 else 0))
  {
  }

  /** Eight shifts after a reload, each shifter holds its reloaded value
      moved up by a byte. */
  lemma {:induction false} LoadedShiftedEight(s: Shifters, f: Fetched)
    ensures var r := ShiftedBy(Loaded(s, f), 8);
            && r.patLo == Reloaded(s.patLo, f.lsb) << 8 && r.patHi == Reloaded(s.patHi, f.msb) << 8
            && r.attLo == Reloaded(s.attLo, Spread(f.attrib & 1 != 0)) << 8
            && r.attHi == Reloaded(s.attHi, Spread(f.attrib & 2 != 0)) << 8
  {
    ShiftedByEight(Loaded(s, f));
  }

  lemma {:induction false} SpreadBit(b: bool, k: nat)
    requires k < 8
    ensures Bit8(Spread(b), k) == b
  {
    if b {
      assert Spread(b) == 0xFF;
    }
  }

  /** PPUADDR after a PPUDATA access: one step across (1) or down (32),
      wrapping at 16 bits like the `quint16` register. Read as a nametable
      position, that is the next tile of the row or the tile below it. */
  function Stepped(v: bv16, down: bool): (r: bv16)
    ensures !down && Get(v, CoarseX) < 31 ==>
              && Get(r, CoarseX) == Get(v, CoarseX) + 1 && Get(r, CoarseY) == Get(v, CoarseY)
              && Get(r, NametableX) == Get(v, NametableX) && Get(r, NametableY) == Get(v, NametableY)
              && Get(r, FineY) == Get(v, FineY)
    ensures down ==> Get(r, CoarseX) == Get(v, CoarseX)
    ensures down && Get(v, CoarseY) < 31 ==>
              && Get(r, CoarseY) == Get(v, CoarseY) + 1
              && Get(r, NametableX) == Get(v, NametableX) && Get(r, NametableY) == Get(v, NametableY)
              && Get(r, FineY) == Get(v, FineY)
  {
    v + (if down then 32 else 1)
  }

  // ---------------------------------------------------------- sprites

  /** An OAM entry is on a scanline when the line falls within its height. */
  predicate OnLine(e: Sprite, scanline: int, height: nat)
  {
    0 <= scanline - e.y < height
  }

  /** The OAM indices, in OAM order, that evaluation copies into the sprite
      line after looking at the first `n` entries: every entry on the line
      while fewer than eight have been taken. */
  function Selected(oam: seq<byte>, scanline: int, height: nat, n: nat): (s: seq<nat>)
    requires |oam| == 256 && n <= 64
    ensures |s| <= 8
    ensures forall k :: 0 <= k < |s| ==> s[k] < n && OnLine(Entry(oam, s[k]), scanline, height)
    ensures forall j, k :: 0 <= j < k < |s| ==> s[j] < s[k]
  {
    if n == 0 then []
    else
      var s := Selected(oam, scanline, height, n - 1);
      if |s| < 8 && OnLine(Entry(oam, n - 1), scanline, height) then s + [n - 1] else s
  }

  /** How many of the first `n` entries are on the line. */
  function CountOnLine(oam: seq<byte>, scanline: int, height: nat, n: nat): (c: nat)
    requires |oam| == 256 && n <= 64
    ensures c <= n
  {
    if n == 0 then 0
    else CountOnLine(oam, scanline, height, n - 1)
         + (if OnLine(Entry(oam, n - 1), scanline, height) then 1 else 0)
  }

  /** Evaluation takes the first eight entries on the line: it takes all of
      them when there are at most eight, and an entry left out comes after
      all eight taken ones. */
  lemma {:induction false} SelectedAreFirstEight(oam: seq<byte>, scanline: int, height: nat, n: nat)
    requires |oam| == 256 && n <= 64
    ensures var s := Selected(oam, scanline, height, n);
            |s| == if CountOnLine(oam, scanline, height, n) < 8 then CountOnLine(oam, scanline, height, n) else 8
    ensures var s := Selected(oam, scanline, height, n);
            forall i :: 0 <= i < n && OnLine(Entry(oam, i), scanline, height) && i !in s ==>
              |s| == 8 && forall k :: 0 <= k < 8 ==> s[k] < i
  {
    if n > 0 {
      SelectedAreFirstEight(oam, scanline, height, n - 1);
    }
  }

  /** The overflow flag evaluation sets (eight taken) holds exactly when at
      least eight entries are on the line: a ninth is not needed. */
  lemma {:induction false} OverflowAtEight(oam: seq<byte>, scanline: int, height: nat)
    requires |oam| == 256
    ensures |Selected(oam, scanline, height, 64)| >= 8 <==> CountOnLine(oam, scanline, height, 64) >= 8
  {
    SelectedAreFirstEight(oam, scanline, height, 64);
  }

  /** Entry 0 is taken exactly when it is on the line. */
  lemma {:induction false} SpriteZeroSelected(oam: seq<byte>, scanline: int, height: nat, n: nat)
    requires |oam| == 256 && 0 < n <= 64
    ensures var s := Selected(oam, scanline, height, n);
            (0 in s <==> OnLine(Entry(oam, 0), scanline, height))
            && (0 in s ==> s[0] == 0)
  {
    if n > 1 {
      SpriteZeroSelected(oam, scanline, height, n - 1);
    }
  }

  /** `a | b` on non-negative integers. */
  function BitOr(a: nat, b: nat): (r: nat)
  {
    if a == 0 then b
    else if b == 0 then a
    else (if a % 2 == 1 || b % 2 == 1 then 1 else 0) + 2 * BitOr(a / 2, b / 2)
  }

  /** On operands with no bit in common, `|` is `+`: the low `k` bits of
      the left operand are clear and the right one fits in them. */
  lemma {:induction false} BitOrDisjoint(q: nat, b: nat, k: nat)
    requires b < Pow2(k)
    ensures BitOr(Pow2(k) * q, b) == Pow2(k) * q + b
  {
    var a := Pow2(k) * q;
    if k > 0 && a != 0 && b != 0 {
      var p := Pow2(k - 1);
      assert a == 2 * (p * q);
      BitOrDisjoint(q, b / 2, k - 1);
    }
  }

  /** The pattern-table address of a sprite's row at cycle 340: 8x8 sprites
      in the table PPUCTRL picks, 8x16 sprites in the table bit 0 of the tile
      id picks, as two tiles; bit 7 of the attribute flips vertically. The
      row is computed from the current scanline, which may lie outside the
      sprite when the line or the sprite size changed since evaluation; the
      `int` is then negative or too large and the `quint16` assignment keeps
      the low 16 bits of the OR. */
  function SpriteRowAddress(e: Sprite, scanline: int, tall: bool, table: bool): (a: word)
  {
    var d := scanline - e.y;
    var vflip := e.attribute >= 0x80;
    var row := if vflip then 7 - d else d;
    if !tall then
      RowAddress(if table then 1 else 0, e.id, row % 0x10000)
    else
      var top := e.id - e.id % 2;
      var tile := if (d < 8) != vflip then top else top + 1;
      RowAddress(e.id % 2, tile, row % 8)
  }

  /** `table << 12 | tile << 4 | row`, kept to 16 bits; with parts that share
      no bit, the sum of the parts. */
  function RowAddress(table: nat, tile: nat, row: nat): word
  {
    BitOr(BitOr(table * 0x1000, tile * 16), row) % 0x10000
  }

  /** With parts that share no bit, the OR is their sum, which fits in 16
      bits. */
  lemma {:induction false} RowAddressSum(table: nat, tile: nat, row: nat)
    requires table <= 1 && tile < 0x100 && row < 16
    ensures RowAddress(table, tile, row) == table * 0x1000 + tile * 16 + row
  {
    AddressParts(table, tile, row);
    AddressFields(table, tile, row);
  }

  lemma {:induction false} Pow2Constants()
    ensures Pow2(4) == 16 && Pow2(12) == 0x1000
  {
    assert Pow2(8) == 0x100;
  }

  /** `|` of a table base, a tile offset and a row that share no bit. */
  lemma {:induction false} AddressParts(tb: nat, tile: nat, row: nat)
    requires tb <= 1 && tile < 0x100 && row < 16
    ensures BitOr(BitOr(tb * 0x1000, tile * 16), row) == tb * 0x1000 + tile * 16 + row
  {
    Pow2Constants();
    BitOrDisjoint(tb, tile * 16, 12);
    assert Pow2(4) * (tb * 0x100 + tile) == tb * 0x1000 + tile * 16;
    BitOrDisjoint(tb * 0x100 + tile, row, 4);
  }

  /** For a row inside an 8x8 sprite, the address is table * 0x1000 +
      tile * 16 + row, the row counting up, or down when flipped. */
  lemma {:induction false} SpriteRowInTile8(e: Sprite, scanline: int, table: bool)
    requires OnLine(e, scanline, 8)
    ensures var d := scanline - e.y;
            SpriteRowAddress(e, scanline, false, table)
            == (if table then 0x1000 else 0) + e.id * 16 + (if e.attribute >= 0x80 then 7 - d else d)
  {
    var d := scanline - e.y;
    var row := if e.attribute >= 0x80 then 7 - d else d;
    assert 0 <= row < 8 && row % 0x10000 == row;
    RowAddressSum(if table then 1 else 0, e.id, row);
  }

  /** For a row inside an 8x16 sprite, the table is bit 0 of the tile id; the
      even tile holds the top half and the next one the bottom half, swapped
      when flipped; the row inside the tile counts up, or down when flipped. */
  lemma {:induction false} SpriteRowInTile16(e: Sprite, scanline: int, table: bool)
    requires OnLine(e, scanline, 16)
    ensures var d := scanline - e.y;
            var vflip := e.attribute >= 0x80;
            SpriteRowAddress(e, scanline, true, table)
            == (e.id % 2) * 0x1000
               + (e.id - e.id % 2 + (if (d >= 8) != vflip then 1 else 0)) * 16
               + (if vflip then 7 - d % 8 else d % 8)
  {
    var d := scanline - e.y;
    var vflip := e.attribute >= 0x80;
    var row := if vflip then 7 - d else d;
    var lo := e.id % 2;
    var tile := if (d < 8) != vflip then e.id - lo else e.id - lo + 1;
    assert 0 <= tile < 0x100;
    TallRow(d, vflip);
    RowAddressSum(lo, tile, row % 8);
    assert SpriteRowAddress(e, scanline, true, table) == lo * 0x1000 + tile * 16 + row % 8;
  }

  /** The row inside the half of an 8x16 sprite a line falls in. */
  lemma {:induction false} TallRow(d: int, vflip: bool)
    requires 0 <= d < 16
    ensures 0 <= (if vflip then 7 - d else d) % 8 < 8
    ensures (if vflip then 7 - d else d) % 8 == (if vflip then 7 - d % 8 else d % 8)
  {
    if d < 8 {
      assert d % 8 == d;
      assert (7 - d) % 8 == 7 - d;
    } else {
      assert d % 8 == d - 8;
      assert (7 - d) % 8 == 15 - d;
    }
  }

  /** The byte with its bits in reverse order, as the `flipbyte` lambda
      computes it: swap nibbles, then bit pairs, then neighbours. */
  function Flip(b: bv8): (r: bv8)
    ensures forall i: nat :: i < 8 ==> Flag(r, i) == Flag(b, 7 - i)
  {
    var b1 := ((b & 0xF0) >> 4) | ((b & 0x0F) << 4);
    var b2 := ((b1 & 0xCC) >> 2) | ((b1 & 0x33) << 2);
    ((b2 & 0xAA) >> 1) | ((b2 & 0x55) << 1)
  }

  /** Flipping twice gives the byte back. */
  lemma {:induction false} FlipInvolution(b: bv8)
    ensures Flip(Flip(b)) == b
  {
  }

  // ---------------------------------------------------------- composition

  /** The priority rule: the backdrop when both pixels are transparent, the
      opaque one when only one is, and when both are, the sprite if its
      priority bit asks to be in front, else the background. Pixels are 2-bit
      colour indices, palettes 0-3 for the background and 4-7 for sprites. */
  function Compose(bgPixel: nat, bgPalette: nat, fgPixel: nat, fgPalette: nat, fgFront: bool): (r: (nat, nat))
    ensures bgPixel == 0 && fgPixel == 0 ==> r == (0, 0)
    ensures bgPixel == 0 && fgPixel > 0 ==> r == (fgPixel, fgPalette)
    ensures bgPixel > 0 && fgPixel == 0 ==> r == (bgPixel, bgPalette)
    ensures bgPixel > 0 && fgPixel > 0 ==> r == if fgFront then (fgPixel, fgPalette) else (bgPixel, bgPalette)
  {
    if bgPixel == 0 && fgPixel == 0 then (0, 0)
    else if bgPixel == 0 then (fgPixel, fgPalette)
    else if fgPixel == 0 then (bgPixel, bgPalette)
    else if fgFront then (fgPixel, fgPalette)
    else (bgPixel, bgPalette)
  }

  /** A sprite's palette is 4 plus the low two attribute bits, and it is in
      front of the background unless attribute bit 5 is set. */
  function SpritePalette(e: Sprite): (p: nat)
    ensures 4 <= p < 8
  {
    e.attribute % 4 + 4
  }

  predicate SpriteInFront(e: Sprite)
  {
    e.attribute / 0x20 % 2 == 0
  }

  /** The sprite pixel `clock` picks from the sprite line: scanning the
      `count` taken sprites from `i` on, the first whose X counter has run
      out and whose current pixel is opaque. `acc` carries the palette and
      priority of the last sprite looked at, which the loop leaves behind
      even when every pixel is transparent. The result is (pixel, palette,
      in front, index of the chosen sprite or `count`). */
  function FrontSprite(line: seq<Sprite>, lo: seq<bv8>, hi: seq<bv8>, count: nat, i: nat, acc: (nat, nat, bool))
    : (r: (nat, nat, bool, nat))
    requires |line| == 8 && |lo| == 8 && |hi| == 8 && count <= 8 && i <= count
    ensures r.0 < 4 && i <= r.3 <= count
    ensures r.3 < count <==> r.0 != 0
    decreases count - i
  {
    if i == count then (0, acc.1, acc.2, count)
    else if line[i].x == 0 then
      var pixel := (if hi[i] & 0x80 != 0 then 2 else 0) + (if lo[i] & 0x80 != 0 then 1 else 0);
      if pixel != 0 then (pixel, SpritePalette(line[i]), SpriteInFront(line[i]), i)
      else FrontSprite(line, lo, hi, count, i + 1, (0, SpritePalette(line[i]), SpriteInFront(line[i])))
    else FrontSprite(line, lo, hi, count, i + 1, acc)
  }

  /** The chosen sprite is the first one with its X counter at 0 and an
      opaque pixel; no earlier sprite shows a pixel; and the result carries
      that sprite's palette and priority. */
  lemma {:induction false} FrontSpriteIsFirstOpaque(line: seq<Sprite>, lo: seq<bv8>, hi: seq<bv8>, count: nat, i: nat, acc: (nat, nat, bool))
    requires |line| == 8 && |lo| == 8 && |hi| == 8 && count <= 8 && i <= count
    ensures var r := FrontSprite(line, lo, hi, count, i, acc);
            && (r.3 < count ==> line[r.3].x == 0 && (hi[r.3] & 0x80 != 0 || lo[r.3] & 0x80 != 0)
                                && r.1 == SpritePalette(line[r.3]) && r.2 == SpriteInFront(line[r.3]))
            && forall k :: i <= k < r.3 ==> !(line[k].x == 0 && (hi[k] & 0x80 != 0 || lo[k] & 0x80 != 0))
    decreases count - i
  {
    if i < count {
      var a := if line[i].x == 0 then (0, SpritePalette(line[i]), SpriteInFront(line[i])) else acc;
      FrontSpriteIsFirstOpaque(line, lo, hi, count, i + 1, a);
    }
  }

  // ---------------------------------------------------------- beam position

  /** The raster position: cycle 0-340 of scanline -1 (pre-render) to 260. */
  datatype Beam = Beam(scanline: int, cycle: int, oddFrame: bool, frameComplete: bool)

  predicate OnScreen(b: Beam)
  {
    -1 <= b.scanline <= 260 && 0 <= b.cycle <= 340
  }

  /** One `clock` of the position: the odd-frame skip of cycle 0 of line 0
      while rendering, then one cycle on; after cycle 340 the next line, and
      after line 260 line -1 of a new frame, which completes the frame and
      toggles the odd-frame bit. */
  function Tick(b: Beam, rendering: bool): (r: Beam)
    requires OnScreen(b)
    ensures OnScreen(r)
    ensures b.cycle < 340 && !(b.scanline == 0 && b.cycle == 0 && b.oddFrame && rendering) ==>
              r == b.(cycle := b.cycle + 1)
    ensures b.cycle == 340 && b.scanline < 260 ==> r == b.(scanline := b.scanline + 1, cycle := 0)
    ensures b.cycle == 340 && b.scanline == 260 ==>
              r == Beam(-1, 0, !b.oddFrame, true)
  {
    var c := if b.scanline == 0 && b.cycle == 0 && b.oddFrame && rendering then 1 else b.cycle;
    var c' := c + 1;
    if c' >= 341 then
      if b.scanline + 1 >= 261 then Beam(-1, 0, !b.oddFrame, true)
      else b.(scanline := b.scanline + 1, cycle := 0)
    else b.(cycle := c')
  }

  function Ticks(b: Beam, rendering: bool, n: nat): (r: Beam)
    requires OnScreen(b)
    ensures OnScreen(r)
    decreases n
  {
    if n == 0 then b else Ticks(Tick(b, rendering), rendering, n - 1)
  }

  /** A scanline lasts 341 clocks from any cycle of it, except line 0 of an
      odd frame while rendering, whose cycle 0 is skipped. */
  lemma {:induction false} LineLength(b: Beam, rendering: bool)
    requires OnScreen(b) && b.scanline < 260
    requires !(b.scanline == 0 && b.cycle == 0 && b.oddFrame && rendering)
    ensures Ticks(b, rendering, 341 - b.cycle) == b.(scanline := b.scanline + 1, cycle := 0)
    decreases 341 - b.cycle
  {
    if b.cycle < 340 {
      LineLength(b.(cycle := b.cycle + 1), rendering);
    }
  }

  /** The skipped cycle: line 0 of an odd frame while rendering lasts 340. */
  lemma {:induction false} OddFrameSkip(f: bool)
    ensures Ticks(Beam(0, 0, true, f), true, 340) == Beam(1, 0, true, f)
  {
    assert Tick(Beam(0, 0, true, f), true) == Beam(0, 2, true, f);
    LineLength(Beam(0, 2, true, f), true);
  }
}
