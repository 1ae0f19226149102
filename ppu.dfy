/** The picture processing unit of ppu.cpp and ppu.h: the registers the CPU
    reads and writes at 0x2000-0x2007, the PPU's own 14-bit address space,
    and `clock`, which per cycle fetches background tiles, evaluates and
    fetches the sprites of the next line, composes one pixel and advances
    the beam. */
module Video {
  import opened Bits
  import opened PpuRegs
  import opened Render
  import Mappers
  import Cart

  // ---------------------------------------------------------- PPUDATA reads

  /** Whether a PPUDATA read returns the byte just fetched instead of the
      buffered one, as `read_data` decides it: on the raw 16-bit register. */
  predicate ImmediateAsWritten(v: bv16)
  {
    v >= 0x3F00
  }

  /** The same decision on the 14-bit address `ppuRead` actually uses:
      palette reads, and only they, are immediate. */
  predicate Immediate(v: bv16)
  {
    v & 0x3FFF >= 0x3F00
  }

  /** An increment from 0x3FFF leaves 0x4000 in the register, which
      `ppuRead` masks to pattern address 0x0000; the raw comparison still
      treats the read as a palette read. */
  lemma ImmediateAsWrittenMisfires()
    ensures (0x3FFF as bv16) + 1 == 0x4000 && (0x4000 as bv16) & 0x3FFF == 0
    ensures ImmediateAsWritten(0x4000) && !Immediate(0x4000)
  {
  }

  /** The two decisions agree on the 14-bit addresses. */
  lemma {:induction false} ImmediateOnLowAddresses(v: bv16)
    requires v < 0x4000
    ensures Immediate(v) <==> ImmediateAsWritten(v)
  {
  }

  /** The byte a PPUSTATUS read returns: the three flags over the low five
      bits of the data buffer. */
  function StatusByte(status: bv8, buffer: byte): (v: bv8)
    ensures v & 0xE0 == status & 0xE0 && v & 0x1F == (buffer as bv8) & 0x1F
  {
    (status & 0xE0) | ((buffer as bv8) & 0x1F)
  }

  class Ppu {
    var status: bv8
    var mask: bv8
    var ctrl: bv8
    /** `vram_addr` and `tram_addr`, the loopy registers. */
    var vram: bv16
    var tram: bv16
    var fineX: byte
    /** `address_latch` */
    var latch: bool
    /** `ppu_data_buffer` */
    var buffer: byte
    var oamAddr: byte
    /** `scanline`, `cycle`, `odd_frame` and `frame_complete`. */
    var beam: Beam
    var nmi: bool
    var next: Fetched
    var bg: Shifters
    var spriteCount: nat
    /** `bSpriteZeroHitPossible`, `bSpriteZeroBeingRendered` */
    var zeroPossible: bool
    var zeroRendered: bool

    /** `tblName`: nametable t, cell i is cell 0x400 * t + i. */
    const names: array<byte>
    /** `tblPalette` */
    const palette: array<byte>
    /** `OAM`, as the 256 bytes `pOAM` shows. */
    const oam: array<byte>
    /** `spriteScanline` and the two sprite pattern shifters. */
    const line: array<Sprite>
    const spriteLo: array<bv8>
    const spriteHi: array<bv8>
    /** `frame_data`: pixel (x, y) is cell x * 240 + y and holds the 6-bit
        system palette index the colour map is looked up with. */
    const frame: array<byte>
    const cart: Cart.Cartridge

    ghost predicate Valid()
      reads this, cart
    {
      && names.Length == 0x800 && palette.Length == 32 && oam.Length == 256
      && line.Length == 8 && spriteLo.Length == 8 && spriteHi.Length == 8
      && Separate()
      && frame.Length == 256 * 240
      && cart.Valid() && cart.mapper.Some?
      && OnScreen(beam) && fineX < 8 && spriteCount <= 8
    }

    /** The PPU's seven memories are seven arrays. */
    ghost predicate Separate()
      reads this
    {
      var n, p, o, f := names as object, palette as object, oam as object, frame as object;
      var l, lo, hi := line as object, spriteLo as object, spriteHi as object;
      && n != p && n != o && n != f && n != l && n != lo && n != hi
      && p != o && p != f && p != l && p != lo && p != hi
      && o != f && o != l && o != lo && o != hi
      && f != l && f != lo && f != hi
      && l != lo && l != hi && lo != hi
    }

    /** The cartridge contents the PPU never changes except through CHR-RAM
        writes and the scanline hook. */
    ghost function CartImage(): (seq<byte>, seq<byte>, seq<byte>, byte, byte)
      reads cart
    {
      (cart.prg, cart.chr, cart.prgRam, cart.romNum, cart.vromNum)
    }

    /** A PPU connected to a loaded cartridge (`ConnectCartridge`), with
        every register and memory zero. */
    constructor (c: Cart.Cartridge)
      requires c.Valid() && c.mapper.Some?
      ensures Valid() && cart == c
      ensures fresh(names) && fresh(palette) && fresh(oam) && fresh(line)
      ensures fresh(spriteLo) && fresh(spriteHi) && fresh(frame)
      ensures beam == Beam(0, 0, false, false) && !nmi
      ensures status == 0 && mask == 0 && ctrl == 0 && vram == 0 && tram == 0 && !latch
    {
      status, mask, ctrl, vram, tram, fineX := 0, 0, 0, 0, 0, 0;
      latch, buffer, oamAddr := false, 0, 0;
      beam, nmi := Beam(0, 0, false, false), false;
      next, bg := Fetched(0, 0, 0, 0), Shifters(0, 0, 0, 0);
      spriteCount, zeroPossible, zeroRendered := 0, false, false;
      names := new byte[0x800](_ => 0);
      palette := new byte[32](_ => 0);
      oam := new byte[256](_ => 0);
      line := new Sprite[8](_ => Blank);
      spriteLo := new bv8[8](_ => 0);
      spriteHi := new bv8[8](_ => 0);
      frame := new byte[256 * 240](_ => 0);
      cart := c;
    }

    /** `reset`: registers, scroll, beam and background pipeline to zero,
        frame, nametables and palette cleared. OAM, OAMADDR, the sprite line
        and the NMI line are left as they are. */
    method Reset()
      requires Valid()
      modifies this`status, this`mask, this`ctrl, this`vram, this`tram, this`fineX, this`latch,
               this`buffer, this`beam, this`next, this`bg, names, palette, frame
      ensures Valid()
      ensures status == 0 && mask == 0 && ctrl == 0 && vram == 0 && tram == 0 && fineX == 0
      ensures !latch && buffer == 0 && beam == Beam(0, 0, false, false)
      ensures next == Fetched(0, 0, 0, 0) && bg == Shifters(0, 0, 0, 0)
      ensures forall i :: 0 <= i < names.Length ==> names[i] == 0
      ensures forall i :: 0 <= i < palette.Length ==> palette[i] == 0
      ensures forall i :: 0 <= i < frame.Length ==> frame[i] == 0
    {
      ResetRegisters();
      ResetPipeline();
      ClearMemories();
    }

    /** The register and beam part of `reset`. */
    method ResetRegisters()
      requires Valid()
      modifies this`status, this`mask, this`ctrl, this`vram, this`tram, this`beam
      ensures Valid()
      ensures status == 0 && mask == 0 && ctrl == 0 && vram == 0 && tram == 0
      ensures beam == Beam(0, 0, false, false)
    {
      beam := Beam(0, 0, false, false);
      status, mask, ctrl, vram, tram := 0, 0, 0, 0, 0;
    }

    /** The fine scroll, write latch, read buffer and background pipeline
        part of `reset`. */
    method ResetPipeline()
      requires Valid()
      modifies this`fineX, this`latch, this`buffer, this`next, this`bg
      ensures Valid()
      ensures fineX == 0 && !latch && buffer == 0
      ensures next == Fetched(0, 0, 0, 0) && bg == Shifters(0, 0, 0, 0)
    {
      fineX, latch, buffer := 0, false, 0;
      next, bg := Fetched(0, 0, 0, 0), Shifters(0, 0, 0, 0);
    }

    /** The three `memset`s of `reset`. */
    method ClearMemories()
      requires Valid()
      modifies names, palette, frame
      ensures forall i :: 0 <= i < names.Length ==> names[i] == 0
      ensures forall i :: 0 <= i < palette.Length ==> palette[i] == 0
      ensures forall i :: 0 <= i < frame.Length ==> frame[i] == 0
    {
      forall i | 0 <= i < frame.Length {
        frame[i] := 0;
      }
      forall i | 0 <= i < names.Length {
        names[i] := 0;
      }
      forall i | 0 <= i < palette.Length {
        palette[i] := 0;
      }
    }

    // ---------------------------------------------------------- PPU bus

    /** The cartridge's nametable mirroring. */
    function Mirror(): byte
      requires cart.mapper.Some?
      reads this, cart
    {
      cart.mapper.value.mirror
    }

    /** `ppuRead`: the address is cut to 14 bits; 0x0000-0x1FFF is the
        cartridge's pattern memory, 0x2000-0x3EFF the nametables through
        the mirroring (0 when it is none of the four modes), and the rest the
        palette, masked by the grayscale bit. */
    function PpuRead(addr: word): (v: byte)
      requires Valid()
      reads this, cart, names, palette
      ensures 0x3F00 <= addr % 0x4000 ==> v < 0x40 && (Flag(mask, Grayscale) ==> v % 0x10 == 0)
    {
      var a := addr % 0x4000;
      if a < 0x2000 then cart.PpuRead(a)
      else if a < 0x3F00 then
        match NametableSlot(Mirror(), a % 0x1000)
        case Some(i) => names[i]
        case None => 0
      else Shade(palette[PaletteSlot(a % 32)], Flag(mask, Grayscale))
    }

    /** The three memories after `ppuWrite(addr, data)`, against what they
        held before: the nametable cell the mirroring maps the address to,
        the palette entry it aliases to, or the CHR-RAM byte. */
    ghost predicate Wrote(addr: word, data: byte, names0: seq<byte>, palette0: seq<byte>, chr0: seq<byte>)
      requires Valid() && |names0| == 0x800 && |palette0| == 32 && |chr0| == 0x2000
      reads this, cart, names, palette
    {
      var a := addr % 0x4000;
      && names[..] == (if 0x2000 <= a < 0x3F00 && MirrorMode(Mirror())
                       then names0[NametableSlot(Mirror(), a % 0x1000).value := data] else names0)
      && palette[..] == (if 0x3F00 <= a then palette0[PaletteSlot(a % 32) := data] else palette0)
      && cart.chrRam == (if a < 0x2000 && cart.vromNum == 0 then chr0[a := data] else chr0)
    }

    /** `ppuWrite`. A byte written where memory exists reads back: unchanged
        from CHR-RAM and the nametables, through the grayscale mask from the
        palette. */
    method PpuWrite(addr: word, data: byte)
      requires Valid()
      modifies names, palette, cart
      ensures Valid() && cart.mapper == old(cart.mapper) && CartImage() == old(CartImage())
      ensures Wrote(addr, data, old(names[..]), old(palette[..]), old(cart.chrRam))
      ensures var a := addr % 0x4000;
              ((a < 0x2000 && cart.vromNum == 0) || (0x2000 <= a < 0x3F00 && MirrorMode(Mirror())))
                ==> PpuRead(addr) == data
      ensures 0x3F00 <= addr % 0x4000 ==> PpuRead(addr) == Shade(data, Flag(mask, Grayscale))
    {
      var a := addr % 0x4000;
      if a < 0x2000 {
        cart.PpuWrite(a, data);
      } else if a < 0x3F00 {
        var slot := NametableSlot(Mirror(), a % 0x1000);
        if slot.Some? {
          names[slot.value] := data;
        }
      } else {
        palette[PaletteSlot(a % 32)] := data;
      }
    }

    // ---------------------------------------------------------- CPU registers

    predicate Rendering()
      reads this
    {
      Flag(mask, RenderBackground) || Flag(mask, RenderSprites)
    }

    /** `get_status`: the three flags over the low five bits of the data
        buffer; the read clears vertical blank and the write latch. */
    method GetStatus() returns (v: bv8)
      requires Valid()
      modifies this`status, this`latch
      ensures Valid()
      ensures v == StatusByte(old(status), buffer)
      ensures status == WithFlag(old(status), VerticalBlank, false) && !latch
    {
      v := StatusByte(status, buffer);
      status := WithFlag(status, VerticalBlank, false);
      latch := false;
    }

    /** `get_oamdata`: the OAM byte at OAMADDR, a field of entry OAMADDR / 4. */
    function OamData(): (v: byte)
      requires Valid()
      reads this, cart, oam
      ensures var e := Entry(oam[..], oamAddr / 4);
              v == match oamAddr % 4 case 0 => e.y case 1 => e.id case 2 => e.attribute case _ => e.x
    {
      OamByteView(oam[..], oamAddr);
      oam[oamAddr]
    }

    /** `read_data`: the buffered byte, or, when the raw register is at least
        0x3F00, the byte itself; the buffer takes the byte at the address and
        the address steps across or down. */
    method ReadData() returns (v: byte)
      requires Valid()
      modifies this`buffer, this`vram
      ensures Valid()
      ensures buffer == old(PpuRead(vram as int))
      ensures v == if ImmediateAsWritten(old(vram)) then buffer else old(buffer)
      ensures vram == Stepped(old(vram), Flag(ctrl, IncrementMode))
    {
      v := buffer;
      buffer := PpuRead(vram as int);
      if ImmediateAsWritten(vram) {
        v := buffer;
      }
      vram := Stepped(vram, Flag(ctrl, IncrementMode));
    }

    /** `write_ctrl`: PPUCTRL, whose two nametable bits are also the
        nametable select of the scroll latch. */
    method WriteCtrl(d: byte)
      requires Valid()
      modifies this`ctrl, this`tram
      ensures Valid()
      ensures ctrl == d as bv8
      ensures Get(tram, NametableX) == (if Flag(ctrl, CtrlNametableX) then 1 else 0)
      ensures Get(tram, NametableY) == (if Flag(ctrl, CtrlNametableY) then 1 else 0)
      ensures Get(tram, CoarseX) == Get(old(tram), CoarseX) && Get(tram, CoarseY) == Get(old(tram), CoarseY)
      ensures Get(tram, FineY) == Get(old(tram), FineY) && tram & 0x8000 == old(tram) & 0x8000
    {
      ctrl := d as bv8;
      var t := Set(tram, NametableX, if Flag(ctrl, CtrlNametableX) then 1 else 0);
      tram := Set(t, NametableY, if Flag(ctrl, CtrlNametableY) then 1 else 0);
    }

    /** `write_mask` */
    method WriteMask(d: byte)
      requires Valid()
      modifies this`mask
      ensures Valid() && mask == d as bv8
    {
      mask := d as bv8;
    }

    /** `write_scroll`: the first write sets X (fine X and coarse X), the
        second Y (fine Y and coarse Y), each from the low three and high five
        bits of the byte; the other latch fields keep their values. */
    method WriteScroll(d: byte)
      requires Valid()
      modifies this`fineX, this`tram, this`latch
      ensures Valid()
      ensures latch == !old(latch)
      ensures !old(latch) ==> fineX == d % 8 && Get(tram, CoarseX) == (d / 8) as bv16
                              && Get(tram, CoarseY) == Get(old(tram), CoarseY) && Get(tram, FineY) == Get(old(tram), FineY)
      ensures old(latch) ==> fineX == old(fineX) && Get(tram, FineY) == (d % 8) as bv16
                             && Get(tram, CoarseY) == (d / 8) as bv16 && Get(tram, CoarseX) == Get(old(tram), CoarseX)
      ensures Get(tram, NametableX) == Get(old(tram), NametableX) && Get(tram, NametableY) == Get(old(tram), NametableY)
      ensures tram & 0x8000 == old(tram) & 0x8000
    {
      if !latch {
        fineX := d % 8;
        tram := Set(tram, CoarseX, (d / 8) as bv16);
        latch := true;
      } else {
        tram := Set(tram, FineY, (d % 8) as bv16);
        tram := Set(tram, CoarseY, (d / 8) as bv16);
        latch := false;
      }
    }

    /** `write_addr`: high six bits first, then the low byte, which also
        copies the latch into the address register. */
    method WriteAddr(d: byte)
      requires Valid()
      modifies this`tram, this`vram, this`latch
      ensures Valid()
      ensures tram == AddrLatch(old(tram), d, !old(latch)) && latch == !old(latch)
      ensures vram == if old(latch) then tram else old(vram)
    {
      tram := AddrLatch(tram, d, !latch);
      if !latch {
        latch := true;
      } else {
        vram := tram;
        latch := false;
      }
    }

    /** `write_data`: the byte goes to the PPU address, which then steps
        across or down. */
    method WriteData(d: byte)
      requires Valid()
      modifies this`vram, names, palette, cart
      ensures Valid() && cart.mapper == old(cart.mapper) && CartImage() == old(CartImage())
      ensures Wrote(old(vram) as int, d, old(names[..]), old(palette[..]), old(cart.chrRam))
      ensures vram == Stepped(old(vram), Flag(ctrl, IncrementMode))
    {
      PpuWrite(vram as int, d);
      vram := Stepped(vram, Flag(ctrl, IncrementMode));
    }

    /** `write_oamaddr` */
    method WriteOamAddr(d: byte)
      requires Valid()
      modifies this`oamAddr
      ensures Valid() && oamAddr == d
    {
      oamAddr := d;
    }

    /** `write_oamdata`: one byte of OAM at OAMADDR, which does not move. */
    method WriteOamData(d: byte)
      requires Valid()
      modifies oam
      ensures oam[..] == old(oam[..])[oamAddr := d]
      ensures OamData() == d
    {
      oam[oamAddr] := d;
    }

    // ---------------------------------------------------------- scrolling

    /** `IncrementScrollX`, only while rendering. */
    method IncrementScrollX()
      requires Valid()
      modifies this`vram
      ensures Valid()
      ensures vram == if Rendering() then ScrolledX(old(vram)) else old(vram)
    {
      if Rendering() {
        vram := ScrolledX(vram);
      }
    }

    /** `IncrementScrollY`, only while rendering. */
    method IncrementScrollY()
      requires Valid()
      modifies this`vram
      ensures Valid()
      ensures vram == if Rendering() then ScrolledY(old(vram)) else old(vram)
    {
      if Rendering() {
        vram := ScrolledY(vram);
      }
    }

    /** `TransferAddressX`, only while rendering. */
    method TransferAddressX()
      requires Valid()
      modifies this`vram
      ensures Valid()
      ensures vram == if Rendering() then TransferredX(old(vram), tram) else old(vram)
    {
      if Rendering() {
        vram := TransferredX(vram, tram);
      }
    }

    /** `TransferAddressY`, only while rendering. */
    method TransferAddressY()
      requires Valid()
      modifies this`vram
      ensures Valid()
      ensures vram == if Rendering() then TransferredY(old(vram), tram) else old(vram)
    {
      if Rendering() {
        vram := TransferredY(vram, tram);
      }
    }

    // ---------------------------------------------------------- background

    /** `LoadBackgroundShifters` */
    method LoadBackgroundShifters()
      requires Valid()
      modifies this`bg
      ensures Valid() && bg == Loaded(old(bg), next)
    {
      bg := Loaded(bg, next);
    }

    /** The address of the pattern byte of the next tile's row, plane 0 or 8. */
    function PatternAddress(plane: nat): (a: word)
      requires plane == 0 || plane == 8
      reads this
      ensures a < 0x2000
    {
      BackgroundRowAddress(Flag(ctrl, PatternBackground), next.id, Get(vram, FineY), plane)
    }

    /** The eight-cycle background fetch of `clock`, by the cycle's phase:
        tile id (after loading the shifters), attribute bits, low plane,
        high plane, then a step right; the odd phases do nothing. */
    method FetchBackground()
      requires Valid() && 2 <= beam.cycle
      modifies this`bg, this`next, this`vram
      ensures Valid()
      ensures var p := (beam.cycle - 1) % 8;
              && bg == (if p == 0 then Loaded(old(bg), old(next)) else old(bg))
              && next == (if p == 0 then old(next.(id := PpuRead(TileAddress(vram) as int)))
                          else if p == 2 then old(next.(attrib := AttributeBits(PpuRead(AttributeAddress(vram) as int) as bv8, vram)))
                          else if p == 4 then old(next.(lsb := PpuRead(PatternAddress(0)) as bv8))
                          else if p == 6 then old(next.(msb := PpuRead(PatternAddress(8)) as bv8))
                          else old(next))
              && vram == if p == 7 && Rendering() then ScrolledX(old(vram)) else old(vram)
    {
      var phase := (beam.cycle - 1) % 8;
      if phase == 0 {
        LoadBackgroundShifters();
        next := next.(id := PpuRead(TileAddress(vram) as int));
      } else if phase == 2 {
        next := next.(attrib := AttributeBits(PpuRead(AttributeAddress(vram) as int) as bv8, vram));
      } else if phase == 4 {
        next := next.(lsb := PpuRead(PatternAddress(0)) as bv8);
      } else if phase == 6 {
        next := next.(msb := PpuRead(PatternAddress(8)) as bv8);
      } else if phase == 7 {
        IncrementScrollX();
      }
    }

    /** The background pixel and palette of this cycle, when the background
        is shown here. */
    function Background(): (r: (nat, nat))
      requires Valid()
      reads this, cart
      ensures r.0 < 4 && r.1 < 4
      ensures !(Flag(mask, RenderBackground) && (Flag(mask, RenderBackgroundLeft) || beam.cycle >= 9)) ==> r == (0, 0)
    {
      if Flag(mask, RenderBackground) && (Flag(mask, RenderBackgroundLeft) || beam.cycle >= 9) then
        Pixel(bg, fineX)
      else (0, 0)
    }

    // ---------------------------------------------------------- sprites

    predicate SpritesMove()
      reads this
    {
      Flag(mask, RenderSprites) && 1 <= beam.cycle < 258
    }

    /** `UpdateShifters`: the background shifters move one pixel when the
        background is rendered, and each taken sprite takes one `SpriteStep`
        when sprites are rendered on cycles 1-257. */
    method UpdateShifters()
      requires Valid()
      modifies this`bg, line, spriteLo, spriteHi
      ensures Valid()
      ensures bg == if Flag(mask, RenderBackground) then Shifted(old(bg)) else old(bg)
      ensures forall k :: 0 <= k < 8 ==>
                (line[k], spriteLo[k], spriteHi[k])
                == if k < spriteCount && SpritesMove() then SpriteStep(old(line[k]), old(spriteLo[k]), old(spriteHi[k]))
                   else (old(line[k]), old(spriteLo[k]), old(spriteHi[k]))
    {
      if Flag(mask, RenderBackground) {
        bg := Shifted(bg);
      }
      if SpritesMove() {
        ghost var l, lo, hi := line[..], spriteLo[..], spriteHi[..];
        var i := 0;
        while i < spriteCount
          invariant 0 <= i <= spriteCount
          invariant bg == if Flag(mask, RenderBackground) then Shifted(old(bg)) else old(bg)
          invariant forall k :: 0 <= k < i ==> (line[k], spriteLo[k], spriteHi[k]) == SpriteStep(l[k], lo[k], hi[k])
          invariant forall k :: i <= k < 8 ==> (line[k], spriteLo[k], spriteHi[k]) == (l[k], lo[k], hi[k])
        {
          var step := SpriteStep(line[i], spriteLo[i], spriteHi[i]);
          line[i], spriteLo[i], spriteHi[i] := step.0, step.1, step.2;
          i := i + 1;
        }
      }
    }

    function Height(): nat
      reads this
    {
      if Flag(ctrl, SpriteSize) then 16 else 8
    }

    /** The `memset` of both sprite pattern shifters to zero. */
    method ClearSpriteShifters()
      requires Valid()
      modifies spriteLo, spriteHi
      ensures forall k :: 0 <= k < 8 ==> spriteLo[k] == 0 && spriteHi[k] == 0
    {
      forall k | 0 <= k < 8 {
        spriteLo[k] := 0;
      }
      forall k | 0 <= k < 8 {
        spriteHi[k] := 0;
      }
    }

    /** Sprite evaluation at cycle 257 of a visible line: the line is filled
        with the first eight OAM entries on the next line, in OAM order, the
        rest blank; the pattern shifters are cleared; sprite zero may hit
        exactly when entry 0 was taken; and the overflow flag is set when
        eight were taken. */
    method EvaluateSprites()
      requires Valid() && 0 <= beam.scanline
      modifies this`spriteCount, this`zeroPossible, this`status, line, spriteLo, spriteHi
      ensures Valid()
      ensures var s := Selected(oam[..], beam.scanline, Height(), 64);
              && spriteCount == |s|
              && (forall k :: 0 <= k < 8 ==> line[k] == if k < |s| then Entry(oam[..], s[k]) else Blank)
              && zeroPossible == (0 in s)
              && status == WithFlag(old(status), SpriteOverflow, |s| >= 8)
      ensures forall k :: 0 <= k < 8 ==> spriteLo[k] == 0 && spriteHi[k] == 0
    {
      ClearSpriteShifters();
      var count := SelectSprites();
      spriteCount := count;
      status := WithFlag(status, SpriteOverflow, count >= 8);
    }

    /** The OAM scan of sprite evaluation: a blank line, then each entry on
        the next line copied in while fewer than eight are taken. */
    method SelectSprites() returns (count: nat)
      requires Valid() && 0 <= beam.scanline
      modifies this`zeroPossible, line
      ensures var s := Selected(oam[..], beam.scanline, Height(), 64);
              && count == |s|
              && (forall k :: 0 <= k < 8 ==> line[k] == if k < |s| then Entry(oam[..], s[k]) else Blank)
              && zeroPossible == (0 in s)
    {
      forall k | 0 <= k < 8 {
        line[k] := Blank;
      }
      count := 0;
      var entry := 0;
      zeroPossible := false;
      ghost var o := oam[..];
      var y, height := beam.scanline, Height();
      while entry < 64 && count < 9
        invariant 0 <= entry <= 64 && o == oam[..] && oam.Length == 256
        invariant count == |Selected(o, y, height, entry)|
        invariant forall k :: 0 <= k < 8 ==>
                    line[k] == if k < count then Entry(o, Selected(o, y, height, entry)[k]) else Blank
        invariant zeroPossible == (0 in Selected(o, y, height, entry))
        decreases 64 - entry
      {
        var diff := y - oam[4 * entry];
        if 0 <= diff < height && count < 8 {
          if entry == 0 {
            zeroPossible := true;
          }
          line[count] := Sprite(oam[4 * entry], oam[4 * entry + 1], oam[4 * entry + 2], oam[4 * entry + 3]);
          count := count + 1;
        }
        entry := entry + 1;
      }
    }

    /** One pattern plane of a sprite line entry's row, as cycle 340 loads
        it: read at the row address (the high plane 8 further on) and
        mirrored when attribute bit 6 asks for a horizontal flip. */
    function SpritePlane(e: Sprite, hi: bool): bv8
      requires Valid()
      reads this, cart, names, palette
    {
      var lo := SpriteRowAddress(e, beam.scanline, Flag(ctrl, SpriteSize), Flag(ctrl, PatternSprite));
      var bits := PpuRead(if hi then (lo + 8) % 0x10000 else lo) as bv8;
      if e.attribute / 0x40 % 2 == 1 then Flip(bits) else bits
    }

    /** The sprite fetch at cycle 340: both planes of each taken sprite's row
        into its shifters. */
    method LoadSpritePatterns()
      requires Valid()
      modifies spriteLo, spriteHi
      ensures forall k :: 0 <= k < 8 ==>
                if k < spriteCount then spriteLo[k] == old(SpritePlane(line[k], false)) && spriteHi[k] == old(SpritePlane(line[k], true))
                else spriteLo[k] == old(spriteLo[k]) && spriteHi[k] == old(spriteHi[k])
    {
      var i := 0;
      while i < spriteCount
        invariant 0 <= i <= spriteCount
        invariant forall k :: 0 <= k < i ==>
                    spriteLo[k] == old(SpritePlane(line[k], false)) && spriteHi[k] == old(SpritePlane(line[k], true))
        invariant forall k :: i <= k < 8 ==> spriteLo[k] == old(spriteLo[k]) && spriteHi[k] == old(spriteHi[k])
      {
        LoadSprite(i);
        i := i + 1;
      }
    }

    /** One sprite of the cycle-340 fetch. */
    method LoadSprite(i: nat)
      requires Valid() && i < 8
      modifies spriteLo, spriteHi
      ensures spriteLo[..] == old(spriteLo[..])[i := old(SpritePlane(line[i], false))]
      ensures spriteHi[..] == old(spriteHi[..])[i := old(SpritePlane(line[i], true))]
    {
      var lo, hi := SpritePlane(line[i], false), SpritePlane(line[i], true);
      spriteLo[i], spriteHi[i] := lo, hi;
    }

    predicate SpritesShown()
      reads this
    {
      Flag(mask, RenderSprites) && (Flag(mask, RenderSpritesLeft) || beam.cycle >= 9)
    }

    /** The foreground of this cycle: (pixel, palette, in front, index of the
        sprite drawn or the sprite count). */
    function Foreground(): (r: (nat, nat, bool, nat))
      requires Valid()
      reads this, cart, line, spriteLo, spriteHi
      ensures r.0 < 4 && r.3 <= spriteCount
      ensures r.0 != 0 <==> SpritesShown() && r.3 < spriteCount
    {
      if SpritesShown() then FrontSprite(line[..], spriteLo[..], spriteHi[..], spriteCount, 0, (0, 0, false))
      else (0, 0, false, spriteCount)
    }

    /** The foreground loop of `clock`: the first taken sprite at its X with
        an opaque pixel, noting whether it is sprite 0 of the line. */
    method SpritePixel() returns (pixel: nat, pal: nat, front: bool)
      requires Valid()
      modifies this`zeroRendered
      ensures Valid()
      ensures (pixel, pal, front) == (Foreground().0, Foreground().1, Foreground().2)
      ensures zeroRendered == if SpritesShown() then Foreground().3 == 0 && pixel != 0 else old(zeroRendered)
    {
      pixel, pal, front := 0, 0, false;
      if SpritesShown() {
        zeroRendered := false;
        var i := 0;
        while i < spriteCount
          invariant 0 <= i <= spriteCount && pixel == 0 && !zeroRendered
          invariant FrontSprite(line[..], spriteLo[..], spriteHi[..], spriteCount, i, (0, pal, front)) == Foreground()
        {
          if line[i].x == 0 {
            pixel := (if spriteHi[i] & 0x80 != 0 then 2 else 0) + (if spriteLo[i] & 0x80 != 0 then 1 else 0);
            pal := SpritePalette(line[i]);
            front := SpriteInFront(line[i]);
            if pixel != 0 {
              if i == 0 {
                zeroRendered := true;
              }
              break;
            }
          }
          i := i + 1;
        }
      }
    }

    // ---------------------------------------------------------- composition

    /** Sprite zero hits the background: both pixels opaque, sprite 0 taken
        and drawn, both layers on, and the cycle past the left eight pixels
        unless one of the layers is shown there. */
    predicate ZeroHit(bgPixel: nat, fgPixel: nat)
      reads this
      ensures ZeroHit(bgPixel, fgPixel) ==> 1 <= beam.cycle < 258
      ensures ZeroHit(bgPixel, fgPixel) && beam.cycle < 9 ==> Flag(mask, RenderBackgroundLeft) || Flag(mask, RenderSpritesLeft)
    {
      && bgPixel > 0 && fgPixel > 0 && zeroPossible && zeroRendered
      && Flag(mask, RenderBackground) && Flag(mask, RenderSprites)
      && if !(Flag(mask, RenderBackgroundLeft) || Flag(mask, RenderSpritesLeft)) then 9 <= beam.cycle < 258
         else 1 <= beam.cycle < 258
    }

    /** The colour `clock` stores for a composed (pixel, palette): the palette
        entry read through `ppuRead`, cut to six bits. */
    function Colour(c: (nat, nat)): (v: byte)
      requires Valid()
      reads this, cart, names, palette
      ensures v < 0x40
    {
      PpuRead((0x3F00 + c.1 * 4 + c.0) % 0x10000) % 0x40
    }

    /** The (pixel, palette) the priority rule picks from this cycle's
        background and foreground. */
    function Composed(): (r: (nat, nat))
      requires Valid()
      reads this, cart, line, spriteLo, spriteHi
      ensures r.0 < 4
      ensures r.0 == 0 <==> Background().0 == 0 && Foreground().0 == 0
      ensures r.0 == 0 ==> r.1 == 0
    {
      var b := Background();
      var f := Foreground();
      Compose(b.0, b.1, f.0, f.1, f.2)
    }

    /** The composition part of `clock`: the winning pixel's colour goes to
        the frame at (cycle - 1, scanline) when that is on screen, and sprite
        zero hit is raised when due. */
    method ComposePixel()
      requires Valid()
      modifies this`zeroRendered, this`status, frame
      ensures Valid()
      ensures zeroRendered == old(if SpritesShown() then Foreground().3 == 0 && Foreground().0 != 0 else zeroRendered)
      ensures status == if ZeroHit(old(Background().0), old(Foreground().0)) then WithFlag(old(status), SpriteZeroHit, true)
                        else old(status)
      ensures Flag(status, VerticalBlank) == old(Flag(status, VerticalBlank))
      ensures old(Foreground().0) == 0 ==> status == old(status)
      ensures frame[..] == old(Plotted(frame[..], beam.cycle - 1, beam.scanline, Colour(Composed())))
    {
      var b := Background();
      var fgPixel, fgPalette, fgFront := SpritePixel();
      var c := Compose(b.0, b.1, fgPixel, fgPalette, fgFront);
      if ZeroHit(b.0, fgPixel) {
        status := WithFlag(status, SpriteZeroHit, true);
      }
      Plot(beam.cycle - 1, beam.scanline, Colour(c));
    }

    /** The store into `frame_data`, for positions on the screen only. */
    method Plot(x: int, y: int, v: byte)
      requires Valid()
      modifies frame
      ensures frame[..] == Plotted(old(frame[..]), x, y, v)
    {
      if 0 <= x < 256 && 0 <= y < 240 {
        frame[x * 240 + y] := v;
      }
    }

    // ---------------------------------------------------------- clock

    /** The part of `clock` for the pre-render and visible lines: the odd
        frame skip, the flag clear at (-1, 1), the background fetches and
        scroll steps, sprite evaluation and the sprite fetch. */
    method RenderPhase()
      requires Valid() && -1 <= beam.scanline < 240
      modifies this`beam, this`status, this`bg, this`next, this`vram,
               this`spriteCount, this`zeroPossible, line, spriteLo, spriteHi
      ensures Valid()
      ensures beam == if old(beam.scanline) == 0 && old(beam.cycle) == 0 && old(beam.oddFrame) && Rendering()
                      then old(beam).(cycle := 1) else old(beam)
      ensures Flag(status, VerticalBlank) == (old(Flag(status, VerticalBlank)) && !(beam.scanline == -1 && old(beam.cycle) == 1))
      ensures beam.scanline == -1 && old(beam.cycle) == 1 ==>
                !Flag(status, SpriteOverflow) && !Flag(status, SpriteZeroHit)
                && forall k :: 0 <= k < 8 ==> spriteLo[k] == 0 && spriteHi[k] == 0
    {
      StartLine();
      BackgroundPhase();
      SpritePhase();
    }

    /** The first two steps of `clock` on a rendered line: the skipped cycle
        0 of line 0 of an odd frame, and the flag and shifter clear at
        (-1, 1). */
    method StartLine()
      requires Valid() && -1 <= beam.scanline < 240
      modifies this`beam, this`status, spriteLo, spriteHi
      ensures Valid()
      ensures beam == if old(beam.scanline) == 0 && old(beam.cycle) == 0 && old(beam.oddFrame) && Rendering()
                      then old(beam).(cycle := 1) else old(beam)
      ensures status == if beam.scanline == -1 && beam.cycle == 1
                        then WithFlag(WithFlag(WithFlag(old(status), VerticalBlank, false), SpriteOverflow, false), SpriteZeroHit, false)
                        else old(status)
      ensures beam.scanline == -1 && beam.cycle == 1 ==> forall k :: 0 <= k < 8 ==> spriteLo[k] == 0 && spriteHi[k] == 0
    {
      if beam.scanline == 0 && beam.cycle == 0 && beam.oddFrame && Rendering() {
        beam := beam.(cycle := 1);
      }
      if beam.scanline == -1 && beam.cycle == 1 {
        status := WithFlag(WithFlag(WithFlag(status, VerticalBlank, false), SpriteOverflow, false), SpriteZeroHit, false);
        ClearSpriteShifters();
      }
    }

    /** The background steps of `clock`: shifter updates and the eight-cycle
        fetch on cycles 2-257 and 321-337, the step down at 256, the reload
        and horizontal copy at 257, the extra tile id reads at 338 and 340,
        and the vertical copy on cycles 280-304 of the pre-render line. */
    method BackgroundPhase()
      requires Valid() && -1 <= beam.scanline < 240
      modifies this`bg, this`next, this`vram, line, spriteLo, spriteHi
      ensures Valid()
      ensures beam.cycle == 1 ==> forall k :: 0 <= k < 8 ==> spriteLo[k] == old(spriteLo[k]) && spriteHi[k] == old(spriteHi[k])
    {
      var cycle := beam.cycle;
      if (2 <= cycle < 258) || (321 <= cycle < 338) {
        UpdateShifters();
        FetchBackground();
      }
      if cycle == 256 {
        IncrementScrollY();
      }
      if cycle == 257 {
        LoadBackgroundShifters();
        TransferAddressX();
      }
      if cycle == 338 || cycle == 340 {
        next := next.(id := PpuRead(TileAddress(vram) as int));
      }
      if beam.scanline == -1 && 280 <= cycle < 305 {
        TransferAddressY();
      }
    }

    /** The sprite steps of `clock`: evaluation for the next line at cycle
        257 of a visible line, and the pattern fetch at cycle 340. */
    method SpritePhase()
      requires Valid() && -1 <= beam.scanline < 240
      modifies this`spriteCount, this`zeroPossible, this`status, line, spriteLo, spriteHi
      ensures Valid()
      ensures status == if beam.cycle == 257 && beam.scanline >= 0
                        then WithFlag(old(status), SpriteOverflow, |Selected(old(oam[..]), beam.scanline, Height(), 64)| >= 8)
                        else old(status)
      ensures beam.cycle == 1 ==> forall k :: 0 <= k < 8 ==> spriteLo[k] == old(spriteLo[k]) && spriteHi[k] == old(spriteHi[k])
    {
      if beam.cycle == 257 && beam.scanline >= 0 {
        EvaluateSprites();
      }
      if beam.cycle == 340 {
        LoadSpritePatterns();
      }
    }

    /** The NMI line after a cycle: raised at (241, 1) when PPUCTRL enables
        NMI, otherwise as it was. */
    predicate NmiRaised()
      reads this
    {
      nmi || (beam.scanline == 241 && beam.cycle == 1 && Flag(ctrl, EnableNmi))
    }

    /** Cycle 1 of line 241: vertical blank begins, with an NMI when
        PPUCTRL enables it. */
    method StartVerticalBlank()
      modifies this`status, this`nmi
      ensures status == WithFlag(old(status), VerticalBlank, true)
      ensures nmi == (old(nmi) || Flag(ctrl, EnableNmi))
    {
      status := WithFlag(status, VerticalBlank, true);
      if Flag(ctrl, EnableNmi) {
        nmi := true;
      }
    }

    /** The end of `clock`: one cycle on, the mapper's scanline hook at
        cycle 260 of a visible or pre-render line while rendering, then the
        wrap to the next line and, after line 260, to a new frame. */
    method Advance()
      requires Valid()
      modifies this`beam, cart
      ensures Valid() && CartImage() == old(CartImage()) && cart.chrRam == old(cart.chrRam)
      ensures beam == Tick(old(beam), false)
      ensures cart.mapper == if Rendering() && old(beam.cycle) == 259 && old(beam.scanline) < 240
                             then Some(Mappers.Scanline(old(cart.mapper).value)) else old(cart.mapper)
    {
      beam := beam.(cycle := beam.cycle + 1);
      if Rendering() && beam.cycle == 260 && beam.scanline < 240 {
        cart.ScanlineHook();
      }
      if beam.cycle >= 341 {
        beam := beam.(cycle := 0, scanline := beam.scanline + 1);
        if beam.scanline >= 261 {
          beam := Beam(-1, beam.cycle, !beam.oddFrame, true);
        }
      }
    }

    /** `clock`: one PPU cycle. The beam moves as `Tick` says; vertical blank
        starts at (241, 1), raising NMI when PPUCTRL enables it, and ends at
        (-1, 1), where overflow and sprite zero hit are cleared too; the
        mapper sees the scanline hook. */
    method Clock()
      requires Valid()
      modifies this`beam, this`status, this`nmi, this`bg, this`next, this`vram, this`spriteCount,
               this`zeroPossible, this`zeroRendered, line, spriteLo, spriteHi, frame, cart
      ensures Valid() && CartImage() == old(CartImage()) && cart.chrRam == old(cart.chrRam)
      ensures beam == Tick(old(beam), old(Rendering()))
      ensures old(beam.scanline) == 241 && old(beam.cycle) == 1 ==> Flag(status, VerticalBlank)
      ensures nmi == old(NmiRaised())
      ensures old(beam.scanline) == -1 && old(beam.cycle) == 1 ==>
                !Flag(status, VerticalBlank) && !Flag(status, SpriteOverflow) && !Flag(status, SpriteZeroHit)
      ensures !(old(beam.scanline) in {241, -1} && old(beam.cycle) == 1) ==>
                Flag(status, VerticalBlank) == old(Flag(status, VerticalBlank))
      ensures cart.mapper == if old(Rendering()) && old(beam.cycle) == 259 && old(beam.scanline) < 240
                             then Some(Mappers.Scanline(old(cart.mapper).value)) else old(cart.mapper)
    {
      Draw();
      Advance();
    }

    /** All of `clock` but the advance of the beam: the line's steps, then
        the pixel. */
    method Draw()
      requires Valid()
      modifies this`beam, this`status, this`nmi, this`bg, this`next, this`vram, this`spriteCount,
               this`zeroPossible, this`zeroRendered, line, spriteLo, spriteHi, frame
      ensures Valid()
      ensures beam == if old(beam.scanline) == 0 && old(beam.cycle) == 0 && old(beam.oddFrame) && Rendering()
                      then old(beam).(cycle := 1) else old(beam)
      ensures old(beam.scanline) == 241 && old(beam.cycle) == 1 ==> Flag(status, VerticalBlank)
      ensures nmi == old(NmiRaised())
      ensures old(beam.scanline) == -1 && old(beam.cycle) == 1 ==>
                !Flag(status, VerticalBlank) && !Flag(status, SpriteOverflow) && !Flag(status, SpriteZeroHit)
      ensures !(old(beam.scanline) in {241, -1} && old(beam.cycle) == 1) ==>
                Flag(status, VerticalBlank) == old(Flag(status, VerticalBlank))
    {
      LinePhase();
      ComposePixel();
    }

    /** The steps of `clock` before composition: the rendering steps on lines
        -1 to 239 and the start of vertical blank on line 241. At (-1, 1) no
        sprite pixel can show afterwards, the shifters being clear. */
    method LinePhase()
      requires Valid()
      modifies this`beam, this`status, this`nmi, this`bg, this`next, this`vram,
               this`spriteCount, this`zeroPossible, line, spriteLo, spriteHi
      ensures Valid()
      ensures beam == if old(beam.scanline) == 0 && old(beam.cycle) == 0 && old(beam.oddFrame) && Rendering()
                      then old(beam).(cycle := 1) else old(beam)
      ensures old(beam.scanline) == 241 && old(beam.cycle) == 1 ==> Flag(status, VerticalBlank)
      ensures nmi == old(NmiRaised())
      ensures old(beam.scanline) == -1 && old(beam.cycle) == 1 ==>
                !Flag(status, VerticalBlank) && !Flag(status, SpriteOverflow) && !Flag(status, SpriteZeroHit)
                && Foreground().0 == 0
      ensures !(old(beam.scanline) in {241, -1} && old(beam.cycle) == 1) ==>
                Flag(status, VerticalBlank) == old(Flag(status, VerticalBlank))
    {
      if -1 <= beam.scanline < 240 {
        RenderPhase();
      }
      if beam.scanline == 241 && beam.cycle == 1 {
        StartVerticalBlank();
      }
      if old(beam.scanline) == -1 && old(beam.cycle) == 1 {
        NoSpritePixelWhenCleared();
      }
    }

    /** With both pattern planes of every taken sprite clear, no sprite pixel
        shows. */
    lemma NoSpritePixelWhenCleared()
      requires Valid() && forall k :: 0 <= k < 8 ==> spriteLo[k] == 0 && spriteHi[k] == 0
      ensures Foreground().0 == 0
    {
      if SpritesShown() {
        ClearedShiftersTransparent(line[..], spriteLo[..], spriteHi[..], spriteCount, 0, (0, 0, false));
      }
    }
  }

  /** A frame of 256 x 240 colour indices, column by column, after the pixel
      (x, y) is set to `v`; a position off the screen leaves it unchanged. */
  function Plotted(f: seq<byte>, x: int, y: int, v: byte): (r: seq<byte>)
    requires |f| == 256 * 240
    ensures |r| == |f|
    ensures 0 <= x < 256 && 0 <= y < 240 ==> r[x * 240 + y] == v
    ensures forall k :: 0 <= k < |f| && !(0 <= x < 256 && 0 <= y < 240 && k == x * 240 + y) ==> r[k] == f[k]
  {
    if 0 <= x < 256 && 0 <= y < 240 then f[x * 240 + y := v] else f
  }

  /** One sprite of `UpdateShifters`: its X counter counts down to zero,
      after which its two pattern planes move one pixel left. */
  function SpriteStep(e: Sprite, lo: bv8, hi: bv8): (r: (Sprite, bv8, bv8))
    ensures r.0.x == if e.x > 0 then e.x - 1 else 0
  {
    if e.x > 0 then (e.(x := e.x - 1), lo, hi) else (e, lo << 1, hi << 1)
  }

  /** The sprite scan finds no opaque pixel when every pattern plane is clear. */
  lemma {:induction false} ClearedShiftersTransparent(line: seq<Sprite>, lo: seq<bv8>, hi: seq<bv8>, count: nat, i: nat, acc: (nat, nat, bool))
    requires |line| == 8 && |lo| == 8 && |hi| == 8 && count <= 8 && i <= count
    requires forall k :: 0 <= k < 8 ==> lo[k] == 0 && hi[k] == 0
    ensures FrontSprite(line, lo, hi, count, i, acc).0 == 0
    decreases count - i
  {
    if i < count {
      var a := if line[i].x == 0 then (0, SpritePalette(line[i]), SpriteInFront(line[i])) else acc;
      ClearedShiftersTransparent(line, lo, hi, count, i + 1, a);
    }
  }
}
