/** The cartridge of cartridge.cpp: the iNES image loader and the CPU/PPU
    read and write paths through the board's mapper. The mapper object's own
    memories (8 KB of PRG-RAM, 8 KB of CHR-RAM) are fields here. */
module Cart {
  import opened Bits
  import opened Mappers

  /** Why loading an image fails. `Truncated` stands for the images the
      loader reads past the end of (it never checks the length). */
  datatype LoadError = Truncated | NotNesRom | UnsupportedMapper(id: byte)
  datatype LoadResult = Loaded | Failed(err: LoadError)

  const HeaderSize: nat := 16
  const PrgBankSize: nat := 0x4000
  const ChrBankSize: nat := 0x2000

  /** The four-byte signature "NES" 0x1A. */
  predicate HasSignature(file: seq<byte>)
    requires |file| >= 4
  {
    file[0] == 'N' as int && file[1] == 'E' as int && file[2] == 'S' as int && file[3] == 0x1A
  }

  /** Mapper number: high nibble from byte 7, low nibble from byte 6. */
  function MapperId(h6: byte, h7: byte): (id: byte)
    ensures id / 0x10 == h7 / 0x10 && id % 0x10 == h6 / 0x10
  {
    (h7 / 0x10) * 0x10 + h6 / 0x10
  }

  /** Mirroring kept from byte 6: `h6 & 0x0B`, bits 0, 1 and 3. */
  function HeaderMirror(h6: byte): (r: byte)
    ensures r % 4 == h6 % 4 && r / 8 % 2 == h6 / 8 % 2
    ensures r / 4 % 2 == 0 && r < 0x10
  {
    h6 % 4 + (h6 / 8 % 2) * 8
  }

  /** Size of the whole image the header declares. */
  function ImageSize(rom: byte, vrom: byte): nat
  {
    HeaderSize + rom * PrgBankSize + vrom * ChrBankSize
  }

  function Zeros(n: nat): (z: seq<byte>)
    ensures |z| == n && forall i :: 0 <= i < n ==> z[i] == 0
  {
    seq(n, _ => 0)
  }

  class Cartridge {
    var romNum: byte
    var vromNum: byte
    var prg: seq<byte>
    var chr: seq<byte>
    var mapperId: byte
    var prgRamSize: byte
    var mapper: Option<Mapper>
    /** `mapper->addram` */
    var prgRam: seq<byte>
    /** `mapper->character_ram_ptr` */
    var chrRam: seq<byte>

    /** A loaded cartridge: the mapper agrees with the header counts, the ROM
        images have the declared sizes, and both RAMs are 8 KB. */
    ghost predicate Valid()
      reads this
    {
      && |prgRam| == 0x2000 && |chrRam| == 0x2000
      && (mapper.Some? ==>
            && Mappers.Valid(mapper.value)
            && mapper.value.romNum == romNum && mapper.value.vromNum == vromNum
            && |prg| == romNum * PrgBankSize && |chr| == vromNum * ChrBankSize)
    }

    /** `Cartridge()` runs `reset`: no image and no mapper. */
    constructor ()
      ensures Valid() && mapper.None?
      ensures romNum == 0 && vromNum == 0 && mapperId == 0 && prgRamSize == 0
      ensures prg == [] && chr == []
    {
      romNum, vromNum, mapperId, prgRamSize := 0, 0, 0, 0;
      prg, chr := [], [];
      mapper := None;
      prgRam, chrRam := Zeros(0x2000), Zeros(0x2000);
    }

    /** `reset`: drop the image and the mapper, zero the header fields. */
    method Reset()
      modifies this
      ensures Valid() && mapper.None?
      ensures romNum == 0 && vromNum == 0 && mapperId == 0 && prgRamSize == 0
      ensures prg == [] && chr == []
    {
      romNum, vromNum, mapperId, prgRamSize := 0, 0, 0, 0;
      prg, chr := [], [];
      mapper := None;
      prgRam, chrRam := Zeros(0x2000), Zeros(0x2000);
    }

    /** `read_from_file`, on the file's bytes: check the signature (a file
        too short to hold it, or the rest of the header, is `Truncated`), take the
        counts, mirroring and mapper number from the header, build the mapper,
        then split off the PRG and CHR images that follow the 16-byte header.
        The header fields are already stored when the mapper turns out to be
        unsupported. The caller resets the cartridge first, so no mapper is
        installed on entry. */
    method Load(file: seq<byte>) returns (r: LoadResult)
      requires Valid() && mapper.None?
      modifies this
      ensures Valid()
      ensures |file| < 4 ==> r == Failed(Truncated)
      ensures |file| >= 4 && !HasSignature(file) ==> r == Failed(NotNesRom)
      ensures 4 <= |file| < HeaderSize && HasSignature(file) ==> r == Failed(Truncated)
      ensures r.Failed? && r.err != Truncated && r.err != NotNesRom ==>
                r.err == UnsupportedMapper(MapperId(file[6], file[7]))
      ensures |file| >= HeaderSize && HasSignature(file) && !Supported(MapperId(file[6], file[7])) ==>
                r == Failed(UnsupportedMapper(MapperId(file[6], file[7])))
      ensures r == Loaded <==>
                && |file| >= HeaderSize && HasSignature(file) && Supported(MapperId(file[6], file[7]))
                && |file| >= ImageSize(file[4], file[5])
      ensures r == Loaded ==>
                var rom := file[4];
                var vrom := file[5];
                && romNum == rom && vromNum == vrom
                && mapperId == MapperId(file[6], file[7]) && prgRamSize == file[8]
                && mapper == Some(NewMapper(mapperId, rom, vrom, HeaderMirror(file[6])))
                && prg == file[HeaderSize .. HeaderSize + rom * PrgBankSize]
                && chr == file[HeaderSize + rom * PrgBankSize .. ImageSize(rom, vrom)]
      ensures r.Failed? ==> mapper.None?
    {
      if |file| < 4 {
        return Failed(Truncated);
      }
      if !HasSignature(file) {
        return Failed(NotNesRom);
      }
      if |file| < HeaderSize {
        return Failed(Truncated);
      }
      var rom, vrom := file[4], file[5];
      var mirror := HeaderMirror(file[6]);
      var id := MapperId(file[6], file[7]);
      if !Supported(id) {
        romNum, vromNum, mapperId, prgRamSize := rom, vrom, id, file[8];
        return Failed(UnsupportedMapper(id));
      }
      if |file| < ImageSize(rom, vrom) {
        return Failed(Truncated);
      }
      romNum, vromNum, mapperId, prgRamSize := rom, vrom, id, file[8];
      mapper := Some(NewMapper(id, rom, vrom, mirror));
      prgRam, chrRam := Zeros(0x2000), Zeros(0x2000);
      prg := file[HeaderSize .. HeaderSize + rom * PrgBankSize];
      chr := file[HeaderSize + rom * PrgBankSize .. ImageSize(rom, vrom)];
      r := Loaded;
    }

    /** `CpuRead`: PRG-RAM at 0x6000-0x7FFF when the board has it, PRG-ROM
        through the mapper at 0x8000 and above, 0 everywhere else. */
    function CpuRead(addr: word): (v: byte)
      requires Valid() && mapper.Some?
      reads this
      ensures addr < 0x6000 ==> v == 0
      ensures 0x6000 <= addr < 0x8000 ==>
                v == (if PrgRamOffset(mapper.value, addr) == NoRam then 0
                      else prgRam[PrgRamOffset(mapper.value, addr)])
      ensures 0x8000 <= addr && PrgOffset(mapper.value, addr) < |prg| ==>
                v == prg[PrgOffset(mapper.value, addr)]
    {
      if 0x6000 <= addr < 0x8000 then
        var off := PrgRamOffset(mapper.value, addr);
        if off != NoRam then prgRam[off] else 0
      else if 0x8000 <= addr then
        var off := PrgOffset(mapper.value, addr);
        if off < |prg| then prg[off] else 0
      else 0
    }

    /** `CpuWrite`: PRG-RAM at 0x6000-0x7FFF when the board has it; at 0x8000
        and above the mapper takes the byte as a register write. `ok` is false
        only for the CNROM write that divides by a zero CHR bank count. */
    method CpuWrite(addr: word, data: byte) returns (ok: bool)
      requires Valid() && mapper.Some?
      modifies this
      ensures Valid() && mapper.Some?
      ensures prg == old(prg) && chr == old(chr) && chrRam == old(chrRam)
      ensures romNum == old(romNum) && vromNum == old(vromNum)
      ensures addr < 0x6000 ==> ok && mapper == old(mapper) && prgRam == old(prgRam)
      ensures 0x6000 <= addr < 0x8000 ==>
                && ok && mapper == old(mapper)
                && var off := PrgRamOffset(old(mapper).value, addr);
                   prgRam == if off == NoRam then old(prgRam) else old(prgRam)[off := data]
      ensures 0x8000 <= addr ==>
                && prgRam == old(prgRam)
                && var w := WritePrg(old(mapper).value, addr, data);
                   && (ok <==> w.Some?)
                   && mapper == if w.Some? then w else old(mapper)
    {
      ok := true;
      if 0x6000 <= addr < 0x8000 {
        var off := PrgRamOffset(mapper.value, addr);
        if off != NoRam {
          prgRam := prgRam[off := data];
        }
      } else if 0x8000 <= addr {
        var w := WritePrg(mapper.value, addr, data);
        if w.Some? {
          mapper := w;
        } else {
          ok := false;
        }
      }
    }

    /** `PpuRead` of a pattern-table address: CHR-ROM through the mapper, or
        the CHR-RAM when the cartridge has no CHR-ROM. */
    function PpuRead(addr: word): (v: byte)
      requires Valid() && mapper.Some? && addr < 0x2000
      reads this
      ensures vromNum == 0 ==> v == chrRam[addr]
      ensures vromNum != 0 && ChrReadOffset(mapper.value, addr) < |chr| ==>
                v == chr[ChrReadOffset(mapper.value, addr)]
    {
      var off := ChrReadOffset(mapper.value, addr);
      if vromNum != 0 then (if off < |chr| then chr[off] else 0)
      else chrRam[off]
    }

    /** The mapper's `scanline` hook, which the PPU calls once per rendered
        line; only MMC3 reacts. */
    method ScanlineHook()
      requires Valid() && mapper.Some?
      modifies this
      ensures Valid() && mapper == Some(Scanline(old(mapper).value))
      ensures prg == old(prg) && chr == old(chr) && prgRam == old(prgRam) && chrRam == old(chrRam)
      ensures romNum == old(romNum) && vromNum == old(vromNum)
    {
      mapper := Some(Scanline(mapper.value));
    }

    /** `irqState` of the mapper. */
    predicate IrqPending()
      requires mapper.Some?
      reads this
    {
      IrqState(mapper.value)
    }

    /** The mapper's `irqClear`, called by the bus when it delivers the IRQ. */
    method IrqAcknowledge()
      requires Valid() && mapper.Some?
      modifies this
      ensures Valid() && mapper == Some(IrqClear(old(mapper).value)) && !IrqPending()
      ensures prg == old(prg) && chr == old(chr) && prgRam == old(prgRam) && chrRam == old(chrRam)
      ensures romNum == old(romNum) && vromNum == old(vromNum)
    {
      mapper := Some(IrqClear(mapper.value));
    }

    /** `PpuWrite`: CHR-RAM takes the byte; CHR-ROM is read-only. */
    method PpuWrite(addr: word, data: byte)
      requires Valid() && mapper.Some? && addr < 0x2000
      modifies this
      ensures Valid()
      ensures vromNum == 0 ==> chrRam == old(chrRam)[addr := data]
      ensures vromNum != 0 ==> chrRam == old(chrRam)
      ensures prg == old(prg) && chr == old(chr) && prgRam == old(prgRam) && mapper == old(mapper)
      ensures romNum == old(romNum) && vromNum == old(vromNum)
    {
      if vromNum == 0 {
        chrRam := chrRam[ChrWriteOffset(mapper.value, addr) := data];
      }
    }
  }

  /** PRG-RAM round trip: on MMC1 and MMC3, a byte the CPU writes at
      0x6000-0x7FFF reads back at the same address, and other addresses of the
      window keep their contents. */
  lemma {:induction false} PrgRamRoundTrip(m: Mapper, ram: seq<byte>, addr: word, other: word, data: byte)
    requires (m.board.Mmc1? || m.board.Mmc3?) && |ram| == 0x2000
    requires 0x6000 <= addr < 0x8000 && 0x6000 <= other < 0x8000
    ensures var ram' := ram[PrgRamOffset(m, addr) := data];
            && ram'[PrgRamOffset(m, addr)] == data
            && (other != addr ==> ram'[PrgRamOffset(m, other)] == ram[PrgRamOffset(m, other)])
  {
  }

  /** The header's mirroring bits are stored as they are, and only some of
      their combinations are a `MirrorMode`: without the four-screen bit,
      exactly those without the battery bit (horizontal 0 or vertical 1);
      with it, the values 9 and 10 happen to read as the one-screen modes. */
  lemma {:induction false} HeaderMirrorModes(h6: byte)
    ensures var r := HeaderMirror(h6);
            && (h6 / 8 % 2 == 0 ==>
                  (r in {Horizontal, Vertical, OneScreenLo, OneScreenHi} <==> h6 / 2 % 2 == 0))
            && (h6 / 8 % 2 == 0 && h6 / 2 % 2 == 0 ==> r == (if h6 % 2 == 1 then Vertical else Horizontal))
            && (h6 / 8 % 2 == 1 ==> (r == OneScreenLo <==> h6 % 4 == 1) && (r == OneScreenHi <==> h6 % 4 == 2))
  {
    var r := HeaderMirror(h6);
    assert r == h6 % 4 + (h6 / 8 % 2) * 8;
  }
}
