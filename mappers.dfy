/** The cartridge mappers of Mapper/: iNES boards 0 (NROM), 1 (MMC1),
    2 (UxROM), 3 (CNROM), 4 (MMC3) and 66 (GxROM). A mapper translates a CPU
    address in 0x6000-0xFFFF or a PPU pattern-table address into an offset in
    the cartridge's PRG-RAM, PRG-ROM or CHR memory, and register writes in
    0x8000-0xFFFF change its bank selection. Each board is a value here; the
    C++ `quint32` offsets are naturals below 2^32, wrapped where the C++ wraps. */
module Mappers {
  import opened Bits

  /** `MirrorMode`: the values `nametable_mirror` is compared against. Any
      other byte can be stored there too (the header's mirroring bits). */
  const Horizontal: byte := 0
  const Vertical: byte := 1
  const OneScreenLo: byte := 9
  const OneScreenHi: byte := 10

  /** What `cpu_read_addram` returns for a board without PRG-RAM. */
  const NoRam: nat := 0xFFFF

  /** Assignment of an `int` into a `quint32`. */
  function U32(x: int): (r: nat)
    ensures r < 0x1_0000_0000
    ensures 0 <= x < 0x1_0000_0000 ==> r == x
  {
    x % 0x1_0000_0000
  }

  /** The state each board keeps besides the common fields. */
  datatype Board =
    | Nrom
    | Mmc1(count: nat, load: byte, ctrl: byte,
           chrLo4: byte, chrHi4: byte, chr8: byte,
           prgLo16: byte, prgHi16: byte, prg32: byte)
    | Uxrom(prgLo: byte, prgHi: byte)
    | Cnrom(chrBank: byte)
    | Mmc3(target: byte, prgMode: bool, chrInversion: bool,
           regs: seq<byte>, chrBanks: seq<nat>, prgBanks: seq<nat>,
           irqActive: bool, irqEnable: bool, irqCounter: byte, irqReload: byte)
    | Gxrom(chrBank: byte, prgBank: byte)

  /** A `Mapper` object: the bank counts from the header (`rom_num` 16 KB PRG
      banks, `vrom_num` 8 KB CHR banks), the nametable mirroring, the board. */
  datatype Mapper = Mapper(romNum: byte, vromNum: byte, mirror: byte, board: Board)

  /** The invariant every board keeps between calls: the MMC1 shift register
      holds fewer than five bits, only in its low five bits; the MMC3 tables
      have their fixed sizes and the target register index is below 8. */
  ghost predicate Valid(m: Mapper)
  {
    match m.board
    case Mmc1(count, load, ctrl, _, _, _, _, _, _) => count < 5 && load < 0x20 && ctrl < 0x20
    case Mmc3(target, _, _, regs, chr, prg, _, _, _, _) =>
      target < 8 && |regs| == 8 && |chr| == 8 && |prg| == 4
      && (forall i :: 0 <= i < 8 ==> chr[i] < 0x1_0000_0000)
      && (forall i :: 0 <= i < 4 ==> prg[i] < 0x1_0000_0000)
      && prg[3] == Mmc3LastBank(m.romNum)
    case _ => true
  }

  /** The mapper ids the cartridge loader knows. */
  predicate Supported(id: byte)
  {
    id in {0, 1, 2, 3, 4, 66}
  }

  /** The last PRG window of MMC3 and the one it swaps: `(rom_num * 2 - 1)`
      and `(rom_num * 2 - 2)` 8 KB banks, computed in `int` and stored in a
      `quint32` (so they wrap for an empty PRG-ROM). */
  function Mmc3LastBank(rom: byte): (r: nat)
    ensures 1 <= rom ==> r == (2 * rom - 1) * 0x2000
  {
    U32((rom * 2 - 1) * 0x2000)
  }

  function Mmc3SecondLastBank(rom: byte): (r: nat)
    ensures 1 <= rom ==> r == (2 * rom - 2) * 0x2000
  {
    U32((rom * 2 - 2) * 0x2000)
  }

  /** The constructors of the six boards, with the mirroring the header gave. */
  function NewMapper(id: byte, rom: byte, vrom: byte, mirror: byte): (m: Mapper)
    requires Supported(id)
    ensures Valid(m)
    ensures m.romNum == rom && m.vromNum == vrom && m.mirror == mirror
    ensures id == 0 <==> m.board.Nrom?
    ensures id == 1 <==> m.board.Mmc1?
    ensures id == 2 <==> m.board.Uxrom?
    ensures id == 3 <==> m.board.Cnrom?
    ensures id == 4 <==> m.board.Mmc3?
    ensures id == 66 <==> m.board.Gxrom?
    ensures m.board.Mmc1? ==>
              && m.board.count == 0 && m.board.load == 0 && m.board.ctrl == 0x1C
              && m.board.chrLo4 == 0 && m.board.chrHi4 == 0 && m.board.chr8 == 0
              && m.board.prgLo16 == 0 && m.board.prgHi16 == AddB(rom, -1) && m.board.prg32 == 0
    ensures m.board.Uxrom? ==> m.board.prgLo == 0 && m.board.prgHi == AddB(rom, -1)
    ensures m.board.Cnrom? ==> m.board.chrBank == 0
    ensures m.board.Gxrom? ==> m.board.chrBank == 0 && m.board.prgBank == 0
    ensures m.board.Mmc3? ==>
              && m.board.target == 0 && !m.board.prgMode && !m.board.chrInversion
              && (forall i :: 0 <= i < 8 ==> m.board.regs[i] == 0 && m.board.chrBanks[i] == 0)
              && m.board.prgBanks == [0, 0x2000, Mmc3SecondLastBank(rom), Mmc3LastBank(rom)]
              && !m.board.irqActive && !m.board.irqEnable
              && m.board.irqCounter == 0 && m.board.irqReload == 0
  {
    var b :=
      if id == 0 then Nrom
      else if id == 1 then Mmc1(0, 0, 0x1C, 0, 0, 0, 0, AddB(rom, -1), 0)
      else if id == 2 then Uxrom(0, AddB(rom, -1))
      else if id == 3 then Cnrom(0)
      else if id == 4 then
        Mmc3(0, false, false, [0, 0, 0, 0, 0, 0, 0, 0], [0, 0, 0, 0, 0, 0, 0, 0],
             [0, 0x2000, Mmc3SecondLastBank(rom), Mmc3LastBank(rom)], false, false, 0, 0)
      else Gxrom(0, 0);
    Mapper(rom, vrom, mirror, b)
  }

  // ----------------------------------------------------------- PRG-RAM

  /** `cpu_read_addram` / `cpu_write_addram`, both the same translation:
      MMC1 and MMC3 have 8 KB of PRG-RAM at 0x6000, the others answer
      `NoRam`. */
  function PrgRamOffset(m: Mapper, addr: word): (r: nat)
    requires 0x6000 <= addr < 0x8000
    ensures m.board.Mmc1? || m.board.Mmc3? ==> r == addr - 0x6000
    ensures !(m.board.Mmc1? || m.board.Mmc3?) ==> r == NoRam
    ensures r != NoRam ==> r < 0x2000
  {
    match m.board
    case Mmc1(_, _, _, _, _, _, _, _, _) => addr - 0x6000
    case Mmc3(_, _, _, _, _, _, _, _, _, _) => addr % 0x2000
    case _ => NoRam
  }

  // ----------------------------------------------------------- PRG-ROM

  /** `cpu_read_prg`: the PRG-ROM offset of a CPU address in 0x8000-0xFFFF. */
  function PrgOffset(m: Mapper, addr: word): (r: nat)
    requires Valid(m) && 0x8000 <= addr
    ensures r < 0x1_0000_0000
  {
    match m.board
    case Nrom => addr % (if m.romNum > 1 then 0x8000 else 0x4000)
    case Mmc1(_, _, ctrl, _, _, _, lo, hi, prg32) =>
      if ctrl / 4 % 4 >= 2 then
        (if addr <= 0xBFFF then 0x4000 * lo + addr % 0x4000 else 0x4000 * hi + addr % 0x4000)
      else 0x8000 * prg32 + addr % 0x8000
    case Uxrom(lo, hi) =>
      if addr <= 0xBFFF then 0x4000 * lo + addr % 0x4000 else 0x4000 * hi + addr % 0x4000
    case Cnrom(_) => addr % (if m.romNum > 1 then 0x8000 else 0x4000)
    case Mmc3(_, _, _, _, _, prg, _, _, _, _) => U32(prg[(addr - 0x8000) / 0x2000] + addr % 0x2000)
    case Gxrom(_, prg) => prg * 0x8000 + addr % 0x8000
  }

  // ----------------------------------------------------------- CHR

  /** `ppu_read_pt`: the CHR offset of a pattern-table address. With no CHR-ROM
      (`vrom_num == 0`) every board answers the address itself, into its 8 KB
      of CHR-RAM. */
  function ChrReadOffset(m: Mapper, addr: word): (r: nat)
    requires Valid(m) && addr < 0x2000
    ensures m.vromNum == 0 ==> r == addr
    ensures r < 0x1_0000_0000
  {
    if m.vromNum == 0 then addr
    else match m.board
      case Nrom => addr
      case Uxrom(_, _) => addr
      case Mmc1(_, _, ctrl, lo4, hi4, chr8, _, _, _) =>
        if ctrl / 0x10 % 2 == 1 then
          (if addr <= 0x0FFF then 0x1000 * lo4 + addr % 0x1000 else 0x1000 * hi4 + addr % 0x1000)
        else 0x2000 * chr8 + addr
      case Cnrom(bank) => bank * 0x2000 + addr
      case Mmc3(_, _, _, _, chr, _, _, _, _, _) => U32(chr[addr / 0x400] + addr % 0x400)
      case Gxrom(bank, _) => bank * 0x2000 + addr
  }

  /** `ppu_write_pt`: every board writes CHR-RAM at the address itself. */
  function ChrWriteOffset(m: Mapper, addr: word): (r: nat)
    requires addr < 0x2000
    ensures r == addr && r < 0x2000
  {
    addr
  }

  // ----------------------------------------------------------- MMC1

  /** `REG_CTRL::set_program_bank_mode(3)`: keep bits 0, 1 and 4, set bits 2-3. */
  function Mmc1ResetCtrl(ctrl: byte): (r: byte)
    ensures r / 4 % 4 == 3
    ensures r % 4 == ctrl % 4 && r / 0x10 % 2 == ctrl / 0x10 % 2 && r < 0x20
  {
    ctrl % 4 + (ctrl / 0x10 % 2) * 0x10 + 0x0C
  }

  /** The mirroring an MMC1 control value selects. */
  function Mmc1Mirror(ctrl: byte): (r: byte)
    ensures r in {Horizontal, Vertical, OneScreenLo, OneScreenHi}
    ensures ctrl % 4 == 2 <==> r == Vertical
    ensures ctrl % 4 == 3 <==> r == Horizontal
  {
    match ctrl % 4
    case 0 => OneScreenLo
    case 1 => OneScreenHi
    case 2 => Vertical
    case 3 => Horizontal
  }

  /** The register the fifth serial write lands in, decoded by address:
      the control register (and the mirroring it encodes) at 0x8000, the CHR
      select for 0x0000 at 0xA000 (the 4 KB or the 8 KB one, by the CHR mode),
      the 4 KB CHR select for 0x1000 at 0xC000 (ignored in 8 KB mode), and the
      PRG select at 0xE000, interpreted by the PRG mode. Every other field
      keeps its value; the shift register empties. */
  function Mmc1Commit(m: Mapper, addr: word, value: byte): (r: Mapper)
    requires m.board.Mmc1? && Valid(m) && 0x8000 <= addr && value < 0x20
    ensures r.board.Mmc1? && r.board.count == 0 && r.board.load == 0 && Valid(r)
    ensures r.romNum == m.romNum && r.vromNum == m.vromNum
    ensures addr <= 0x9FFF ==> r.board.ctrl == value && r.mirror == Mmc1Mirror(value)
    ensures addr > 0x9FFF ==> r.board.ctrl == m.board.ctrl && r.mirror == m.mirror
    ensures var b := m.board;
            var chr4K := b.ctrl / 0x10 % 2 == 1;
            var mode := b.ctrl / 4 % 4;
            && (addr <= 0x9FFF ==> r.board == b.(count := 0, load := 0, ctrl := value))
            && (0xA000 <= addr <= 0xBFFF && chr4K ==> r.board == b.(count := 0, load := 0, chrLo4 := value))
            && (0xA000 <= addr <= 0xBFFF && !chr4K ==> r.board == b.(count := 0, load := 0, chr8 := value))
            && (0xC000 <= addr <= 0xDFFF && chr4K ==> r.board == b.(count := 0, load := 0, chrHi4 := value))
            && (0xC000 <= addr <= 0xDFFF && !chr4K ==> r.board == b.(count := 0, load := 0))
            && (0xE000 <= addr && mode <= 1 ==> r.board == b.(count := 0, load := 0, prg32 := value / 2 % 8))
            && (0xE000 <= addr && mode == 2 ==>
                  r.board == b.(count := 0, load := 0, prgLo16 := 0, prgHi16 := value % 0x10))
            && (0xE000 <= addr && mode == 3 ==>
                  r.board == b.(count := 0, load := 0, prgLo16 := value % 0x10, prgHi16 := AddB(m.romNum, -1)))
  {
    var b := m.board.(count := 0, load := 0);
    if addr <= 0x9FFF then
      m.(mirror := Mmc1Mirror(value), board := b.(ctrl := value))
    else if addr <= 0xBFFF then
      if b.ctrl / 0x10 % 2 == 1 then m.(board := b.(chrLo4 := value))
      else m.(board := b.(chr8 := value))
    else if addr <= 0xDFFF then
      if b.ctrl / 0x10 % 2 == 1 then m.(board := b.(chrHi4 := value)) else m.(board := b)
    else
      var mode := b.ctrl / 4 % 4;
      if mode <= 1 then m.(board := b.(prg32 := value / 2 % 8))
      else if mode == 2 then m.(board := b.(prgHi16 := value % 0x10, prgLo16 := 0))
      else m.(board := b.(prgHi16 := AddB(m.romNum, -1), prgLo16 := value % 0x10))
  }

  /** `Mapper1::cpu_write_prg`: bit 7 resets the shift register and selects
      PRG mode 3; otherwise bit 0 is shifted in at bit 4, and the fifth such
      write commits the five bits to the register chosen by the address. */
  function Mmc1Write(m: Mapper, addr: word, data: byte): (r: Mapper)
    requires m.board.Mmc1? && Valid(m) && 0x8000 <= addr
    ensures r.board.Mmc1? && Valid(r) && r.romNum == m.romNum && r.vromNum == m.vromNum
    ensures data >= 0x80 ==>
              r == m.(board := m.board.(count := 0, load := 0, ctrl := Mmc1ResetCtrl(m.board.ctrl)))
    ensures data < 0x80 && m.board.count == 4 ==>
              r == Mmc1Commit(m, addr, m.board.load / 2 + (data % 2) * 0x10)
    ensures data < 0x80 && m.board.count < 4 ==>
              r == m.(board := m.board.(count := m.board.count + 1,
                                        load := m.board.load / 2 + (data % 2) * 0x10))
  {
    if data >= 0x80 then
      m.(board := m.board.(count := 0, load := 0, ctrl := Mmc1ResetCtrl(m.board.ctrl)))
    else
      var load := m.board.load / 2 + (data % 2) * 0x10;
      if m.board.count + 1 == 5 then Mmc1Commit(m, addr, load)
      else m.(board := m.board.(count := m.board.count + 1, load := load))
  }

  /** The value five serial writes deliver: bit 0 of the i-th write is bit i. */
  function SerialValue(ds: seq<byte>): (v: nat)
    ensures v < Pow2(|ds|)
    decreases |ds|
  {
    if |ds| == 0 then 0
    else SerialValue(ds[..|ds| - 1]) + (ds[|ds| - 1] % 2) * Pow2(|ds| - 1)
  }

  /** A run of writes to one address, in order. */
  function WriteAll(m: Mapper, addr: word, ds: seq<byte>): (r: Mapper)
    requires m.board.Mmc1? && Valid(m) && 0x8000 <= addr
    ensures r.board.Mmc1? && Valid(r)
    decreases |ds|
  {
    if |ds| == 0 then m
    else Mmc1Write(WriteAll(m, addr, ds[..|ds| - 1]), addr, ds[|ds| - 1])
  }

  /** While fewer than five bits have arrived, the shift register holds the
      bits so far, the first one lowest, aligned so the fifth lands in bit 4. */
  lemma {:induction false} Mmc1ShiftInProgress(m: Mapper, addr: word, ds: seq<byte>)
    requires m.board.Mmc1? && Valid(m) && 0x8000 <= addr
    requires m.board.count == 0 && m.board.load == 0
    requires |ds| < 5 && forall i :: 0 <= i < |ds| ==> ds[i] < 0x80
    ensures var r := WriteAll(m, addr, ds);
            && r.board.count == |ds|
            && r.board.load * Pow2(|ds|) == SerialValue(ds) * 0x20
            && r == m.(board := m.board.(count := |ds|, load := r.board.load))
    decreases |ds|
  {
    if |ds| > 0 {
      var pre := ds[..|ds| - 1];
      Mmc1ShiftInProgress(m, addr, pre);
      var r0 := WriteAll(m, addr, pre);
      var d := ds[|ds| - 1];
      var k := |pre|;
      assert Pow2(|ds|) == 2 * Pow2(k);
      assert r0.board.load * Pow2(k) == SerialValue(pre) * 0x20;
      assert SerialValue(ds) == SerialValue(pre) + (d % 2) * Pow2(k);
      Mmc1LoadStep(r0.board.load, d, k, SerialValue(pre));
    }
  }

  lemma {:induction false} Mmc1LoadStep(load: nat, d: byte, k: nat, v: nat)
    requires k < 5 && load * Pow2(k) == v * 0x20
    ensures (load / 2 + (d % 2) * 0x10) * (2 * Pow2(k)) == (v + (d % 2) * Pow2(k)) * 0x20
  {
    // The bits shifted out are zero: `load` is `v` times 2^(5 - k).
    Pow2Values(k);
    var p := Pow2(k);
    var x := d % 2;
    if k == 0 {
      assert p == 1 && load == 0x20 * v && load / 2 == 0x10 * v;
      assert (load / 2 + x * 0x10) * 2 == (v + x) * 0x20;
    } else if k == 1 {
      assert p == 2 && load == 0x10 * v && load / 2 == 8 * v;
      assert (load / 2 + x * 0x10) * 4 == (v + x * 2) * 0x20;
    } else if k == 2 {
      assert p == 4 && load == 8 * v && load / 2 == 4 * v;
      assert (load / 2 + x * 0x10) * 8 == (v + x * 4) * 0x20;
    } else if k == 3 {
      assert p == 8 && load == 4 * v && load / 2 == 2 * v;
      assert (load / 2 + x * 0x10) * 16 == (v + x * 8) * 0x20;
    } else {
      assert p == 16 && load == 2 * v && load / 2 == v;
      assert (load / 2 + x * 0x10) * 32 == (v + x * 16) * 0x20;
    }
  }

  lemma {:induction false} Pow2Values(k: nat)
    requires k < 5
    ensures Pow2(k) in {1, 2, 4, 8, 16}
    ensures k == 0 ==> Pow2(k) == 1
    ensures k == 1 ==> Pow2(k) == 2
    ensures k == 2 ==> Pow2(k) == 4
    ensures k == 3 ==> Pow2(k) == 8
    ensures k == 4 ==> Pow2(k) == 16
  {
    if k > 0 { Pow2Values(k - 1); }
  }

  /** Five writes without bit 7, starting from an empty shift register,
      commit the five bits, first write lowest, to the register the last
      write's address selects; writes to 0x8000-0x9FFF set the control value
      and the mirroring it encodes. */
  lemma {:induction false} Mmc1FiveWritesSetControl(m: Mapper, addr: word, ds: seq<byte>)
    requires m.board.Mmc1? && Valid(m) && 0x8000 <= addr <= 0x9FFF
    requires m.board.count == 0 && m.board.load == 0
    requires |ds| == 5 && forall i :: 0 <= i < 5 ==> ds[i] < 0x80
    ensures var r := WriteAll(m, addr, ds);
            && r.board.ctrl == SerialValue(ds)
            && r.mirror == Mmc1Mirror(SerialValue(ds))
            && r.board.count == 0 && r.board.load == 0
  {
    var pre := ds[..4];
    Mmc1ShiftInProgress(m, addr, pre);
    var r0 := WriteAll(m, addr, pre);
    Pow2Values(4);
    assert SerialValue(ds) == SerialValue(pre) + (ds[4] % 2) * 16;
    assert r0.board.load * 16 == SerialValue(pre) * 0x20;
    assert r0.board.load / 2 == SerialValue(pre);
  }

  /** Five writes without bit 7, from an empty shift register, are one commit
      of their serial value to the register the address selects. */
  lemma {:induction false} Mmc1FiveWritesCommit(m: Mapper, addr: word, ds: seq<byte>)
    requires m.board.Mmc1? && Valid(m) && 0x8000 <= addr
    requires m.board.count == 0 && m.board.load == 0
    requires |ds| == 5 && forall i :: 0 <= i < 5 ==> ds[i] < 0x80
    ensures SerialValue(ds) < 0x20
    ensures WriteAll(m, addr, ds) == Mmc1Commit(m, addr, SerialValue(ds))
  {
    var pre := ds[..4];
    Mmc1ShiftInProgress(m, addr, pre);
    var r0 := WriteAll(m, addr, pre);
    Pow2Values(4);
    assert Pow2(5) == 0x20;
    assert SerialValue(ds) == SerialValue(pre) + (ds[4] % 2) * 16;
    assert r0.board.load / 2 == SerialValue(pre);
    assert WriteAll(m, addr, ds) == Mmc1Commit(r0, addr, SerialValue(ds));
  }

  /** MMC1 PRG modes 0 and 1: five writes to 0xE000-0xFFFF select the 32 KB
      bank given by bits 1-3 of the value, mapped linearly at 0x8000. */
  lemma {:induction false} Mmc1Prg32KBank(m: Mapper, addr: word, ds: seq<byte>, a: word)
    requires m.board.Mmc1? && Valid(m) && 0xE000 <= addr && m.board.ctrl / 4 % 4 <= 1
    requires m.board.count == 0 && m.board.load == 0
    requires |ds| == 5 && forall i :: 0 <= i < 5 ==> ds[i] < 0x80
    requires 0x8000 <= a
    ensures PrgOffset(WriteAll(m, addr, ds), a) == 0x8000 * (SerialValue(ds) / 2 % 8) + (a - 0x8000)
  {
    Mmc1FiveWritesCommit(m, addr, ds);
    var r := Mmc1Commit(m, addr, SerialValue(ds));
    assert r.board.ctrl == m.board.ctrl && r.board.prg32 == SerialValue(ds) / 2 % 8;
    assert a % 0x8000 == a - 0x8000;
  }

  /** MMC1 PRG mode 2: the first 16 KB bank is fixed at 0x8000 and five
      writes to 0xE000-0xFFFF select the bank at 0xC000. */
  lemma {:induction false} Mmc1PrgFixFirst(m: Mapper, addr: word, ds: seq<byte>, a: word)
    requires m.board.Mmc1? && Valid(m) && 0xE000 <= addr && m.board.ctrl / 4 % 4 == 2
    requires m.board.count == 0 && m.board.load == 0
    requires |ds| == 5 && forall i :: 0 <= i < 5 ==> ds[i] < 0x80
    requires 0x8000 <= a
    ensures var r := WriteAll(m, addr, ds);
            && (a <= 0xBFFF ==> PrgOffset(r, a) == a - 0x8000)
            && (0xC000 <= a ==> PrgOffset(r, a) == 0x4000 * (SerialValue(ds) % 0x10) + (a - 0xC000))
  {
    Mmc1FiveWritesCommit(m, addr, ds);
    var r := Mmc1Commit(m, addr, SerialValue(ds));
    assert r.board.ctrl == m.board.ctrl && r.board.prgLo16 == 0 && r.board.prgHi16 == SerialValue(ds) % 0x10;
    assert a <= 0xBFFF ==> a % 0x4000 == a - 0x8000;
    assert 0xC000 <= a ==> a % 0x4000 == a - 0xC000;
  }

  /** MMC1 PRG mode 3: five writes to 0xE000-0xFFFF select the 16 KB bank at
      0x8000, and the bank at 0xC000 becomes the last one (`rom_num - 1`,
      wrapped as a byte). */
  lemma {:induction false} Mmc1PrgFixLast(m: Mapper, addr: word, ds: seq<byte>, a: word)
    requires m.board.Mmc1? && Valid(m) && 0xE000 <= addr && m.board.ctrl / 4 % 4 == 3
    requires m.board.count == 0 && m.board.load == 0
    requires |ds| == 5 && forall i :: 0 <= i < 5 ==> ds[i] < 0x80
    requires 0x8000 <= a
    ensures var r := WriteAll(m, addr, ds);
            && (a <= 0xBFFF ==> PrgOffset(r, a) == 0x4000 * (SerialValue(ds) % 0x10) + (a - 0x8000))
            && (0xC000 <= a ==> PrgOffset(r, a) == 0x4000 * AddB(m.romNum, -1) + (a - 0xC000))
  {
    Mmc1FiveWritesCommit(m, addr, ds);
    var r := Mmc1Commit(m, addr, SerialValue(ds));
    assert r.board.ctrl == m.board.ctrl && r.board.prgLo16 == SerialValue(ds) % 0x10;
    assert r.board.prgHi16 == AddB(m.romNum, -1);
    assert a <= 0xBFFF ==> a % 0x4000 == a - 0x8000;
    assert 0xC000 <= a ==> a % 0x4000 == a - 0xC000;
  }

  /** MMC1 CHR select at 0xA000-0xBFFF: in 4 KB mode five writes choose the
      bank at PPU 0x0000 and leave 0x1000 alone; in 8 KB mode they choose the
      8 KB bank for the whole pattern space. The PRG windows do not move. */
  lemma {:induction false} Mmc1ChrLowSelect(m: Mapper, addr: word, ds: seq<byte>, c: word, a: word)
    requires m.board.Mmc1? && Valid(m) && 0xA000 <= addr <= 0xBFFF && m.vromNum > 0
    requires m.board.count == 0 && m.board.load == 0
    requires |ds| == 5 && forall i :: 0 <= i < 5 ==> ds[i] < 0x80
    requires c < 0x2000 && 0x8000 <= a
    ensures var r := WriteAll(m, addr, ds);
            var v := SerialValue(ds);
            && PrgOffset(r, a) == PrgOffset(m, a)
            && (m.board.ctrl / 0x10 % 2 == 1 && c <= 0x0FFF ==> ChrReadOffset(r, c) == 0x1000 * v + c)
            && (m.board.ctrl / 0x10 % 2 == 1 && 0x1000 <= c ==> ChrReadOffset(r, c) == ChrReadOffset(m, c))
            && (m.board.ctrl / 0x10 % 2 == 0 ==> ChrReadOffset(r, c) == 0x2000 * v + c)
  {
    Mmc1FiveWritesCommit(m, addr, ds);
  }

  /** MMC1 CHR select at 0xC000-0xDFFF: in 4 KB mode five writes choose the
      bank at PPU 0x1000; in 8 KB mode they change nothing a read can see. */
  lemma {:induction false} Mmc1ChrHighSelect(m: Mapper, addr: word, ds: seq<byte>, c: word, a: word)
    requires m.board.Mmc1? && Valid(m) && 0xC000 <= addr <= 0xDFFF && m.vromNum > 0
    requires m.board.count == 0 && m.board.load == 0
    requires |ds| == 5 && forall i :: 0 <= i < 5 ==> ds[i] < 0x80
    requires c < 0x2000 && 0x8000 <= a
    ensures var r := WriteAll(m, addr, ds);
            var v := SerialValue(ds);
            && PrgOffset(r, a) == PrgOffset(m, a)
            && (m.board.ctrl / 0x10 % 2 == 1 && 0x1000 <= c ==> ChrReadOffset(r, c) == 0x1000 * v + (c - 0x1000))
            && (m.board.ctrl / 0x10 % 2 == 1 && c <= 0x0FFF ==> ChrReadOffset(r, c) == ChrReadOffset(m, c))
            && (m.board.ctrl / 0x10 % 2 == 0 ==> ChrReadOffset(r, c) == ChrReadOffset(m, c))
  {
    Mmc1FiveWritesCommit(m, addr, ds);
  }

  /** A write with bit 7 empties the shift register and forces PRG mode 3
      without touching a bank select: the mirroring and the CHR windows stay,
      and so do the PRG windows when a 16 KB mode was already on. */
  lemma {:induction false} Mmc1ResetKeepsWindows(m: Mapper, addr: word, data: byte, c: word, a: word)
    requires m.board.Mmc1? && Valid(m) && 0x8000 <= addr && data >= 0x80
    requires c < 0x2000 && 0x8000 <= a
    ensures var r := Mmc1Write(m, addr, data);
            && r.mirror == m.mirror && r.board.ctrl / 4 % 4 == 3
            && ChrReadOffset(r, c) == ChrReadOffset(m, c)
            && (m.board.ctrl / 4 % 4 >= 2 ==> PrgOffset(r, a) == PrgOffset(m, a))
  {
  }

  // ----------------------------------------------------------- MMC3

  /** The eight 1 KB CHR windows MMC3 sets up from R0-R5, as the code builds
      them: the second half of each 2 KB window is `R * 0x400 + 0x400`. */
  function Mmc3ChrBanks(regs: seq<byte>, inversion: bool): (c: seq<nat>)
    requires |regs| == 8
    ensures |c| == 8 && forall i :: 0 <= i < 8 ==> c[i] < 0x1_0000_0000
    ensures var twoK := [(regs[0] as int - regs[0] as int % 2) * 0x400, regs[0] as int * 0x400 + 0x400,
                         (regs[1] as int - regs[1] as int % 2) * 0x400, regs[1] as int * 0x400 + 0x400];
            var oneK := [regs[2] as int * 0x400, regs[3] as int * 0x400, regs[4] as int * 0x400, regs[5] as int * 0x400];
            c == if inversion then oneK + twoK else twoK + oneK
  {
    var twoK := [(regs[0] as int - regs[0] as int % 2) * 0x400, regs[0] as int * 0x400 + 0x400,
                 (regs[1] as int - regs[1] as int % 2) * 0x400, regs[1] as int * 0x400 + 0x400];
    var oneK := [regs[2] as int * 0x400, regs[3] as int * 0x400, regs[4] as int * 0x400, regs[5] as int * 0x400];
    if inversion then oneK + twoK else twoK + oneK
  }

  /** The four 8 KB PRG windows: R6 and R7 select the swappable banks; the
      window at 0xE000 is always the last bank, and the one R6 does not take
      is the second-to-last. */
  function Mmc3PrgBanks(regs: seq<byte>, prgMode: bool, rom: byte): (p: seq<nat>)
    requires |regs| == 8
    ensures |p| == 4 && forall i :: 0 <= i < 4 ==> p[i] < 0x1_0000_0000
    ensures p[1] == (regs[7] as int % 0x40) * 0x2000 && p[3] == Mmc3LastBank(rom)
    ensures prgMode ==> p[2] == (regs[6] as int % 0x40) * 0x2000 && p[0] == Mmc3SecondLastBank(rom)
    ensures !prgMode ==> p[0] == (regs[6] as int % 0x40) * 0x2000 && p[2] == Mmc3SecondLastBank(rom)
  {
    var r6 := (regs[6] as int % 0x40) * 0x2000;
    var r7 := (regs[7] as int % 0x40) * 0x2000;
    if prgMode then [Mmc3SecondLastBank(rom), r7, r6, Mmc3LastBank(rom)]
    else [r6, r7, Mmc3SecondLastBank(rom), Mmc3LastBank(rom)]
  }

  /** A bank data write: the target register takes the byte and both pointer
      tables are rebuilt from the registers. */
  function Mmc3BankData(m: Mapper, data: byte): (r: Mapper)
    requires m.board.Mmc3? && Valid(m)
    ensures r.board.Mmc3? && Valid(r)
    ensures r == m.(board := m.board.(regs := r.board.regs, chrBanks := r.board.chrBanks,
                                      prgBanks := r.board.prgBanks))
    ensures r.board.regs == m.board.regs[m.board.target := data]
    ensures r.board.chrBanks == Mmc3ChrBanks(r.board.regs, m.board.chrInversion)
    ensures r.board.prgBanks == Mmc3PrgBanks(r.board.regs, m.board.prgMode, m.romNum)
  {
    var b := m.board;
    var regs := b.regs[b.target := data];
    m.(board := b.(regs := regs, chrBanks := Mmc3ChrBanks(regs, b.chrInversion),
                   prgBanks := Mmc3PrgBanks(regs, b.prgMode, m.romNum)))
  }

  /** `Mapper4::cpu_write_prg`: the even/odd register pairs at 0x8000, 0xA000,
      0xC000 and 0xE000. */
  function Mmc3Write(m: Mapper, addr: word, data: byte): (r: Mapper)
    requires m.board.Mmc3? && Valid(m) && 0x8000 <= addr
    ensures r.board.Mmc3? && Valid(r) && r.romNum == m.romNum && r.vromNum == m.vromNum
    ensures r.board.prgBanks[3] == m.board.prgBanks[3]
    ensures addr <= 0x9FFF && addr % 2 == 0 ==>
              r == m.(board := m.board.(target := data % 8, prgMode := data / 0x40 % 2 == 1,
                                        chrInversion := data >= 0x80))
    ensures addr <= 0x9FFF && addr % 2 == 1 ==>
              && r == m.(board := m.board.(regs := r.board.regs, chrBanks := r.board.chrBanks,
                                           prgBanks := r.board.prgBanks))
              && r.board.regs == m.board.regs[m.board.target := data]
              && r.board.chrBanks == Mmc3ChrBanks(r.board.regs, m.board.chrInversion)
              && r.board.prgBanks == Mmc3PrgBanks(r.board.regs, m.board.prgMode, m.romNum)
    ensures 0xA000 <= addr <= 0xBFFF && addr % 2 == 0 ==>
              r == m.(mirror := if data % 2 == 1 then Horizontal else Vertical)
    ensures 0xA000 <= addr <= 0xBFFF && addr % 2 == 1 ==> r == m
    ensures 0xC000 <= addr <= 0xDFFF && addr % 2 == 0 ==> r == m.(board := m.board.(irqReload := data))
    ensures 0xC000 <= addr <= 0xDFFF && addr % 2 == 1 ==> r == m.(board := m.board.(irqCounter := 0))
    ensures 0xE000 <= addr && addr % 2 == 0 ==>
              r == m.(board := m.board.(irqEnable := false, irqActive := false))
    ensures 0xE000 <= addr && addr % 2 == 1 ==> r == m.(board := m.board.(irqEnable := true))
  {
    var b := m.board;
    if addr <= 0x9FFF then
      if addr % 2 == 0 then
        m.(board := b.(target := data % 8, prgMode := data / 0x40 % 2 == 1,
                       chrInversion := data / 0x80 % 2 == 1))
      else Mmc3BankData(m, data)
    else Mmc3ControlWrite(m, addr, data)
  }

  /** The mirroring and IRQ register pairs at 0xA000-0xFFFF. */
  function Mmc3ControlWrite(m: Mapper, addr: word, data: byte): (r: Mapper)
    requires m.board.Mmc3? && Valid(m) && 0xA000 <= addr
    ensures r.board.Mmc3? && Valid(r)
    ensures addr <= 0xBFFF && addr % 2 == 0 ==>
              r == m.(mirror := if data % 2 == 1 then Horizontal else Vertical)
    ensures addr <= 0xBFFF && addr % 2 == 1 ==> r == m
    ensures 0xC000 <= addr <= 0xDFFF && addr % 2 == 0 ==> r == m.(board := m.board.(irqReload := data))
    ensures 0xC000 <= addr <= 0xDFFF && addr % 2 == 1 ==> r == m.(board := m.board.(irqCounter := 0))
    ensures 0xE000 <= addr && addr % 2 == 0 ==>
              r == m.(board := m.board.(irqEnable := false, irqActive := false))
    ensures 0xE000 <= addr && addr % 2 == 1 ==> r == m.(board := m.board.(irqEnable := true))
  {
    var b := m.board;
    if addr <= 0xBFFF then
      if addr % 2 == 0 then m.(mirror := if data % 2 == 1 then Horizontal else Vertical)
      else m
    else if addr <= 0xDFFF then
      if addr % 2 == 0 then m.(board := b.(irqReload := data))
      else m.(board := b.(irqCounter := 0))
    else
      if addr % 2 == 0 then m.(board := b.(irqEnable := false, irqActive := false))
      else m.(board := b.(irqEnable := true))
  }

  /** `Mapper4::scanline`: reload the counter when it is zero, otherwise count
      down; at zero, with IRQs enabled, raise the IRQ. Nothing here lowers it. */
  function Mmc3Scanline(b: Board): (r: Board)
    requires b.Mmc3?
    ensures r.Mmc3? && r == b.(irqCounter := r.irqCounter, irqActive := r.irqActive)
    ensures r.irqCounter == (if b.irqCounter == 0 then b.irqReload else b.irqCounter - 1)
    ensures r.irqActive <==> b.irqActive || (r.irqCounter == 0 && b.irqEnable)
  {
    var counter := if b.irqCounter == 0 then b.irqReload else b.irqCounter - 1;
    b.(irqCounter := counter, irqActive := b.irqActive || (counter == 0 && b.irqEnable))
  }

  function Scanlines(b: Board, n: nat): (r: Board)
    requires b.Mmc3?
    ensures r.Mmc3?
  {
    if n == 0 then b else Mmc3Scanline(Scanlines(b, n - 1))
  }

  /** With the counter at zero, IRQs enabled and no IRQ pending, a reload
      value of `n > 0` raises the IRQ on the (n + 1)-th scanline and not
      before: the first scanline only loads the counter. */
  lemma {:induction false} Mmc3IrqAfterReloadPlusOne(b: Board, n: byte)
    requires b.Mmc3? && b.irqCounter == 0 && b.irqReload == n && n > 0
    requires b.irqEnable && !b.irqActive
    ensures forall k :: 0 <= k <= n ==> !Scanlines(b, k).irqActive
    ensures Scanlines(b, n + 1).irqActive
  {
    forall k | 0 <= k <= n ensures !Scanlines(b, k).irqActive {
      ScanlineCountdown(b, n, k);
    }
    ScanlineCountdown(b, n, n);
  }

  lemma {:induction false} ScanlineCountdown(b: Board, n: byte, k: nat)
    requires b.Mmc3? && b.irqCounter == 0 && b.irqReload == n && n > 0
    requires b.irqEnable && !b.irqActive && k <= n
    ensures var r := Scanlines(b, k);
            && !r.irqActive && r.irqEnable && r.irqReload == n
            && (k == 0 ==> r.irqCounter == 0)
            && (k > 0 ==> r.irqCounter == n - k + 1)
  {
    if k > 0 {
      ScanlineCountdown(b, n, k - 1);
    }
  }

  // ----------------------------------------------------------- dispatch

  /** `cpu_write_prg` of every board. CNROM reduces the bank number modulo
      `vrom_num`, a division by zero when the cartridge has no CHR-ROM: that
      write has no result (`None`). */
  function WritePrg(m: Mapper, addr: word, data: byte): (r: Option<Mapper>)
    requires Valid(m) && 0x8000 <= addr
    ensures r.None? <==> m.board.Cnrom? && m.vromNum == 0
    ensures r.Some? ==> Valid(r.value) && r.value.romNum == m.romNum && r.value.vromNum == m.vromNum
    ensures r.Some? && (m.board.Nrom? || m.board.Uxrom? || m.board.Cnrom? || m.board.Gxrom?) ==>
              r.value.mirror == m.mirror
    ensures r.Some? && m.board.Uxrom? ==> r.value.board == m.board.(prgLo := data % 0x10)
    ensures r.Some? && m.board.Cnrom? ==> r.value.board == Cnrom(data % 4 % m.vromNum)
    ensures r.Some? && m.board.Gxrom? ==> r.value.board == Gxrom(data % 4, data / 0x10 % 4)
    ensures r.Some? && m.board.Nrom? ==> r.value == m
  {
    match m.board
    case Nrom => Some(m)
    case Mmc1(_, _, _, _, _, _, _, _, _) => Some(Mmc1Write(m, addr, data))
    case Uxrom(_, _) => Some(m.(board := m.board.(prgLo := data % 0x10)))
    case Cnrom(_) =>
      if m.vromNum == 0 then None else Some(m.(board := Cnrom(data % 4 % m.vromNum)))
    case Mmc3(_, _, _, _, _, _, _, _, _, _) => Some(Mmc3Write(m, addr, data))
    case Gxrom(_, _) => Some(m.(board := Gxrom(data % 4, data / 0x10 % 4)))
  }

  /** One CPU write into the cartridge's register space. */
  datatype RegWrite = RegWrite(addr: word, data: byte)

  /** A run of register writes, in order; `None` once a write has no result. */
  function WriteRun(m: Mapper, ws: seq<RegWrite>): (r: Option<Mapper>)
    requires Valid(m) && forall i :: 0 <= i < |ws| ==> 0x8000 <= ws[i].addr
    ensures r.Some? ==> Valid(r.value) && r.value.romNum == m.romNum && r.value.vromNum == m.vromNum
    decreases |ws|
  {
    if |ws| == 0 then Some(m)
    else
      var p := WriteRun(m, ws[..|ws| - 1]);
      if p.None? then None else WritePrg(p.value, ws[|ws| - 1].addr, ws[|ws| - 1].data)
  }

  /** `irqState`: only MMC3 raises IRQs. */
  predicate IrqState(m: Mapper)
  {
    m.board.Mmc3? && m.board.irqActive
  }

  /** `irqClear`: acknowledge the IRQ; the other boards ignore it. */
  function IrqClear(m: Mapper): (r: Mapper)
    ensures !IrqState(r)
    ensures Valid(m) ==> Valid(r)
    ensures !m.board.Mmc3? ==> r == m
    ensures m.board.Mmc3? ==> r == m.(board := m.board.(irqActive := false))
  {
    if m.board.Mmc3? then m.(board := m.board.(irqActive := false)) else m
  }

  /** `scanline`: only MMC3 counts scanlines. */
  function Scanline(m: Mapper): (r: Mapper)
    ensures Valid(m) ==> Valid(r)
    ensures !m.board.Mmc3? ==> r == m
    ensures m.board.Mmc3? ==> r == m.(board := Mmc3Scanline(m.board))
  {
    if m.board.Mmc3? then m.(board := Mmc3Scanline(m.board)) else m
  }

  // ----------------------------------------------------------- properties

  /** NROM and CNROM with a single 16 KB bank mirror it at 0xC000; with two,
      the 32 KB are mapped linearly. Either way the offset stays inside the
      PRG-ROM the header declares. */
  lemma {:induction false} NromMirrorsSmallPrg(m: Mapper, addr: word)
    requires (m.board.Nrom? || m.board.Cnrom?) && 0x8000 <= addr
    ensures m.romNum <= 1 && addr >= 0xC000 ==> PrgOffset(m, addr) == PrgOffset(m, addr - 0x4000)
    ensures m.romNum > 1 ==> PrgOffset(m, addr) == addr - 0x8000
    ensures 1 <= m.romNum <= 2 ==> PrgOffset(m, addr) < m.romNum * 0x4000
  {
  }

  /** Every board starts on its first banks: MMC1 and UxROM in the 16 KB
      layout with the first bank at 0x8000 and the last one (`rom_num - 1`) at
      0xC000, MMC3 with 8 KB banks 0 and 1 followed by the last two, NROM,
      CNROM and GxROM with the PRG-ROM mapped linearly (mirrored when NROM or
      CNROM has one bank); every CHR window shows bank 0. */
  lemma {:induction false} FreshMapperWindows(id: byte, rom: byte, vrom: byte, mirror: byte, a: word, c: word)
    requires Supported(id) && 0x8000 <= a && c < 0x2000
    ensures var m := NewMapper(id, rom, vrom, mirror);
            && ((id == 1 || id == 2) && a <= 0xBFFF ==> PrgOffset(m, a) == a - 0x8000)
            && ((id == 1 || id == 2) && 0xC000 <= a ==> PrgOffset(m, a) == 0x4000 * AddB(rom, -1) + (a - 0xC000))
            && (id == 4 && a <= 0xBFFF ==> PrgOffset(m, a) == a - 0x8000)
            && (id == 4 && 0xC000 <= a <= 0xDFFF && rom >= 1 ==> PrgOffset(m, a) == (2 * rom - 2) * 0x2000 + (a - 0xC000))
            && (id == 4 && 0xE000 <= a && rom >= 1 ==> PrgOffset(m, a) == (2 * rom - 1) * 0x2000 + (a - 0xE000))
            && ((id == 66 || rom > 1) && id != 1 && id != 2 && id != 4 ==> PrgOffset(m, a) == a - 0x8000)
            && (id == 1 && vrom > 0 ==> ChrReadOffset(m, c) == c % 0x1000)
            && (id == 4 && vrom > 0 ==> ChrReadOffset(m, c) == c % 0x400)
            && (vrom == 0 || (id != 1 && id != 4) ==> ChrReadOffset(m, c) == c)
  {
  }

  /** UxROM: 0xC000-0xFFFF always shows the bank fixed at construction (the
      last one), whatever is written; the low window shows the bank selected
      by the last write. */
  lemma {:induction false} UxromHighWindowFixed(m: Mapper, addr: word, data: byte, a: word)
    requires m.board.Uxrom? && 0x8000 <= addr && 0x8000 <= a
    ensures var r := WritePrg(m, addr, data).value;
            && (a >= 0xC000 ==> PrgOffset(r, a) == PrgOffset(m, a))
            && (a <= 0xBFFF ==> PrgOffset(r, a) == 0x4000 * (data % 0x10) + (a - 0x8000))
  {
  }

  /** UxROM keeps the last bank at 0xC000 for good: whatever runs of
      register writes follow construction, that window reads bank
      `rom_num - 1`. */
  lemma {:induction false} UxromAlwaysLastBank(rom: byte, vrom: byte, mirror: byte, ws: seq<RegWrite>, a: word)
    requires forall i :: 0 <= i < |ws| ==> 0x8000 <= ws[i].addr
    requires 0xC000 <= a
    ensures var r := WriteRun(NewMapper(2, rom, vrom, mirror), ws);
            r.Some? && PrgOffset(r.value, a) == 0x4000 * AddB(rom, -1) + (a - 0xC000)
  {
    UxromRunKeepsHigh(NewMapper(2, rom, vrom, mirror), ws);
  }

  lemma {:induction false} UxromRunKeepsHigh(m: Mapper, ws: seq<RegWrite>)
    requires m.board.Uxrom? && forall i :: 0 <= i < |ws| ==> 0x8000 <= ws[i].addr
    ensures var r := WriteRun(m, ws);
            r.Some? && r.value.board.Uxrom? && r.value.board.prgHi == m.board.prgHi
    decreases |ws|
  {
    if |ws| > 0 {
      UxromRunKeepsHigh(m, ws[..|ws| - 1]);
    }
  }

  /** CNROM: after any bank write, every pattern-table address lands inside the
      CHR-ROM (`vrom_num` banks of 8 KB), in the bank `(data & 3) % vrom_num`. */
  lemma {:induction false} CnromChrInBounds(m: Mapper, addr: word, data: byte, a: word)
    requires m.board.Cnrom? && m.vromNum > 0 && 0x8000 <= addr && a < 0x2000
    ensures ChrReadOffset(WritePrg(m, addr, data).value, a) == 0x2000 * (data % 4 % m.vromNum) + a
    ensures ChrReadOffset(WritePrg(m, addr, data).value, a) < m.vromNum * 0x2000
  {
    var bank := data % 4 % m.vromNum;
    assert bank * 0x2000 + a < (bank + 1) * 0x2000;
    assert (bank + 1) * 0x2000 <= m.vromNum * 0x2000;
  }

  /** MMC3 inversion swaps the 2 KB pair and the 1 KB quartet between the two
      pattern tables. */
  lemma {:induction false} Mmc3InversionSwapsHalves(regs: seq<byte>)
    requires |regs| == 8
    ensures Mmc3ChrBanks(regs, true) == Mmc3ChrBanks(regs, false)[4..] + Mmc3ChrBanks(regs, false)[..4]
  {
    var n := Mmc3ChrBanks(regs, false);
    assert n[4..] + n[..4] == Mmc3ChrBanks(regs, true);
  }

  /** The 2 KB windows are contiguous only for an even R0 (or R1): with an odd
      value the code's `R * 0x400 + 0x400` skips a kilobyte past the even half. */
  lemma {:induction false} Mmc3TwoKWindows(regs: seq<byte>)
    requires |regs| == 8
    ensures var c := Mmc3ChrBanks(regs, false);
            && (regs[0] % 2 == 0 ==> c[1] == c[0] + 0x400)
            && (regs[0] % 2 == 1 ==> c[1] == c[0] + 0x800)
            && (regs[1] % 2 == 0 ==> c[3] == c[2] + 0x400)
            && (regs[1] % 2 == 1 ==> c[3] == c[2] + 0x800)
  {
  }

  /** MMC3 reads at 0xE000-0xFFFF always come from the last 8 KB PRG bank. */
  lemma {:induction false} Mmc3LastWindowFixed(m: Mapper, addr: word, data: byte, a: word)
    requires m.board.Mmc3? && Valid(m)
    requires 0x8000 <= addr && 0xE000 <= a && m.romNum >= 1
    ensures var r := WritePrg(m, addr, data).value;
            PrgOffset(r, a) == (2 * m.romNum - 1) * 0x2000 + (a - 0xE000)
  {
    var r := WritePrg(m, addr, data).value;
    assert (a - 0x8000) / 0x2000 == 3;
    assert (2 * m.romNum - 1) * 0x2000 + (a - 0xE000) < 0x1_0000_0000;
  }

  /** GxROM: a write selects the 32 KB PRG bank from bits 4-5 and the 8 KB
      CHR bank from bits 0-1, whatever the address. */
  lemma {:induction false} GxromWindows(m: Mapper, addr: word, data: byte, a: word, c: word)
    requires m.board.Gxrom? && 0x8000 <= addr && 0x8000 <= a && c < 0x2000
    ensures var r := WritePrg(m, addr, data).value;
            && PrgOffset(r, a) == 0x8000 * (data / 0x10 % 4) + (a - 0x8000)
            && (m.vromNum > 0 ==> ChrReadOffset(r, c) == 0x2000 * (data % 4) + c)
  {
  }

  /** A bank-select write (even address in 0x8000-0x9FFF) only chooses the
      target register and the two modes: no window moves until the next bank
      data write. */
  lemma {:induction false} Mmc3SelectMovesNoWindow(m: Mapper, addr: word, data: byte, a: word, c: word)
    requires m.board.Mmc3? && Valid(m) && 0x8000 <= addr <= 0x9FFF && addr % 2 == 0
    requires 0x8000 <= a && c < 0x2000
    ensures var r := Mmc3Write(m, addr, data);
            && PrgOffset(r, a) == PrgOffset(m, a) && ChrReadOffset(r, c) == ChrReadOffset(m, c)
            && r.board.target == data % 8
  {
  }

  /** After a bank data write (odd address in 0x8000-0x9FFF), the PRG windows
      at 0x8000-0xDFFF: 0xA000 shows R7's 8 KB bank; R6's bank is at 0x8000,
      or at 0xC000 when the PRG mode is set, and the other of the two shows
      the second-to-last bank. */
  lemma {:induction false} Mmc3PrgWindows(m: Mapper, addr: word, data: byte, a: word)
    requires m.board.Mmc3? && Valid(m) && 0x8000 <= addr <= 0x9FFF && addr % 2 == 1
    requires 0x8000 <= a <= 0xDFFF && m.romNum >= 1
    ensures var r := Mmc3Write(m, addr, data);
            var regs := r.board.regs;
            var mode := m.board.prgMode;
            && (0xA000 <= a <= 0xBFFF ==> PrgOffset(r, a) == (regs[7] % 0x40) * 0x2000 + (a - 0xA000))
            && (a <= 0x9FFF && !mode ==> PrgOffset(r, a) == (regs[6] % 0x40) * 0x2000 + (a - 0x8000))
            && (0xC000 <= a && mode ==> PrgOffset(r, a) == (regs[6] % 0x40) * 0x2000 + (a - 0xC000))
            && (a <= 0x9FFF && mode ==> PrgOffset(r, a) == (2 * m.romNum - 2) * 0x2000 + (a - 0x8000))
            && (0xC000 <= a && !mode ==> PrgOffset(r, a) == (2 * m.romNum - 2) * 0x2000 + (a - 0xC000))
  {
    var r := Mmc3Write(m, addr, data);
    var k := (a - 0x8000) / 0x2000;
    assert k == 0 || k == 1 || k == 2;
    assert a % 0x2000 == a - 0x8000 - 0x2000 * k;
    assert r.board.prgBanks[k] + a % 0x2000 < 0x1_0000_0000;
  }

  /** After a bank data write with CHR-ROM present, each 1 KB pattern window
      reads from the register that covers it. Window k of the PPU is window
      j = k (or k + 4 mod 8 under CHR inversion) of the normal layout: j >= 4
      is the 1 KB bank R(j-2); j < 4 is half of the 2 KB bank R(j/2), the even
      half at `R & 0xFE` and the odd half one kilobyte above `R` itself. */
  lemma {:induction false} Mmc3ChrWindows(m: Mapper, addr: word, data: byte, c: word)
    requires m.board.Mmc3? && Valid(m) && 0x8000 <= addr <= 0x9FFF && addr % 2 == 1
    requires c < 0x2000 && m.vromNum > 0
    ensures var r := Mmc3Write(m, addr, data);
            var regs := r.board.regs;
            var k := c / 0x400;
            var j := if m.board.chrInversion then (k + 4) % 8 else k;
            && (j >= 4 ==> ChrReadOffset(r, c) == regs[j - 2] * 0x400 + c % 0x400)
            && (j < 4 && j % 2 == 0 ==> ChrReadOffset(r, c) == (regs[j / 2] - regs[j / 2] % 2) * 0x400 + c % 0x400)
            && (j < 4 && j % 2 == 1 ==> ChrReadOffset(r, c) == regs[j / 2] * 0x400 + 0x400 + c % 0x400)
  {
    var r := Mmc3Write(m, addr, data);
    var k := c / 0x400;
    assert r.board.chrBanks == Mmc3ChrBanks(r.board.regs, m.board.chrInversion);
    Mmc3ChrBankOf(r.board.regs, m.board.chrInversion, k);
    assert ChrReadOffset(r, c) == U32(r.board.chrBanks[k] + c % 0x400);
  }

  lemma {:induction false} Mmc3ChrBankOf(regs: seq<byte>, inversion: bool, k: nat)
    requires |regs| == 8 && k < 8
    ensures var c := Mmc3ChrBanks(regs, inversion);
            var j := if inversion then (k + 4) % 8 else k;
            && c[k] < 0x1_0000_0000 - 0x400
            && (j >= 4 ==> c[k] == regs[j - 2] as int * 0x400)
            && (j < 4 && j % 2 == 0 ==> c[k] == (regs[j / 2] as int - regs[j / 2] as int % 2) * 0x400)
            && (j < 4 && j % 2 == 1 ==> c[k] == regs[j / 2] as int * 0x400 + 0x400)
  {
    if inversion {
      Mmc3InversionSwapsHalves(regs);
    }
  }

  /** The IRQ latch writes in order: the reload value `n` at 0xC000, a write
      at 0xC001 to zero the counter and one at 0xE001 to enable the IRQ make
      the (n + 1)-th following scanline raise the IRQ, and none before it. */
  lemma {:induction false} Mmc3ReloadThenIrq(m: Mapper, n: byte, d1: byte, d2: byte)
    requires m.board.Mmc3? && Valid(m) && !m.board.irqActive && n > 0
    ensures var r := Mmc3Write(Mmc3Write(Mmc3Write(m, 0xC000, n), 0xC001, d1), 0xE001, d2);
            && (forall k :: 0 <= k <= n ==> !Scanlines(r.board, k).irqActive)
            && Scanlines(r.board, n + 1).irqActive
  {
    var r := Mmc3Write(Mmc3Write(Mmc3Write(m, 0xC000, n), 0xC001, d1), 0xE001, d2);
    Mmc3IrqAfterReloadPlusOne(r.board, n);
  }
}
