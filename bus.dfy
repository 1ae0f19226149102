/** The system bus of bus.cpp. It gives the CPU its view of the 2 KB work
    RAM, the eight PPU registers, the sound and controller ports, the OAM
    DMA port and the cartridge. It also runs the master clock: the PPU steps
    every cycle, and the CPU (or the DMA in its place) every third one. */
module Console {
  import opened Bits
  import opened PpuRegs
  import opened Render
  import Video
  import Cart
  import Pad
  import Mappers

  // ---------------------------------------------------------- address decoding

  /** Where a CPU access lands. */
  datatype Port =
    | RamCell(cell: nat)        // `ram_data[addr & 0x7FF]`
    | PpuRegister(reg: nat)     // `addr & 0x2007`, as register 0 .. 7
    | Apu                       // the sound chip
    | DmaPort                   // 0x4014, written
    | Strobe                    // 0x4016, written: both controllers
    | Controller(second: bool)  // 0x4016 or 0x4017, read
    | Unmapped                  // the rest of 0x4000-0x5FFF on a read
    | Cartridge

  /** The target of `load`. 0x4000-0x5FFF answers only at 0x4015 (the sound
      status) and 0x4016/0x4017 (the two controllers). */
  function ReadPort(addr: word): (p: Port)
    ensures p.RamCell? <==> addr < 0x2000
    ensures p.PpuRegister? <==> 0x2000 <= addr < 0x4000
    ensures p.Cartridge? <==> 0x6000 <= addr
    ensures p.RamCell? ==> p.cell < 0x800
    ensures p.PpuRegister? ==> p.reg < 8
  {
    if addr < 0x2000 then RamCell(addr % 0x800)
    else if addr < 0x4000 then PpuRegister(addr % 8)
    else if addr == 0x4015 then Apu
    else if addr == 0x4016 then Controller(false)
    else if addr == 0x4017 then Controller(true)
    else if addr < 0x6000 then Unmapped
    else Cartridge
  }

  /** The target of `save`. Every address the code does not name, 0x4018 to
      0x5FFF included, goes to the cartridge, which ignores it below 0x6000. */
  function WritePort(addr: word): (p: Port)
    ensures p.RamCell? <==> addr < 0x2000
    ensures p.PpuRegister? <==> 0x2000 <= addr < 0x4000
    ensures p.Cartridge? <==> 0x4018 <= addr
    ensures p.RamCell? ==> p.cell < 0x800
    ensures p.PpuRegister? ==> p.reg < 8
  {
    if addr < 0x2000 then RamCell(addr % 0x800)
    else if addr < 0x4000 then PpuRegister(addr % 8)
    else if addr <= 0x4013 || addr == 0x4015 || addr == 0x4017 then Apu
    else if addr == 0x4014 then DmaPort
    else if addr == 0x4016 then Strobe
    else Cartridge
  }

  /** The 2 KB of work RAM appear four times below 0x2000: the addresses
      a, a + 0x800, a + 0x1000 and a + 0x1800 read and write the same cell. */
  lemma {:induction false} RamMirroring(a: nat, k: nat)
    requires a < 0x800 && k < 4
    ensures ReadPort(a + k * 0x800) == WritePort(a + k * 0x800) == RamCell(a)
  {
    assert (a + k * 0x800) % 0x800 == a;
  }

  /** The eight PPU registers repeat every 8 bytes up to 0x3FFF, for reads and
      writes alike. */
  lemma {:induction false} PpuRegisterMirroring(r: nat, k: nat)
    requires r < 8 && k < 0x400
    ensures ReadPort(0x2000 + 8 * k + r) == WritePort(0x2000 + 8 * k + r) == PpuRegister(r)
  {
    assert (0x2000 + 8 * k + r) % 8 == r;
  }

  /** Reads and writes reach the same device everywhere but 0x4000-0x5FFF,
      where 0x4014 and 0x4016 are write ports, 0x4016 and 0x4017 read the
      controllers, and writes to 0x4018-0x5FFF go to the cartridge while reads
      there return 0. */
  lemma {:induction false} ReadsAndWritesAgree(addr: word)
    ensures addr < 0x4000 || 0x6000 <= addr ==> ReadPort(addr) == WritePort(addr)
    ensures 0x4018 <= addr < 0x6000 ==> ReadPort(addr) == Unmapped && WritePort(addr) == Cartridge
    ensures addr == 0x4014 ==> ReadPort(addr) == Unmapped && WritePort(addr) == DmaPort
    ensures addr == 0x4016 ==> ReadPort(addr) == Controller(false) && WritePort(addr) == Strobe
    ensures addr == 0x4017 ==> ReadPort(addr) == Controller(true) && WritePort(addr) == Apu
  {
  }

  /** The reads that change nothing: all but PPUSTATUS, PPUDATA and the two
      controllers. */
  predicate QuietRead(p: Port)
  {
    p != PpuRegister(2) && p != PpuRegister(7) && !p.Controller?
  }

  // ---------------------------------------------------------- OAM DMA

  /** The DMA registers `dma_page`, `dma_addr`, `dma_data`, `dma_dummy` and
      `dma_transfer`. */
  datatype Dma = Dma(page: byte, addr: byte, data: byte, dummy: bool, transfer: bool)

  /** The defaults of bus.h: no transfer, waiting for synchronisation. */
  const DmaIdle: Dma := Dma(0, 0, 0, true, false)

  /** A write to 0x4014: the page to copy, from its first byte. */
  function DmaStart(d: Dma, page: byte): (r: Dma)
    ensures r.transfer && r.addr == 0 && r.page == page
    ensures r.dummy == d.dummy && r.data == d.data
  {
    d.(page := page, addr := 0, transfer := true)
  }

  /** One DMA slot of `clock` (a cycle whose count is a multiple of 3). A
      transfer first waits for an odd count; then an even count fetches the
      byte at page:addr, which the bus returns as `fetched`, and an odd count
      stores it at OAM[addr] and moves to the next byte. After the byte at
      addr 0xFF the transfer ends, waiting again. Gives the new registers and
      the OAM. */
  function DmaCycle(d: Dma, odd: bool, fetched: byte, oam: seq<byte>): (r: (Dma, seq<byte>))
    requires |oam| == 256
    ensures |r.1| == 256 && r.0.page == d.page
    ensures r.1 != oam ==> d.transfer && !d.dummy && odd && r.1 == oam[d.addr := d.data]
  {
    if !d.transfer then (d, oam)
    else if d.dummy then (d.(dummy := !odd), oam)
    else if !odd then (d.(data := fetched), oam)
    else
      var a := (d.addr + 1) % 0x100;
      (d.(addr := a, transfer := a != 0, dummy := a == 0), oam[d.addr := d.data])
  }

  /** `n` successive DMA slots from `d`, the first at an odd count when `odd`,
      fetching from a page whose bytes are `src`. */
  function Transfer(d: Dma, odd: bool, src: seq<byte>, oam: seq<byte>, n: nat): (r: (Dma, seq<byte>))
    requires |src| == 256 && |oam| == 256
    ensures |r.1| == 256 && r.0.page == d.page
    decreases n
  {
    if n == 0 then (d, oam)
    else
      var s := DmaCycle(d, odd, src[d.addr], oam);
      Transfer(s.0, !odd, src, s.1, n - 1)
  }

  /** From the fetch of byte i on, 2 * (256 - i) slots copy bytes i .. 255
      and end the transfer with the registers waiting again. */
  lemma {:induction false} CopyRest(d: Dma, src: seq<byte>, oam: seq<byte>)
    requires |src| == 256 && |oam| == 256
    requires d.transfer && !d.dummy && oam[..d.addr] == src[..d.addr]
    ensures var r := Transfer(d, false, src, oam, 2 * (256 - d.addr));
            && r.1 == src && r.0.page == d.page
            && !r.0.transfer && r.0.dummy && r.0.addr == 0
    decreases 256 - d.addr
  {
    var i: int := d.addr;
    var d1 := d.(data := src[i]);
    assert DmaCycle(d, false, src[i], oam) == (d1, oam);
    var a := (i + 1) % 0x100;
    var d2 := d1.(addr := a, transfer := a != 0, dummy := a == 0);
    var o2 := oam[i := src[i]];
    assert DmaCycle(d1, true, src[d1.addr], oam) == (d2, o2);
    assert Transfer(d, false, src, oam, 2 * (256 - i)) == Transfer(d2, false, src, o2, 2 * (256 - i) - 2);
    assert o2[..i + 1] == src[..i + 1] by {
      assert o2[..i] == oam[..i];
    }
    if i == 255 {
      assert o2 == o2[..256] && src == src[..256];
    } else {
      assert a == i + 1;
      CopyRest(d2, src, o2);
    }
  }

  /** A transfer started by a write to 0x4014 while the DMA waits (as it
      does from the start and after every transfer) copies the 256 bytes of
      the page into OAM in order and ends waiting again. It takes 513 CPU
      slots when started at an odd count and 514 at an even one: one or two
      to synchronise, then 256 fetch and store pairs. */
  lemma {:induction false} TransferCopiesPage(d: Dma, odd: bool, src: seq<byte>, oam: seq<byte>)
    requires |src| == 256 && |oam| == 256
    requires d.transfer && d.dummy && d.addr == 0
    ensures var r := Transfer(d, odd, src, oam, (if odd then 1 else 2) + 512);
            && r.1 == src && r.0.page == d.page
            && !r.0.transfer && r.0.dummy && r.0.addr == 0
  {
    var synced := d.(dummy := false);
    assert oam[..0] == src[..0];
    CopyRest(synced, src, oam);
    if odd {
      assert Transfer(d, odd, src, oam, 513) == Transfer(synced, false, src, oam, 512);
    } else {
      assert DmaCycle(d, false, src[0], oam) == (d, oam);
      assert Transfer(d, odd, src, oam, 514) == Transfer(d, true, src, oam, 513);
      assert Transfer(d, true, src, oam, 513) == Transfer(synced, false, src, oam, 512);
    }
  }

  // ---------------------------------------------------------- the clock

  /** `clock_count` after a cycle: brought below 0x3FFFFFFF on the cycles
      the CPU runs, then incremented as a `quint32`. */
  function NextCount(count: nat, cpuRuns: bool): (c: nat)
    requires count < 0x1_0000_0000
    ensures c < 0x1_0000_0000
    ensures cpuRuns ==> c <= 0x3FFFFFFF
  {
    ((if cpuRuns then count % 0x3FFFFFFF else count) + 1) % 0x1_0000_0000
  }

  /** The reduction modulo 0x3FFFFFFF keeps the 3:1 rhythm: 0x3FFFFFFF is a
      multiple of 3, so the cycle after a CPU cycle is still one past a
      multiple of 3. */
  lemma {:induction false} CountKeepsRhythm(count: nat)
    requires count < 0x1_0000_0000 && count % 3 == 0
    ensures NextCount(count, true) % 3 == 1
  {
    var q := count / 0x3FFFFFFF;
    var r := count % 0x3FFFFFFF;
    assert count == 3 * (0x15555555 * q) + r;
    assert r % 3 == 0;
    assert r + 1 < 0x1_0000_0000;
  }

  // ---------------------------------------------------------- the bus

  /** The bus's own part of a save file: the RAM, the count and the DMA
      registers, in the order `operator<<` writes them. */
  datatype BusState = BusState(ram: seq<byte>, clockCount: nat, dma: Dma)

  class Bus {
    /** `ram_data` */
    const ram: array<byte>
    /** `clock_count`, a `quint32` */
    var clockCount: nat
    var dma: Dma
    /** The sound chip is not part of this model: a read of 0x4015 returns
        `apuStatus` and the writes sent to its registers are kept in order. */
    var apuStatus: byte
    var apuWrites: seq<(word, byte)>
    const ppu: Video.Ppu
    /** `cartridge`, the one the PPU is connected to. */
    const cart: Cart.Cartridge
    const left: Pad.Controller
    const right: Pad.Controller

    ghost predicate Valid()
      reads this, ppu, cart, left, right
    {
      && ram.Length == 0x800 && clockCount < 0x1_0000_0000
      && ppu.cart == cart && ppu.Valid()
      && left.Valid() && right.Valid() && left != right
      && ram != ppu.names && ram != ppu.palette && ram != ppu.oam && ram != ppu.frame
    }

    /** `Bus()`: a PPU connected to the loaded cartridge `c`, both
        controllers through `init`, the count at 0 and the DMA registers at
        their defaults. */
    constructor (c: Cart.Cartridge, leftKeys: array<bool>, rightKeys: array<bool>)
      requires c.Valid() && c.mapper.Some? && leftKeys.Length == 8 && rightKeys.Length == 8
      modifies leftKeys, rightKeys
      ensures Valid() && cart == c && clockCount == 0 && dma == DmaIdle
      ensures fresh(ram) && fresh(ppu) && fresh(left) && fresh(right)
      ensures left.live == leftKeys && right.live == rightKeys
      ensures !left.strobe && left.keystate == 0 && !right.strobe && right.keystate == 0
    {
      ram := new byte[0x800](_ => 0);
      clockCount := 0;
      dma := DmaIdle;
      apuStatus, apuWrites := 0, [];
      cart := c;
      ppu := new Video.Ppu(c);
      left := new Pad.Controller(leftKeys);
      right := new Pad.Controller(rightKeys);
      new;
      left.Init();
      right.Init();
    }

    /** What a quiet read returns, port by port of the `load` map: the RAM
        cell, OAMDATA, the sound status or the cartridge; the write-only PPU
        registers and the unmapped ports read 0. */
    function Peek(addr: word): (v: byte)
      requires Valid() && QuietRead(ReadPort(addr))
      reads this, ram, ppu, ppu.oam, cart, left, right
      ensures ReadPort(addr).RamCell? ==> v == ram[ReadPort(addr).cell]
      ensures ReadPort(addr) == PpuRegister(4) ==> v == ppu.OamData()
      ensures ReadPort(addr).PpuRegister? && ReadPort(addr) != PpuRegister(4) ==> v == 0
      ensures ReadPort(addr) == Apu ==> v == apuStatus
      ensures ReadPort(addr) == Unmapped ==> v == 0
      ensures ReadPort(addr).Cartridge? ==> v == cart.CpuRead(addr)
    {
      if addr < 0x2000 then ram[addr % 0x800]
      else if addr < 0x4000 then (if addr % 8 == 4 then ppu.OamData() else 0)
      else if addr == 0x4015 then apuStatus
      else if addr < 0x6000 then 0
      else cart.CpuRead(addr)
    }

    /** `load`: a quiet read returns what `Peek` says and changes nothing;
        PPUSTATUS, PPUDATA and the controllers do what their own reads do. */
    method Load(addr: word) returns (v: byte)
      requires Valid()
      modifies ppu`status, ppu`latch, ppu`buffer, ppu`vram, left, right
      ensures Valid()
      ensures QuietRead(ReadPort(addr)) ==> v == old(Peek(addr)) && unchanged(ppu, left, right)
      ensures ReadPort(addr) == PpuRegister(2) ==>
                && v == old(Video.StatusByte(ppu.status, ppu.buffer)) as int
                && ppu.status == WithFlag(old(ppu.status), VerticalBlank, false) && !ppu.latch
                && ppu.buffer == old(ppu.buffer) && ppu.vram == old(ppu.vram)
                && unchanged(left, right)
      ensures ReadPort(addr) == PpuRegister(7) ==>
                && ppu.buffer == old(ppu.PpuRead(ppu.vram as int))
                && v == (if Video.ImmediateAsWritten(old(ppu.vram)) then ppu.buffer else old(ppu.buffer))
                && ppu.vram == Stepped(old(ppu.vram), Flag(ppu.ctrl, IncrementMode))
                && ppu.status == old(ppu.status) && ppu.latch == old(ppu.latch)
                && unchanged(left, right)
      ensures ReadPort(addr).Controller? ==>
                var pad := if addr == 0x4017 then right else left;
                var other := if addr == 0x4017 then left else right;
                && unchanged(ppu, other)
                && pad.strobe == old(pad.strobe)
                && (pad.strobe ==> v == (if pad.live[Pad.KeyA] then 0x41 else 0x40) && pad.keystate == old(pad.keystate))
                && (!pad.strobe ==> (v, pad.keystate) == Pad.ShiftOut(old(pad.keystate)))
    {
      match ReadPort(addr)
      case PpuRegister(r) =>
        v := LoadPpu(r);
      case Controller(second) =>
        if second {
          v := right.Output();
        } else {
          v := left.Output();
        }
      case RamCell(c) =>
        v := ram[c];
      case Apu =>
        v := apuStatus;
      case Cartridge =>
        v := cart.CpuRead(addr);
      case _ =>
        v := 0;
    }

    /** A read of PPU register `r`: PPUSTATUS, OAMDATA and PPUDATA answer;
        the five write-only registers read as 0. */
    method LoadPpu(r: nat) returns (v: byte)
      requires Valid() && r < 8
      modifies ppu`status, ppu`latch, ppu`buffer, ppu`vram
      ensures Valid()
      ensures r != 2 && r != 7 ==> v == (if r == 4 then old(ppu.OamData()) else 0) && unchanged(ppu)
      ensures r == 2 ==>
                && v == old(Video.StatusByte(ppu.status, ppu.buffer)) as int
                && ppu.status == WithFlag(old(ppu.status), VerticalBlank, false) && !ppu.latch
                && ppu.buffer == old(ppu.buffer) && ppu.vram == old(ppu.vram)
      ensures r == 7 ==>
                && ppu.buffer == old(ppu.PpuRead(ppu.vram as int))
                && v == (if Video.ImmediateAsWritten(old(ppu.vram)) then ppu.buffer else old(ppu.buffer))
                && ppu.vram == Stepped(old(ppu.vram), Flag(ppu.ctrl, IncrementMode))
                && ppu.status == old(ppu.status) && ppu.latch == old(ppu.latch)
    {
      if r == 2 {
        var s := ppu.GetStatus();
        v := s as int;
      } else if r == 4 {
        v := ppu.OamData();
      } else if r == 7 {
        v := ppu.ReadData();
      } else {
        v := 0;
      }
    }

    /** The registers of the bus itself. */
    function Registers(): (nat, Dma, byte, seq<(word, byte)>)
      reads this
    {
      (clockCount, dma, apuStatus, apuWrites)
    }

    /** `save`: RAM, a PPU register, the sound chip, the DMA port, the
        controllers' strobe or the cartridge, each through its own write; the
        rest of the machine keeps its state. A write to PPUSTATUS changes
        nothing. `ok` is false only for the cartridge write that makes CNROM
        divide by a zero CHR bank count. */
    method Save(addr: word, data: byte) returns (ok: bool)
      requires Valid()
      modifies this, ram, ppu`ctrl, ppu`tram, ppu`mask, ppu`oamAddr, ppu`fineX, ppu`latch, ppu`vram,
               ppu.oam, ppu.names, ppu.palette, cart, left, right
      ensures Valid()
      ensures WritePort(addr).Cartridge? ==>
                && ram[..] == old(ram[..]) && Registers() == old(Registers())
                && unchanged(ppu, ppu.oam, ppu.names, ppu.palette, left, right)
                && SavedCart(addr, data, ok)
      ensures !WritePort(addr).Cartridge? ==> ok
      ensures !WritePort(addr).Cartridge? && WritePort(addr) != PpuRegister(7) ==> unchanged(cart)
      ensures WritePort(addr).RamCell? ==>
                && ram[..] == old(ram[..])[addr % 0x800 := data] && Registers() == old(Registers())
                && unchanged(ppu, ppu.oam, ppu.names, ppu.palette, left, right)
      ensures WritePort(addr) == PpuRegister(2) ==>
                && ram[..] == old(ram[..]) && unchanged(this, ppu, ppu.names, ppu.palette, left, right)
                && ppu.oam[..] == old(ppu.oam[..])
      ensures WritePort(addr).PpuRegister? ==>
                && ram[..] == old(ram[..]) && Registers() == old(Registers()) && unchanged(left, right)
                && SavedPpu(addr % 8, data)
      ensures WritePort(addr) in {Apu, DmaPort, Strobe} ==>
                && ram[..] == old(ram[..]) && unchanged(ppu, ppu.oam, ppu.names, ppu.palette)
                && SavedIo(addr, data)
    {
      ok := true;
      match WritePort(addr)
      case RamCell(c) =>
        ram[c] := data;
      case PpuRegister(r) =>
        SavePpu(r, data);
      case Apu =>
        SaveIo(addr, data);
      case DmaPort =>
        SaveIo(addr, data);
      case Strobe =>
        SaveIo(addr, data);
      case Cartridge =>
        ok := SaveCart(addr, data);
      case _ =>
        assert false;
    }

    /** What `CpuWrite` promises: PRG-RAM at 0x6000-0x7FFF when the board
        has it, a mapper register write at 0x8000 and above (refused only by
        CNROM with no CHR bank), nothing below 0x6000; the images stay. */
    twostate predicate SavedCart(addr: word, data: byte, ok: bool)
      requires old(cart.Valid()) && old(cart.mapper).Some?
      reads cart
    {
      && cart.prg == old(cart.prg) && cart.chr == old(cart.chr) && cart.chrRam == old(cart.chrRam)
      && cart.romNum == old(cart.romNum) && cart.vromNum == old(cart.vromNum)
      && (addr < 0x6000 ==> ok && cart.mapper == old(cart.mapper) && cart.prgRam == old(cart.prgRam))
      && (0x6000 <= addr < 0x8000 ==>
            && ok && cart.mapper == old(cart.mapper)
            && var off := Mappers.PrgRamOffset(old(cart.mapper).value, addr);
               cart.prgRam == if off == Mappers.NoRam then old(cart.prgRam) else old(cart.prgRam)[off := data])
      && (0x8000 <= addr ==>
            && cart.prgRam == old(cart.prgRam)
            && var w := Mappers.WritePrg(old(cart.mapper).value, addr, data);
               && (ok <==> w.Some?) && cart.mapper == if w.Some? then w else old(cart.mapper))
    }

    /** A write that lands on the cartridge. */
    method SaveCart(addr: word, data: byte) returns (ok: bool)
      requires Valid()
      modifies cart
      ensures Valid() && SavedCart(addr, data, ok)
    {
      ok := cart.CpuWrite(addr, data);
    }

    /** What a write to the sound chip, the DMA port or the strobe does: the
        sound chip receives it, a DMA transfer of the page starts, or both
        controllers take the strobe. */
    twostate predicate SavedIo(addr: word, data: byte)
      reads this, left, right, left.live, right.live
    {
      && (WritePort(addr) == Apu ==>
            && apuWrites == old(apuWrites) + [(addr, data)] && unchanged(left, right)
            && clockCount == old(clockCount) && dma == old(dma) && apuStatus == old(apuStatus))
      && (WritePort(addr) == DmaPort ==>
            && dma == DmaStart(old(dma), data) && unchanged(left, right)
            && clockCount == old(clockCount) && apuWrites == old(apuWrites) && apuStatus == old(apuStatus))
      && (WritePort(addr) == Strobe ==>
            Registers() == old(Registers()) && Strobed(left, data) && Strobed(right, data))
    }

    /** A write to the sound chip, the DMA port or the strobe. */
    method SaveIo(addr: word, data: byte)
      requires Valid() && WritePort(addr) in {Apu, DmaPort, Strobe}
      modifies this, left, right
      ensures Valid() && SavedIo(addr, data)
    {
      if WritePort(addr) == Apu {
        apuWrites := apuWrites + [(addr, data)];
      } else if WritePort(addr) == DmaPort {
        dma := DmaStart(dma, data);
      } else {
        left.WriteStrobe(data);
        right.WriteStrobe(data);
      }
    }

    /** What `write_strobe` promises of one controller. */
    twostate predicate Strobed(pad: Pad.Controller, data: byte)
      reads pad, pad.live
    {
      && pad.strobe == (data % 2 == 1)
      && (old(pad.strobe) && !pad.strobe ==> pad.keystate == Pad.Packed(pad.live[..]))
      && (!(old(pad.strobe) && !pad.strobe) ==> pad.keystate == old(pad.keystate))
    }

    /** What a write to PPU register `r` promises, register by register,
        with every other register of the PPU kept: PPUCTRL takes the byte and
        copies its two nametable bits into the scroll latch; PPUMASK and
        OAMADDR take the byte; OAMDATA stores it at OAMADDR; PPUSCROLL sets
        fine X and coarse X on the first write, fine Y and coarse Y on the
        second; PPUADDR fills the latch high byte first and copies it into
        the PPU address on the second write; PPUDATA stores the byte at the
        PPU address and steps it; PPUSTATUS ignores it. Only PPUDATA reaches
        the nametables, the palette or the cartridge. */
    twostate predicate SavedPpu(r: nat, data: byte)
      reads this, ppu, ppu.oam, ppu.names, ppu.palette, cart, ppu.cart
    {
      && (r == 0 ==>
            && ppu.ctrl == data as bv8
            && Get(ppu.tram, NametableX) == (if Flag(ppu.ctrl, CtrlNametableX) then 1 else 0)
            && Get(ppu.tram, NametableY) == (if Flag(ppu.ctrl, CtrlNametableY) then 1 else 0)
            && Get(ppu.tram, CoarseX) == Get(old(ppu.tram), CoarseX)
            && Get(ppu.tram, CoarseY) == Get(old(ppu.tram), CoarseY)
            && Get(ppu.tram, FineY) == Get(old(ppu.tram), FineY) && ppu.tram & 0x8000 == old(ppu.tram) & 0x8000
            && ppu.mask == old(ppu.mask) && ppu.oamAddr == old(ppu.oamAddr) && ppu.fineX == old(ppu.fineX)
            && ppu.latch == old(ppu.latch) && ppu.vram == old(ppu.vram))
      && (r == 1 ==>
            && ppu.mask == data as bv8
            && ppu.ctrl == old(ppu.ctrl) && ppu.tram == old(ppu.tram) && ppu.oamAddr == old(ppu.oamAddr)
            && ppu.fineX == old(ppu.fineX) && ppu.latch == old(ppu.latch) && ppu.vram == old(ppu.vram))
      && (r == 2 ==> unchanged(ppu))
      && (r == 3 ==>
            && ppu.oamAddr == data
            && ppu.ctrl == old(ppu.ctrl) && ppu.tram == old(ppu.tram) && ppu.mask == old(ppu.mask)
            && ppu.fineX == old(ppu.fineX) && ppu.latch == old(ppu.latch) && ppu.vram == old(ppu.vram))
      && (r == 4 ==> ppu.oam.Length == 256 && ppu.oam[..] == old(ppu.oam[..])[old(ppu.oamAddr) := data] && unchanged(ppu))
      && (r == 5 ==>
            && ppu.latch == !old(ppu.latch)
            && (!old(ppu.latch) ==>
                  && ppu.fineX == data % 8 && Get(ppu.tram, CoarseX) == (data / 8) as bv16
                  && Get(ppu.tram, CoarseY) == Get(old(ppu.tram), CoarseY) && Get(ppu.tram, FineY) == Get(old(ppu.tram), FineY))
            && (old(ppu.latch) ==>
                  && ppu.fineX == old(ppu.fineX) && Get(ppu.tram, FineY) == (data % 8) as bv16
                  && Get(ppu.tram, CoarseY) == (data / 8) as bv16 && Get(ppu.tram, CoarseX) == Get(old(ppu.tram), CoarseX))
            && Get(ppu.tram, NametableX) == Get(old(ppu.tram), NametableX)
            && Get(ppu.tram, NametableY) == Get(old(ppu.tram), NametableY)
            && ppu.tram & 0x8000 == old(ppu.tram) & 0x8000
            && ppu.ctrl == old(ppu.ctrl) && ppu.mask == old(ppu.mask) && ppu.oamAddr == old(ppu.oamAddr)
            && ppu.vram == old(ppu.vram))
      && (r == 6 ==>
            && ppu.latch == !old(ppu.latch)
            && ppu.tram == AddrLatch(old(ppu.tram), data, !old(ppu.latch))
            && ppu.vram == (if old(ppu.latch) then ppu.tram else old(ppu.vram))
            && ppu.ctrl == old(ppu.ctrl) && ppu.mask == old(ppu.mask) && ppu.oamAddr == old(ppu.oamAddr)
            && ppu.fineX == old(ppu.fineX))
      && (r == 7 ==>
            && ppu.vram == Stepped(old(ppu.vram), Flag(ppu.ctrl, IncrementMode))
            && ppu.ctrl == old(ppu.ctrl) && ppu.tram == old(ppu.tram) && ppu.mask == old(ppu.mask)
            && ppu.oamAddr == old(ppu.oamAddr) && ppu.fineX == old(ppu.fineX) && ppu.latch == old(ppu.latch))
      && (r == 7 ==>
            && ppu.Valid() && ppu.names.Length == 0x800 && ppu.palette.Length == 32 && |old(cart.chrRam)| == 0x2000
            && ppu.Wrote(old(ppu.vram) as int, data, old(ppu.names[..]), old(ppu.palette[..]), old(cart.chrRam))
            && cart.mapper == old(cart.mapper) && ppu.CartImage() == old(ppu.CartImage()))
      && (r != 4 ==> ppu.oam[..] == old(ppu.oam[..]))
      && (r != 7 ==> unchanged(cart, ppu.names, ppu.palette))
    }

    /** A write to PPU register `r`. */
    method SavePpu(r: nat, data: byte)
      requires Valid() && r < 8
      modifies ppu`ctrl, ppu`tram, ppu`mask, ppu`oamAddr, ppu`fineX, ppu`latch, ppu`vram,
               ppu.oam, ppu.names, ppu.palette, cart
      ensures Valid() && SavedPpu(r, data)
      ensures r != 7 ==> unchanged(cart, ppu.names, ppu.palette)
    {
      if r < 4 {
        SaveLowPpu(r, data);
      } else {
        SaveHighPpu(r, data);
      }
    }

    /** A write to PPUCTRL, PPUMASK, PPUSTATUS or OAMADDR. */
    method SaveLowPpu(r: nat, data: byte)
      requires Valid() && r < 4
      modifies ppu`ctrl, ppu`tram, ppu`mask, ppu`oamAddr
      ensures Valid() && SavedPpu(r, data)
    {
      if r == 0 {
        ppu.WriteCtrl(data);
      } else if r == 1 {
        ppu.WriteMask(data);
      } else if r == 3 {
        ppu.WriteOamAddr(data);
      }
    }

    /** A write to OAMDATA, PPUSCROLL, PPUADDR or PPUDATA. */
    method SaveHighPpu(r: nat, data: byte)
      requires Valid() && 4 <= r < 8
      modifies ppu`tram, ppu`fineX, ppu`latch, ppu`vram, ppu.oam, ppu.names, ppu.palette, cart
      ensures Valid() && SavedPpu(r, data)
      ensures r != 7 ==> unchanged(cart, ppu.names, ppu.palette)
    {
      if r == 4 {
        ppu.WriteOamData(data);
      } else if r == 5 {
        ppu.WriteScroll(data);
      } else if r == 6 {
        ppu.WriteAddr(data);
      } else {
        ppu.WriteData(data);
      }
    }

    /** A DMA slot while a transfer is under way, as `DmaCycle` says; the
        fetch is a bus read of page:addr, which for a quiet address returns
        what `Peek` says and changes nothing else. */
    method DmaSlot()
      requires Valid() && dma.transfer
      modifies this`dma, ppu.oam, ppu`status, ppu`latch, ppu`buffer, ppu`vram, left, right
      ensures Valid()
      ensures (dma, ppu.oam[..]) == DmaCycle(old(dma), clockCount % 2 == 1, dma.data, old(ppu.oam[..]))
      ensures var a := old(dma.page) * 0x100 + old(dma.addr);
              !old(dma.dummy) && clockCount % 2 == 0 && QuietRead(ReadPort(a)) ==> dma.data == old(Peek(a))
    {
      if dma.dummy {
        if clockCount % 2 == 1 {
          dma := dma.(dummy := false);
        }
      } else if clockCount % 2 == 0 {
        var v := Load(dma.page * 0x100 + dma.addr);
        dma := dma.(data := v);
      } else {
        ppu.oam[dma.addr] := dma.data;
        var a := (dma.addr + 1) % 0x100;
        dma := dma.(addr := a);
        if a == 0 {
          dma := dma.(transfer := false, dummy := true);
        }
      }
    }

    /** `clock`: the PPU steps; on every third cycle the DMA takes the slot
        while a transfer is under way, and the CPU otherwise; a raised NMI
        and a pending mapper IRQ are cleared and handed to the CPU in the
        same cycle; the count moves on. The CPU's own step and interrupt
        entries are reported in `cpuClocked`, `nmi` and `irq`. */
    method Clock() returns (cpuClocked: bool, nmi: bool, irq: bool)
      requires Valid()
      modifies this, ppu, ppu.line, ppu.spriteLo, ppu.spriteHi, ppu.frame, ppu.oam, cart, left, right
      ensures Valid()
      ensures cpuClocked == (old(clockCount) % 3 == 0 && !old(dma.transfer))
      ensures clockCount == NextCount(old(clockCount), cpuClocked)
      ensures ppu.beam == Tick(old(ppu.beam), old(ppu.Rendering()))
      ensures nmi == old(ppu.NmiRaised()) && !ppu.nmi
      ensures var m := if old(ppu.Rendering()) && old(ppu.beam.cycle) == 259 && old(ppu.beam.scanline) < 240
                       then Mappers.Scanline(old(cart.mapper).value) else old(cart.mapper).value;
              && irq == Mappers.IrqState(m)
              && cart.mapper == Some(if irq then Mappers.IrqClear(m) else m)
      ensures old(clockCount) % 3 == 0 ==>
                (dma, ppu.oam[..]) == DmaCycle(old(dma), old(clockCount) % 2 == 1, dma.data, old(ppu.oam[..]))
      ensures old(clockCount) % 3 != 0 ==> dma == old(dma) && ppu.oam[..] == old(ppu.oam[..])
      ensures var a := old(dma.page) * 0x100 + old(dma.addr);
              old(clockCount) % 6 == 0 && old(dma.transfer) && !old(dma.dummy) && a < 0x2000 ==>
                dma.data == old(ram[a % 0x800])
      ensures ram[..] == old(ram[..]) && apuWrites == old(apuWrites) && apuStatus == old(apuStatus)
    {
      ppu.Clock();
      cpuClocked := CpuSlot();
      nmi := DeliverNmi();
      irq := DeliverIrq();
      clockCount := NextCount(clockCount, cpuClocked);
    }

    /** The every-third-cycle part of `clock`: the DMA slot while a transfer
        is under way, the CPU's otherwise. */
    method CpuSlot() returns (cpuClocked: bool)
      requires Valid()
      modifies this`dma, ppu.oam, ppu`status, ppu`latch, ppu`buffer, ppu`vram, left, right
      ensures Valid()
      ensures cpuClocked == (clockCount % 3 == 0 && !old(dma.transfer))
      ensures clockCount % 3 == 0 ==>
                (dma, ppu.oam[..]) == DmaCycle(old(dma), clockCount % 2 == 1, dma.data, old(ppu.oam[..]))
      ensures clockCount % 3 != 0 ==> dma == old(dma) && ppu.oam[..] == old(ppu.oam[..])
      ensures var a := old(dma.page) * 0x100 + old(dma.addr);
              clockCount % 6 == 0 && old(dma.transfer) && !old(dma.dummy) && a < 0x2000 ==>
                dma.data == old(ram[a % 0x800])
    {
      cpuClocked := false;
      if clockCount % 3 == 0 {
        if dma.transfer {
          DmaSlot();
        } else {
          cpuClocked := true;
        }
      }
    }

    /** A raised NMI line is cleared and handed to the CPU. */
    method DeliverNmi() returns (nmi: bool)
      requires Valid()
      modifies ppu`nmi
      ensures Valid() && nmi == old(ppu.nmi) && !ppu.nmi
    {
      nmi := ppu.nmi;
      if nmi {
        ppu.nmi := false;
      }
    }

    /** A pending mapper IRQ is acknowledged and handed to the CPU. */
    method DeliverIrq() returns (irq: bool)
      requires Valid()
      modifies cart
      ensures Valid() && irq == Mappers.IrqState(old(cart.mapper).value)
      ensures cart.mapper == Some(if irq then Mappers.IrqClear(old(cart.mapper).value) else old(cart.mapper).value)
      ensures ppu.CartImage() == old(ppu.CartImage()) && cart.chrRam == old(cart.chrRam)
    {
      irq := cart.IrqPending();
      if irq {
        cart.IrqAcknowledge();
      }
    }

    /** `reset`: RAM cleared, the count back to 0 and the PPU reset; the DMA
        registers keep their values. */
    method Reset()
      requires Valid()
      modifies this`clockCount, ram, ppu`status, ppu`mask, ppu`ctrl, ppu`vram, ppu`tram, ppu`fineX,
               ppu`latch, ppu`buffer, ppu`beam, ppu`next, ppu`bg, ppu.names, ppu.palette, ppu.frame
      ensures Valid() && clockCount == 0
      ensures forall i :: 0 <= i < ram.Length ==> ram[i] == 0
      ensures ppu.status == 0 && ppu.mask == 0 && ppu.ctrl == 0 && ppu.vram == 0 && ppu.tram == 0
      ensures ppu.fineX == 0 && !ppu.latch && ppu.buffer == 0 && ppu.beam == Beam(0, 0, false, false)
      ensures ppu.next == Fetched(0, 0, 0, 0) && ppu.bg == Shifters(0, 0, 0, 0)
      ensures forall i :: 0 <= i < ppu.names.Length ==> ppu.names[i] == 0
      ensures forall i :: 0 <= i < ppu.palette.Length ==> ppu.palette[i] == 0
      ensures forall i :: 0 <= i < ppu.frame.Length ==> ppu.frame[i] == 0
    {
      forall i | 0 <= i < ram.Length {
        ram[i] := 0;
      }
      clockCount := 0;
      ppu.Reset();
    }

    /** The bus's part of a save file (`operator<<`). */
    function Snapshot(): (s: BusState)
      reads this, ram
      ensures |s.ram| == ram.Length
    {
      BusState(ram[..], clockCount, dma)
    }

    /** `operator>>` for the bus's own state: a save file whose identity tag
        is not the cartridge's (`md5_val`) leaves everything as it was;
        otherwise the RAM, the count and the DMA registers take the saved
        values. */
    method Restore(tag: seq<byte>, identity: seq<byte>, s: BusState)
      requires Valid() && |s.ram| == 0x800 && s.clockCount < 0x1_0000_0000
      modifies this`clockCount, this`dma, ram
      ensures Valid()
      ensures tag != identity ==> Snapshot() == old(Snapshot())
      ensures tag == identity ==> Snapshot() == s
    {
      if tag != identity {
        return;
      }
      var i := 0;
      while i < 0x800
        invariant 0 <= i <= 0x800
        invariant ram[..i] == s.ram[..i]
      {
        ram[i] := s.ram[i];
        i := i + 1;
      }
      assert ram[..] == s.ram;
      clockCount := s.clockCount;
      dma := s.dma;
    }
  }
}
