# A verified model of the Qt NES emulator core

This project models the core of an NES emulator written in C++ with Qt. The
model covers:

- **The 6502 CPU** (`cpu.cpp`, `cpu.h`). It has the 256-entry instruction
  table, the 12 addressing modes and the 56 operations plus `XXX`. It also has
  the stack at `0x100 + sp`, the `irq`/`nmi`/`reset` entries and the per-cycle
  `clock` with its wait counter.
- **The 2C02 PPU** (`ppu.cpp`, `ppu.h`):
  - the eight memory-mapped registers, with the write latch and the loopy
    scroll registers;
  - `ppuRead`/`ppuWrite` over the pattern tables, the mirrored nametables and
    the aliased palette;
  - the background fetch pipeline and its shifters;
  - sprite evaluation and sprite fetch;
  - pixel priority and sprite zero hit;
  - the beam with its odd-frame skip and the vertical blank NMI.
- **The bus** (`bus.cpp`). It decodes the CPU's address map and runs OAM DMA.
  Its `clock` has a 3:1 PPU-to-CPU rhythm. It covers the bus's part of the save
  file.
- **The cartridge** (`cartridge.cpp`). It parses the iNES header and routes
  PRG and CHR accesses through the mapper.
- **The mappers**: NROM (0), MMC1 (1), UxROM (2), CNROM (3), MMC3 (4) and
  GxROM (66).
- **The controller** (`controller.cpp`). It latches the eight buttons and
  shifts them out.

The model keeps the code's quirks, and each of these is stated in a contract:

- the sprite overflow flag is set as soon as eight sprites are taken;
- a controller read after the eighth returns 0x40;
- opcode 0xEB is SBC with implied addressing;
- CNROM reduces its bank number modulo `vrom_num`, and has no result when
  `vrom_num` is 0;
- MMC3 builds its 2 KB CHR windows as `R * 0x400 + 0x400`;
- JMP (indirect) has its page-wrap bug;
- a push at `sp == 0` and the illegal opcode both end the interpreter with a
  fatal result;
- a PPUDATA read decides whether to bypass its buffer on the raw 16-bit
  address (see "## Findings").

## How the code is modelled

- **Pure arithmetic and decoding** are functions whose contracts state the
  meaning of the result:
  - the ALU (`Alu`);
  - words and wrap-around (`Bits`);
  - the status word (`Status`);
  - the instruction table (`Opcodes`);
  - the PPU register layouts (`PpuRegs`);
  - the rendering arithmetic (`Render`);
  - the mapper translations (`Mappers`).
- **Objects whose fields the code updates in place** are classes with
  `modifies` frames: `Cpu6502.Cpu`, `Video.Ppu`, `Console.Bus`,
  `Cart.Cartridge` and `Pad.Controller`.
  - The CPU's 64 KB address space is one `array<byte>`.
  - The PPU's nametables, palette, OAM, sprite line, sprite shifters and frame
    are arrays.
  - Each method's `ensures` gives the whole new state in terms of the old one,
    or in terms of the specification functions above, except the methods
    listed under "## Left out" (`Cpu6502.Cpu.Execute` and its parts,
    `Cpu6502.Cpu.Clock`, `Console.Bus.Clock`).
- **A mapper** is a datatype value held by the cartridge. Each board's
  register writes are functions from one mapper value to the next.

The `quint8`/`quint16`/`quint32` arithmetic of the code is written out. `byte` and
`word` are integer subsets, and every increment, sum and shift that wraps in the
code wraps explicitly in the model.

## Model

| member | source | states |
|---|---|---|
| Status.Pos | NES/cpu.h:9-18 | Every flag sits at a bit position below 8. |
| Status.MaskIsBitPosition | NES/cpu.h:9-18 | Each flag's `StatusFlag` value is `1 << position`. |
| Status.MasksDistinct | NES/cpu.h:9-18 | Two flags' masks share a bit exactly when the flags are the same. |
| Status.Psw.Set | NES/cpu.h:25-32 | After `set_x(b)`, flag x reads b and every other flag and bit keeps its value. |
| Status.PswExtensional | NES/cpu.h:33-43 | Two status words that agree on all eight `get_x` flags are equal, so the flags cover the byte. |
| Status.FreshHoldsOnlyU | NES/cpu.h:24 | A new `PSW` has U set and every other flag clear. |
| Bits.Word | NES/cpu.cpp:153-162 | A little-endian word splits back into the high and low bytes it was built from. |
| Bits.WordOfHalves | NES/cpu.cpp:153-162 | Rebuilding a word from its high and low bytes gives the word back. |
| Bits.Signed | NES/cpu.cpp:142-151 | A byte read as two's complement lies in -128..127, agrees with the byte modulo 256, and is negative exactly when bit 7 is set. |
| Bits.AddW | NES/cpu.cpp:103-109 | A `quint16` addition agrees with the unbounded sum modulo 2^16. |
| Bits.AddB | NES/cpu.cpp:31-35 | A `quint8` addition agrees with the unbounded sum modulo 2^8. |
| Alu.Adc | NES/cpu.cpp:242-254 | ADC's result is the sum modulo 256. C is set exactly when the sum reaches 256. V is set exactly when the signed sum leaves -128..127, and otherwise the result read as signed is the signed sum. |
| Alu.Sbc | NES/cpu.cpp:785-797 | SBC's result is `a - m - !c` modulo 256. C is set exactly when there is no borrow. V is set exactly when the signed difference leaves -128..127, and otherwise the result is the signed difference. |
| Alu.SbcIsAdcOfComplement | NES/cpu.cpp:785-797 | SBC of m equals ADC of the one's complement `0xFF - m`, on result, carry and overflow. |
| Alu.Compare | NES/cpu.cpp:480-490 | CMP/CPX/CPY: Z is set exactly when register equals operand, C exactly when register is at least the operand, N from bit 7 of the byte difference. |
| Alu.Asl | NES/cpu.cpp:267-287 | ASL doubles the byte modulo 256 and moves the old bit 7 into C. |
| Alu.Lsr | NES/cpu.cpp:637-657 | LSR: twice the result plus C is the old byte, and the result's bit 7 is clear. |
| Alu.Rol | NES/cpu.cpp:719-739 | ROL: `2 * v + c` equals `0x100 * C' + result`. |
| Alu.Ror | NES/cpu.cpp:741-761 | ROR: `v + 0x100 * c` equals `2 * result + C'`. |
| Alu.RotatesAreInverse | NES/cpu.cpp:719-761 | ROR undoes ROL through the carry and ROL undoes ROR, on both value and carry. |
| Alu.Inc | NES/cpu.cpp:557-585 | INC/INX/INY add one, wrapping 0xFF to 0. |
| Alu.Dec | NES/cpu.cpp:516-544 | DEC/DEX/DEY subtract one, wrapping 0 to 0xFF. |
| Alu.IncDecInverse | NES/cpu.cpp:516-585 | Incrementing then decrementing a byte, or the reverse, gives the byte back. |
| Opcodes.UndefinedDispatchesToIllegal | NES/cpu.h:143 | An undefined table entry (0x02) dispatches to XXX with IMP addressing and 2 cycles. |
| Opcodes.BaseCycleExamples | NES/cpu.h:142 | BRK is 0x00 with IMM and 7 cycles. JMP (indirect) is 0x6C with IND and 5 cycles. |
| Opcodes.UnofficialSbcIsImplied | NES/cpu.h:259 | The unofficial opcode 0xEB is SBC with implied addressing and 2 cycles. |
| Opcodes.DecodeAddressing | NES/cpu.h:141-270 | `Decode`, the model of `inst_table`, across all 256 entries: every undefined entry uses implied addressing. Relative addressing goes with the eight branches and nothing else. Only JMP at 0x6C is indirect. The NOPs with absolute,X addressing are exactly 0x1C, 0x3C, 0x5C, 0x7C, 0xDC and 0xFC. |
| Cpu6502.InterruptStatus | NES/cpu.cpp:64-66 | The status byte an interrupt pushes has B clear and U set. Every other flag keeps its value. |
| Cpu6502.WithNZ | NES/cpu.cpp:604-613 | After `set_z`/`set_n` from a byte, Z says the byte is 0 and N says it is at least 0x80. Every other flag keeps its value. |
| Cpu6502.Penalty | NES/cpu.cpp:919-923 | The extra cycles are at most 2. A negative operation report (a taken branch) adds its magnitude. Otherwise there is one extra cycle exactly when both the operation and the mode ask for it, and none when either does not. |
| Cpu6502.NopTakesPageCycle | NES/cpu.cpp:659-673 | The NOPs whose operation asks for the page-cross cycle are exactly the table's NOP entries with absolute,X addressing. |
| Cpu6502.ReturnAddressRoundTrip | NES/cpu.cpp:594-602 | JSR pushes PC - 1 high byte first. RTS pulls the low then the high byte and adds 1, which restores the PC after the JSR operand. |
| Cpu6502.BranchLandsOnSignedDisplacement | NES/cpu.cpp:289-304 | A taken branch lands on PC plus the sign-extended displacement modulo 2^16: forwards below 0x80, backwards by 0x100 minus the byte above. |
| Cpu6502.InterruptReturnRoundTrip | NES/cpu.cpp:763-773 | RTI after an interrupt entry restores the pushed PC and every flag of the status except B and U, which RTI clears. |
| Cpu6502.SetTwiceIsLastSet | NES/cpu.cpp:57-76 | Clearing B and U erases whatever values the interrupt entry gave them. |
| Cpu6502.PushPullStatusRoundTrip | NES/cpu.cpp:693-717 | PHP then PLP keeps every flag and leaves B and U set. |
| Cpu6502.Cpu.constructor | NES/cpu.cpp:6-10 | Every register, address latch and counter starts at 0, and the status word is a fresh `PSW` with only U set. |
| Cpu6502.Cpu.PushStack | NES/cpu.cpp:17-29 | At sp == 0 the push is fatal and nothing changes. Otherwise the byte lands at 0x100 + sp, sp drops by one, and nothing else changes. |
| Cpu6502.Cpu.PullStack | NES/cpu.cpp:31-36 | sp grows by one, wrapping, and the byte at the new 0x100 + sp is returned. A pull right after a push returns the pushed byte and restores sp. |
| Cpu6502.Cpu.Reset | NES/cpu.cpp:38-55 | A, X and Y become 0, sp 0xFD, I and U are set, PC comes from the vector at 0xFFFC, the address latches are cleared and the wait is 8. |
| Cpu6502.Cpu.Interrupt | NES/cpu.cpp:57-94 | The entry pushes PCH, PCL and the status with B clear and U set, sets I, jumps through the vector and waits 7. It is fatal exactly when fewer than three stack slots remain. |
| Cpu6502.Cpu.Irq | NES/cpu.cpp:57-76 | While I is set, IRQ changes nothing. Otherwise it is the interrupt entry through 0xFFFE. |
| Cpu6502.Cpu.Nmi | NES/cpu.cpp:78-94 | NMI is the interrupt entry through 0xFFFA whatever I says. |
| Cpu6502.Cpu.Imp | NES/cpu.cpp:97-101 | Implied addressing asks for no extra cycle. |
| Cpu6502.Cpu.Imm | NES/cpu.cpp:103-110 | The operand address is PC, and PC steps by one. |
| Cpu6502.Cpu.Zp0 | NES/cpu.cpp:112-120 | The operand address is the zero-page byte at PC, below 0x100. |
| Cpu6502.Cpu.Zpx | NES/cpu.cpp:122-130 | The operand address is the zero-page byte plus X, wrapping inside page 0. |
| Cpu6502.Cpu.Zpy | NES/cpu.cpp:132-140 | The operand address is the zero-page byte plus Y, wrapping inside page 0. |
| Cpu6502.Cpu.Rel | NES/cpu.cpp:142-151 | `addr_rel` is the displacement byte sign-extended to 16 bits. |
| Cpu6502.Cpu.Abs | NES/cpu.cpp:153-162 | The operand address is the little-endian word at PC, and PC steps by two. |
| Cpu6502.Cpu.AbsIndexed | NES/cpu.cpp:164-192 | ABX/ABY add the index to the absolute address, wrapping at 16 bits. They ask for a cycle exactly when the page changes. |
| Cpu6502.Cpu.Ind | NES/cpu.cpp:194-211 | The target is read through `ptr`. For a `ptr` ending in 0xFF the high byte comes from the start of the same page. |
| Cpu6502.Cpu.Izx | NES/cpu.cpp:213-223 | Both pointer bytes are read from page 0 at ptr + X and ptr + X + 1, wrapping in the page. |
| Cpu6502.Cpu.Izy | NES/cpu.cpp:225-239 | Y is added to the word the page-0 `ptr` points at. The mode asks for a cycle exactly when the page changes. |
| Cpu6502.Cpu.Resolve | NES/cpu.cpp:912 | Running the entry's addressing mode asks for 0 or 1 extra cycle and leaves the data registers, flags and counters alone. |
| Cpu6502.Cpu.Adc | NES/cpu.cpp:242-254 | A becomes the ADC result, with C, V, Z and N from the sum. Nothing else changes. |
| Cpu6502.Cpu.Sbc | NES/cpu.cpp:785-797 | A becomes the SBC result, with C, V, Z and N from the difference. Nothing else changes. |
| Cpu6502.Cpu.Logic | NES/cpu.cpp:256-265 | AND/ORA/EOR combine the operand into A and set Z and N from it. |
| Cpu6502.Cpu.Load | NES/cpu.cpp:604-635 | LDA/LDX/LDY put the operand in the register and set Z and N from it. |
| Cpu6502.Cpu.Store | NES/cpu.cpp:820-839 | STA/STX/STY write the register at `addr_abs`. No register or flag changes. |
| Cpu6502.Cpu.Compare | NES/cpu.cpp:480-514 | Only C, Z and N change, as `Alu.Compare` of register and operand says. Only CMP asks for the page-cross cycle. |
| Cpu6502.Cpu.Bit | NES/cpu.cpp:340-349 | BIT sets Z from A AND M, V from bit 6 and N from bit 7 of the operand. |
| Cpu6502.Cpu.Shift | NES/cpu.cpp:267-287 | ASL/LSR/ROL/ROR act on A for IMP and otherwise on the byte at `addr_abs`, which is written back. C comes from the bit shifted out. |
| Cpu6502.Cpu.StepMemory | NES/cpu.cpp:557-567 | INC/DEC step the byte at `addr_abs` by one and set Z and N from the new byte. |
| Cpu6502.Cpu.StepIndex | NES/cpu.cpp:569-585 | INX/INY/DEX/DEY step the index register by one and set Z and N. |
| Cpu6502.Cpu.Transfer | NES/cpu.cpp:841-891 | TAX/TAY/TXA/TYA copy the register and set Z and N from the copied value. |
| Cpu6502.Cpu.Tsx | NES/cpu.cpp:859-866 | X becomes sp, with Z and N from it. |
| Cpu6502.Cpu.Txs | NES/cpu.cpp:877-882 | sp becomes X and no flag changes. |
| Cpu6502.Cpu.WriteFlag | NES/cpu.cpp:452-478 | CLC/CLD/CLI/CLV and SEC/SED/SEI change exactly one flag. |
| Cpu6502.Cpu.Branch | NES/cpu.cpp:289-304 | A taken branch moves PC by `addr_rel` and reports one extra cycle on the same page and two across pages. An untaken branch changes nothing. |
| Cpu6502.Cpu.Jmp | NES/cpu.cpp:587-592 | PC becomes `addr_abs`. |
| Cpu6502.Cpu.Jsr | NES/cpu.cpp:594-602 | JSR pushes PC - 1 high byte first and jumps to `addr_abs`. It is fatal exactly when fewer than two stack slots remain. |
| Cpu6502.Cpu.Rts | NES/cpu.cpp:775-783 | RTS pulls the return address low byte first and resumes one past it. |
| Cpu6502.Cpu.Brk | NES/cpu.cpp:402-417 | BRK skips the padding byte, pushes PC and the status with B and I set, clears B and jumps through 0xFFFE. It is fatal exactly when fewer than three stack slots remain. |
| Cpu6502.Cpu.Rti | NES/cpu.cpp:763-773 | RTI pulls the status and clears B and U, then pulls PCL and PCH. |
| Cpu6502.Cpu.Pha | NES/cpu.cpp:686-691 | PHA pushes A. It is fatal exactly at sp == 0. |
| Cpu6502.Cpu.Php | NES/cpu.cpp:693-700 | PHP pushes the status with B and U set, then clears B and U in the register. It is fatal exactly at sp == 0. |
| Cpu6502.Cpu.Pla | NES/cpu.cpp:702-709 | PLA pulls A and sets Z and N from it. |
| Cpu6502.Cpu.Plp | NES/cpu.cpp:711-717 | PLP pulls the status and sets U. |
| Cpu6502.Cpu.Execute | NES/cpu.cpp:893-901 | The outcome is fatal (illegal opcode) exactly for XXX. Only XXX and the four pushing operations can be fatal, and the extra-cycle report lies in -2..1. |
| Cpu6502.Cpu.ExecuteData | NES/cpu.cpp:913 | The data operations report -2..1 extra cycles and leave the wait, opcode and count alone. |
| Cpu6502.Cpu.ExecuteMemory | NES/cpu.cpp:913 | The memory operations report -2..1 extra cycles and leave the wait, opcode and count alone. |
| Cpu6502.Cpu.ExecuteRegister | NES/cpu.cpp:913 | The register operations report -2..1 extra cycles and leave the wait, opcode and count alone. |
| Cpu6502.Cpu.ExecuteControl | NES/cpu.cpp:913 | Fatal exactly for XXX among control operations; only XXX, BRK, JSR, PHA and PHP can be fatal. NOP changes nothing and asks for the page-cross cycle exactly for the opcodes of `NopTakesPageCycle`. |
| Cpu6502.Cpu.Clock | NES/cpu.cpp:903-929 | While cycles are owed, a clock only counts down the wait and counts the cycle. With none owed, it fetches the opcode at PC and is fatal exactly for an XXX entry. Otherwise it sets the wait within one of the entry's base count, keeps U set and counts the cycle. |
| PpuRegs.WithFlag | NES/ppu.h:25-67 | Assigning a one-bit register field sets that bit and leaves the other seven as they were. |
| PpuRegs.OtherFlagsKept | NES/ppu.h:25-67 | OR-ing a bit in or AND-ing it out leaves the other seven bits as they were. |
| PpuRegs.StatusFlagsAreTopBits | NES/ppu.h:25-35 | Sprite overflow, sprite zero hit and vertical blank are bits 5, 6 and 7 of PPUSTATUS, and its top three bits are exactly those flags. |
| PpuRegs.Low | NES/ppu.h:71-100 | Every loopy field starts below bit 15. |
| PpuRegs.Get | NES/ppu.h:71-100 | A loopy field reads at most its width's largest value. |
| PpuRegs.Set | NES/ppu.h:71-100 | Assigning a loopy field sets it and leaves the other four fields and bit 15 unchanged. |
| PpuRegs.SetCoarseX | NES/ppu.h:71-100 | The mask-and-OR that writes coarse X sets it and keeps every other field. |
| PpuRegs.SetCoarseY | NES/ppu.h:71-100 | The mask-and-OR that writes coarse Y sets it and keeps every other field. |
| PpuRegs.SetNametableX | NES/ppu.h:71-100 | The mask-and-OR that writes nametable X sets it and keeps every other field. |
| PpuRegs.SetNametableY | NES/ppu.h:71-100 | The mask-and-OR that writes nametable Y sets it and keeps every other field. |
| PpuRegs.SetFineY | NES/ppu.h:71-100 | The mask-and-OR that writes fine Y sets it and keeps every other field. |
| PpuRegs.FieldsDetermineRegister | NES/ppu.h:71-100 | Two loopy registers with the same five fields and bit 15 are equal. |
| PpuRegs.LoopyLayout | NES/ppu.h:71-100 | The register is its fields packed in order: coarse X in bits 0-4, coarse Y in 5-9, the nametable bits in 10 and 11, fine Y in 12-14. |
| PpuRegs.Entry | NES/ppu.h:142-148 | OAM entry i is bytes 4i..4i+3 in the order y, id, attribute, x. |
| PpuRegs.OamByteView | NES/ppu.h:168 | Byte k of the OAM viewed as bytes is field k mod 4 of entry k / 4. |
| Render.NametableSlot | NES/ppu.cpp:139-172 | Each of the four mirroring modes sends a nametable offset to its cell of the 2 KB VRAM. A mirroring value outside the four reaches no cell. |
| Render.MirroringShares | NES/ppu.cpp:197-230 | Two offsets share a cell exactly when horizontal mirroring pairs nametables 0-1 and 2-3, vertical pairs 0-2 and 1-3, and one-screen folds all four. |
| Render.PaletteSlot | NES/ppu.cpp:173-184 | Palette offsets 0x10, 0x14, 0x18 and 0x1C alias their background entries, and every other offset is itself. |
| Render.PaletteAliasing | NES/ppu.cpp:231-242 | Two palette offsets share an entry exactly when they are equal or are matching multiples of 4 in the two halves. The aliasing is idempotent. |
| Render.Shade | NES/ppu.cpp:183 | A palette read keeps six bits, and under grayscale only the luminance pair. |
| Render.ScrolledX | NES/ppu.cpp:245-261 | Coarse X counts round modulo 32, and nametable X flips exactly when coarse X wraps from 31. |
| Render.TileColumn | NES/ppu.cpp:245-261 | The tile column across the two side-by-side nametables is below 64. |
| Render.ScrolledXAdvancesColumn | NES/ppu.cpp:245-261 | Stepping X moves one column right modulo 64, crossing into the neighbouring nametable. The vertical fields and bit 15 stay. |
| Render.PixelRow | NES/ppu.cpp:263-293 | The pixel row across the two stacked nametables is below 480. |
| Render.ScrolledYAdvancesRow | NES/ppu.cpp:263-293 | Within the 30 tile rows, stepping Y moves one pixel row down modulo 480. |
| Render.ScrolledY | NES/ppu.cpp:263-293 | Fine Y counts round the eight pixel rows of a tile. Coarse Y and nametable Y stay while fine Y is below 7. |
| Render.ScrolledYWithinTile | NES/ppu.cpp:274-275 | Stepping Y below fine row 7 moves one pixel row down. |
| Render.ScrolledYWrapsNametable | NES/ppu.cpp:281-283 | Stepping Y from the last row of tile row 29 moves to the top of the other nametable. |
| Render.ScrolledYNextTile | NES/ppu.cpp:287-290 | Stepping Y from fine row 7 moves to the next tile row. |
| Render.ScrolledYAttributeRows | NES/ppu.cpp:284-290 | From attribute row 30 stepping Y goes to row 31, and from row 31 to row 0 of the same nametable. |
| Render.ScrolledYKeepsHorizontal | NES/ppu.cpp:263-293 | Stepping Y never changes coarse X, nametable X or bit 15. |
| Render.RowSteps | NES/ppu.cpp:263-293 | Each of the three ways of stepping down adds one to the pixel row modulo 480. |
| Render.TransferredX | NES/ppu.cpp:295-302 | The horizontal fields come from the temporary register and the vertical ones stay. |
| Render.TransferredY | NES/ppu.cpp:304-312 | The vertical fields come from the temporary register and the horizontal ones stay. |
| Render.TransfersCopyAddress | NES/ppu.cpp:295-312 | Both transfers together copy the temporary register in all bits but 15. |
| Render.AddrLatch | NES/ppu.cpp:99-111 | The first PPUADDR write sets the high byte to the low six bits of the data. The second sets the low byte. |
| Render.Stepped | NES/ppu.cpp:59-70 | A step of 1 moves to the next tile of the nametable row, and a step of 32 to the tile below. The other fields stay inside the grid. The same step follows a PPUDATA write (ppu.cpp:113-117). |
| Render.AddrPairSetsAddress | NES/ppu.cpp:99-111 | High then low writes leave the 14-bit address `hi AND 0x3F` : `lo`. |
| Render.TileAddress | NES/ppu.cpp:398 | The tile id is read from tile (coarse X, coarse Y) of the nametable the two nametable bits select. |
| Render.AttributeAddress | NES/ppu.cpp:406-408 | The attribute byte is read from the last 64 bytes of that nametable, one byte per 4x4 tile block. |
| Render.Quadrant | NES/ppu.cpp:413-417 | Each tile lies in one of four 2x2 quadrants of its attribute block. |
| Render.AttributeBits | NES/ppu.cpp:413-417 | The tile's palette is the two attribute bits of its quadrant. |
| Render.BackgroundRowAddress | NES/ppu.cpp:422-433 | The pattern byte address splits back into the pattern table PPUCTRL picks, the tile id and the fine row plus plane offset. |
| Render.Spread | NES/ppu.cpp:314-332 | A palette bit fills all eight pixels of the attribute shifter's low byte, or none. |
| Render.ReloadedBytes | NES/ppu.cpp:314-332 | A reload keeps a shifter's high byte and replaces its low byte. |
| Render.LoadedBytes | NES/ppu.cpp:314-332 | After the reload the high bytes are unchanged and the low bytes hold the fetched planes and the spread palette bits. |
| Render.Pixel | NES/ppu.cpp:637-660 | The background pixel and palette taken at fine X are both below 4. |
| Render.ShiftedByEight | NES/ppu.cpp:334-343 | Eight shifter updates move every background shifter one byte up. |
| Render.LoadedTileDrawnAfterEight | NES/ppu.cpp:637-660 | A tile reloaded into the shifters is drawn eight pixels later: at fine X = j the pixel is bit 7 - j of the fetched planes and the palette is the fetched attribute. |
| Render.LoadedTileBits | NES/ppu.cpp:641-657 | Eight shifts after a reload, the multiplexer at fine X = j picks bit 7 - j of each plane and the fetched palette bits. |
| Render.LoadedShiftedEight | NES/ppu.cpp:334-343 | Eight shifts after a reload each shifter holds its reloaded value moved up a byte. |
| Render.Selected | NES/ppu.cpp:468-512 | Evaluation takes at most eight entries, in OAM order, each on the next line. |
| Render.CountOnLine | NES/ppu.cpp:468-512 | The number of entries on the line is at most the number examined. |
| Render.SelectedAreFirstEight | NES/ppu.cpp:490-508 | Evaluation takes every entry on the line when there are fewer than eight. An entry on the line that was left out follows all eight taken ones. |
| Render.OverflowAtEight | NES/ppu.cpp:511 | The overflow flag (eight taken) is set exactly when at least eight entries are on the line. A ninth is not needed. |
| Render.SpriteZeroSelected | NES/ppu.cpp:494-499 | Entry 0 is taken exactly when it is on the line, and then it is first. |
| Render.RowAddressSum | NES/ppu.cpp:515-589 | `RowAddress`, the OR of a table bit, tile and row that share no bit, is their sum. |
| Render.SpriteRowInTile8 | NES/ppu.cpp:521-539 | `SpriteRowAddress`: an 8x8 sprite's row address is table, tile and row, the row counting down when vertically flipped. |
| Render.SpriteRowInTile16 | NES/ppu.cpp:540-586 | `SpriteRowAddress`: an 8x16 sprite takes its table from bit 0 of the id and its top half from the even tile. The halves and rows swap when vertically flipped. |
| Render.Flip | NES/ppu.cpp:597-611 | `flipbyte` reverses the bit order of a byte. |
| Render.FlipInvolution | NES/ppu.cpp:597-611 | Flipping twice gives the byte back. |
| Render.Compose | NES/ppu.cpp:707-737 | Both pixels transparent give the backdrop, and one opaque pixel wins. When both are opaque the sprite wins exactly when its priority bit puts it in front. |
| Render.SpritePalette | NES/ppu.cpp:662-705 | A sprite's palette is one of the four sprite palettes, 4 to 7. |
| Render.FrontSprite | NES/ppu.cpp:667-705 | The sprite pixel is below 4. It is opaque exactly when a sprite was chosen. |
| Render.FrontSpriteIsFirstOpaque | NES/ppu.cpp:667-705 | The chosen sprite is the first with its X counter at 0 and an opaque pixel, and it gives its palette and priority. No earlier sprite shows a pixel. |
| Render.Tick | NES/ppu.cpp:770-787 | A clock moves one cycle on, or after cycle 340 to the next line. After line 260 it starts line -1 of a new frame with the odd bit toggled. |
| Render.Ticks | NES/ppu.cpp:770-787 | Any number of clocks keeps the beam on the screen's lines and cycles. |
| Render.LineLength | NES/ppu.cpp:776-786 | A scanline lasts 341 clocks, except the rendered line 0 of an odd frame. |
| Render.OddFrameSkip | NES/ppu.cpp:369-373 | The rendered line 0 of an odd frame lasts 340 clocks: its cycle 0 is skipped. |
| Video.ImmediateAsWrittenMisfires | NES/ppu.cpp:65 | `ImmediateAsWritten`, the code's raw comparison: at PPU address 0x4000, reached by stepping from 0x3FFF, the raw comparison treats a read as a palette read although the 14-bit address it reads is 0x0000. |
| Video.ImmediateOnLowAddresses | NES/ppu.cpp:59-70 | On 14-bit addresses the corrected decision `Immediate` and the code's comparison `ImmediateAsWritten` agree. |
| Video.StatusByte | NES/ppu.cpp:40-52 | A PPUSTATUS read returns the three flags over the low five bits of the data buffer. |
| Video.Plotted | NES/ppu.cpp:759-768 | The frame changes at the on-screen pixel (x, y) only, which takes the colour. An off-screen position leaves the frame unchanged. |
| Video.SpriteStep | NES/ppu.cpp:347-356 | A sprite's X counter counts down to 0 and stays there. |
| Video.ClearedShiftersTransparent | NES/ppu.cpp:667-705 | With every sprite pattern plane clear no sprite pixel shows. |
| Video.Ppu.constructor | NES/ppu.cpp:35-38 | A new PPU is connected to the cartridge and has every register, the latch, the beam and the NMI line at zero. |
| Video.Ppu.Reset | NES/ppu.cpp:7-33 | The registers, scroll, beam and background pipeline become zero, and the nametables, palette and frame are cleared. OAM and the sprite line stay. |
| Video.Ppu.ResetRegisters | NES/ppu.cpp:7-33 | The status, mask, control, scroll registers and beam become zero. |
| Video.Ppu.ResetPipeline | NES/ppu.cpp:7-33 | Fine X, the latch, the read buffer and the background pipeline become zero. |
| Video.Ppu.ClearMemories | NES/ppu.cpp:30-32 | The nametables, palette and frame are all zero. |
| Video.Ppu.PpuRead | NES/ppu.cpp:129-187 | A palette read returns six bits, with the hue cleared under grayscale. |
| Video.Ppu.PpuWrite | NES/ppu.cpp:189-243 | The byte goes to the CHR-RAM, mirrored nametable cell or aliased palette entry, and reads back there (through the grayscale mask for the palette). The cartridge's images stay. |
| Video.Ppu.GetStatus | NES/ppu.cpp:40-52 | The read returns the flags over the buffer's low five bits, and clears vertical blank and the write latch. |
| Video.Ppu.OamData | NES/ppu.cpp:54-57 | OAMDATA returns field OAMADDR mod 4 of entry OAMADDR / 4. |
| Video.Ppu.ReadData | NES/ppu.cpp:59-70 | The buffer takes the byte at the PPU address. The read returns the old buffer, or the new byte when the raw 16-bit address is at least 0x3F00, as the code compares it. The address steps by 1 or 32 as PPUCTRL says. |
| Video.Ppu.WriteCtrl | NES/ppu.cpp:72-77 | PPUCTRL takes the byte and its nametable bits go to the temporary register, whose other fields stay. |
| Video.Ppu.WriteMask | NES/ppu.cpp:79-82 | PPUMASK takes the byte. |
| Video.Ppu.WriteScroll | NES/ppu.cpp:84-97 | The first write sets fine X and coarse X from the byte, and the second sets fine Y and coarse Y. The latch flips and the other fields stay. |
| Video.Ppu.WriteAddr | NES/ppu.cpp:99-111 | The write latches the high then the low byte. The second write also copies the temporary register into the address. |
| Video.Ppu.WriteData | NES/ppu.cpp:113-117 | The byte is written at the PPU address, which then steps by 1 or 32. |
| Video.Ppu.WriteOamAddr | NES/ppu.cpp:119-122 | OAMADDR takes the byte. |
| Video.Ppu.WriteOamData | NES/ppu.cpp:124-127 | The byte is stored at OAMADDR and reads back through OAMDATA, and OAMADDR does not move. |
| Video.Ppu.IncrementScrollX | NES/ppu.cpp:245-261 | While rendering the address steps one tile right, and otherwise it stays. |
| Video.Ppu.IncrementScrollY | NES/ppu.cpp:263-293 | While rendering the address steps one pixel row down, and otherwise it stays. |
| Video.Ppu.TransferAddressX | NES/ppu.cpp:295-302 | While rendering the horizontal fields are copied from the temporary register. |
| Video.Ppu.TransferAddressY | NES/ppu.cpp:304-312 | While rendering the vertical fields are copied from the temporary register. |
| Video.Ppu.LoadBackgroundShifters | NES/ppu.cpp:314-332 | The shifters take the fetched tile into their low bytes. |
| Video.Ppu.PatternAddress | NES/ppu.cpp:422-433 | The pattern byte address of the next tile's row lies in the pattern tables. |
| Video.Ppu.FetchBackground | NES/ppu.cpp:386-441 | By the cycle's phase the fetch reads the tile id (after reloading the shifters), the attribute bits, the low plane or the high plane, or steps right. |
| Video.Ppu.Background | NES/ppu.cpp:637-660 | The background pixel is transparent unless the background is shown at this cycle. |
| Video.Ppu.UpdateShifters | NES/ppu.cpp:334-357 | The background shifters move when the background renders. Each taken sprite counts down or shifts on cycles 1-257 when sprites render. |
| Video.Ppu.ClearSpriteShifters | NES/ppu.cpp:382-383 | Both sprite pattern shifters are zero. |
| Video.Ppu.EvaluateSprites | NES/ppu.cpp:468-512 | The sprite line holds the first eight OAM entries on the next line and blanks after them. The shifters are cleared, sprite zero may hit exactly when entry 0 was taken, and overflow is set exactly when eight were taken. |
| Video.Ppu.SelectSprites | NES/ppu.cpp:473-508 | The OAM scan copies the selected entries into the sprite line and reports their count and whether entry 0 is among them. |
| Video.Ppu.LoadSpritePatterns | NES/ppu.cpp:515-617 | Each taken sprite's shifters take both planes of its row, flipped when attribute bit 6 says. The others stay. |
| Video.Ppu.LoadSprite | NES/ppu.cpp:516-612 | One sprite's two shifters take its row's planes and no other entry changes. |
| Video.Ppu.SpritePixel | NES/ppu.cpp:662-705 | The sprite pixel, palette and priority are those of the first opaque sprite at its X. It notes whether that sprite is sprite 0. |
| Video.Ppu.Foreground | NES/ppu.cpp:662-705 | The sprite pixel is below 4. It is opaque exactly when sprites are shown at this cycle and one of the taken sprites was chosen. |
| Video.Ppu.Composed | NES/ppu.cpp:707-737 | The composed pixel is below 4. It is transparent exactly when both layers are, and then the palette is 0 (the backdrop). |
| Video.Ppu.ZeroHit | NES/ppu.cpp:739-757 | Sprite zero hit happens only between cycles 1 and 257. Before cycle 9 it needs one of the two left-column switches. |
| Video.Ppu.Colour | NES/ppu.cpp:759-763 | The stored colour index is below 0x40. |
| Video.Ppu.ComposePixel | NES/ppu.cpp:707-768 | The winning pixel's colour is plotted at (cycle - 1, scanline). Sprite zero hit is raised exactly when due, and vertical blank is untouched. |
| Video.Ppu.Plot | NES/ppu.cpp:761-767 | The frame takes the colour at an on-screen position only. |
| Video.Ppu.RenderPhase | NES/ppu.cpp:367-618 | The line steps skip cycle 0 of the rendered odd line 0, and clear vertical blank, overflow, sprite zero hit and the sprite shifters at (-1, 1). |
| Video.Ppu.StartLine | NES/ppu.cpp:369-384 | Skips the odd-frame cycle and clears the three status flags and the sprite shifters at (-1, 1). |
| Video.Ppu.BackgroundPhase | NES/ppu.cpp:386-462 | The background steps leave the sprite shifters alone at cycle 1. |
| Video.Ppu.SpritePhase | NES/ppu.cpp:468-617 | The overflow flag changes at cycle 257 of a visible line only, to whether eight entries were taken. |
| Video.Ppu.StartVerticalBlank | NES/ppu.cpp:624-633 | Vertical blank is set, and NMI is raised when PPUCTRL enables it. |
| Video.Ppu.Advance | NES/ppu.cpp:770-787 | The beam moves as `Tick` says, and the mapper sees its scanline hook at cycle 260 of a rendered line. |
| Video.Ppu.Clock | NES/ppu.cpp:363-787 | Vertical blank starts at (241, 1) and ends at (-1, 1). NMI is raised with it when enabled. Overflow and sprite zero hit clear at (-1, 1). The beam and the mapper move as `Tick` and the scanline hook say. |
| Video.Ppu.Draw | NES/ppu.cpp:363-768 | Everything `clock` does before moving the beam, with the same vertical blank and NMI effects. |
| Video.Ppu.LinePhase | NES/ppu.cpp:367-633 | The steps before composition. At (-1, 1) no sprite pixel can show afterwards. |
| Video.Ppu.NoSpritePixelWhenCleared | NES/ppu.cpp:382-383 | With the sprite shifters clear the foreground pixel is transparent. |
| Console.ReadPort | NES/bus.cpp:122-167 | Reads reach RAM below 0x2000, a PPU register below 0x4000 and the cartridge from 0x6000, and the register index is below 8. |
| Console.WritePort | NES/bus.cpp:70-120 | Writes reach RAM below 0x2000, a PPU register below 0x4000 and the cartridge from 0x4018. |
| Console.RamMirroring | NES/bus.cpp:72-73 | The 2 KB RAM appears four times below 0x2000 for reads and writes. |
| Console.PpuRegisterMirroring | NES/bus.cpp:74-100 | The eight PPU registers repeat every 8 bytes up to 0x3FFF. |
| Console.ReadsAndWritesAgree | NES/bus.cpp:101-167 | Reads and writes reach the same device except at 0x4000-0x5FFF, where each difference is stated. |
| Console.DmaStart | NES/bus.cpp:104-108 | A write to 0x4014 starts a transfer of that page from its first byte. |
| Console.DmaCycle | NES/bus.cpp:29-50 | A DMA slot changes OAM only on an odd count of a running transfer, by storing the fetched byte at the current index. |
| Console.Transfer | NES/bus.cpp:29-50 | Any run of DMA slots keeps the page and OAM's size. |
| Console.CopyRest | NES/bus.cpp:29-50 | From byte i on, 2 * (256 - i) slots copy the rest of the page and end the transfer. |
| Console.TransferCopiesPage | NES/bus.cpp:29-50 | A started transfer copies the 256 bytes of the page into OAM in order in 513 or 514 slots and ends waiting again. |
| Console.NextCount | NES/bus.cpp:52-67 | The count stays a `quint32`, and is brought to at most 0x3FFFFFFF on a CPU cycle. |
| Console.CountKeepsRhythm | NES/bus.cpp:52-67 | The reduction keeps the 3:1 rhythm, because the cycle after a CPU cycle is still one past a multiple of 3. |
| Console.Bus.constructor | NES/bus.cpp:5-13 | A new bus has a fresh PPU and two initialised controllers on the cartridge. The count is 0 and DMA waits. |
| Console.Bus.Peek | NES/bus.cpp:122-167 | A quiet read gives the RAM cell, OAMDATA, the sound status or `CpuRead`, port by port of the read map. The write-only PPU registers and unmapped ports give 0. |
| Console.Bus.Load | NES/bus.cpp:122-167 | A quiet read returns the device's byte and changes nothing. PPUSTATUS, PPUDATA (with the code's raw 0x3F00 comparison) and the controllers have exactly their own reads' effects. |
| Console.Bus.LoadPpu | NES/bus.cpp:126-149 | PPUSTATUS, OAMDATA and PPUDATA answer, PPUDATA with the code's raw 0x3F00 comparison, and the write-only registers read as 0. |
| Console.Bus.Save | NES/bus.cpp:70-120 | The write reaches exactly one device and the rest keeps its state. A PPU register write changes exactly the PPU registers that register's write changes, as `SavedPpu` lists them. Only a CNROM write with no CHR bank fails. |
| Console.Bus.SaveCart | NES/bus.cpp:113-119 | The cartridge write does what `CpuWrite` promises. |
| Console.Bus.SaveIo | NES/bus.cpp:101-112 | The sound write is logged, a DMA write starts the transfer, and a strobe write reaches both controllers. |
| Console.Bus.SavePpu | NES/bus.cpp:74-100 | Register by register, the new value of every PPU register is stated. This covers PPUCTRL with its two nametable bits in the scroll latch, PPUSCROLL's fine X and coarse X or fine Y and coarse Y, PPUADDR's latch and address, OAMDATA and PPUDATA. Every register a write does not name keeps its value. PPUSTATUS ignores the write, and only PPUDATA reaches the nametables, palette or cartridge. |
| Console.Bus.SaveLowPpu | NES/bus.cpp:76-87 | PPUCTRL takes the byte and copies its nametable bits into the scroll latch. PPUMASK and OAMADDR take the byte, and PPUSTATUS changes nothing. Each keeps every other PPU register. |
| Console.Bus.SaveHighPpu | NES/bus.cpp:88-99 | OAMDATA stores at OAMADDR. PPUSCROLL sets fine X and coarse X, then fine Y and coarse Y, flipping the latch. PPUADDR fills the address high byte first. PPUDATA writes and steps the address. Each keeps every other PPU register. |
| Console.Bus.DmaSlot | NES/bus.cpp:29-50 | A running transfer's slot is `DmaCycle`, and a fetch from a quiet address reads what the bus holds there. |
| Console.Bus.Clock | NES/bus.cpp:24-68 | The PPU steps every cycle, and every third cycle goes to DMA or the CPU. A raised NMI and a pending mapper IRQ are cleared and handed to the CPU, and the count moves on. |
| Console.Bus.CpuSlot | NES/bus.cpp:28-55 | On every third cycle DMA runs while a transfer is under way, and the CPU runs otherwise. |
| Console.Bus.DeliverNmi | NES/bus.cpp:57-60 | A raised NMI is reported and cleared. |
| Console.Bus.DeliverIrq | NES/bus.cpp:62-65 | A pending mapper IRQ is reported and acknowledged. |
| Console.Bus.Reset | NES/bus.cpp:15-22 | The RAM is cleared and the count becomes 0. The PPU is reset: its registers, scroll, beam and background pipeline go to zero, and its nametables, palette and frame are cleared. |
| Console.Bus.Snapshot | NES/bus.cpp:192-210 | The saved RAM has the RAM's size. |
| Console.Bus.Restore | NES/bus.cpp:212-239 | A save file from another game changes nothing. Otherwise the bus's state becomes the saved one, so restoring a snapshot gives it back. |
| Cart.MapperId | NES/cartridge.cpp:41 | The mapper number's high nibble comes from byte 7 and its low nibble from byte 6. |
| Cart.HeaderMirror | NES/cartridge.cpp:40 | The mirroring keeps bits 0, 1 and 3 of byte 6. |
| Cart.HeaderMirrorModes | NES/cartridge.cpp:40 | Which header values are one of the four mirroring modes: horizontal or vertical without the four-screen and battery bits, and two one-screen modes with the four-screen bit. |
| Cart.Cartridge.constructor | NES/cartridge.cpp:8-11 | A new cartridge has no image and no mapper. |
| Cart.Cartridge.Reset | NES/cartridge.cpp:93-114 | The image and mapper are dropped and the header fields are zero. |
| Cart.Cartridge.Load | NES/cartridge.cpp:13-91 | A file loads exactly when it has the signature, the rest of the header, a supported mapper and the declared size. The signature is tested as soon as four bytes exist, and each failure is named. A loaded cartridge has the header's counts, the mapper built from them and the PRG and CHR images in order. |
| Cart.Cartridge.CpuRead | NES/cartridge.cpp:130-143 | PRG-RAM is read at 0x6000-0x7FFF when the board has it, PRG-ROM through the mapper from 0x8000, and 0 elsewhere. |
| Cart.Cartridge.CpuWrite | NES/cartridge.cpp:116-128 | PRG-RAM is written at 0x6000-0x7FFF, and from 0x8000 the mapper takes a register write. Only CNROM with no CHR bank fails, and the images stay. |
| Cart.Cartridge.PpuRead | NES/cartridge.cpp:157-167 | CHR-ROM is read through the mapper, or CHR-RAM when there is no CHR-ROM. |
| Cart.Cartridge.PpuWrite | NES/cartridge.cpp:145-155 | CHR-RAM takes the byte when there is no CHR-ROM, and CHR-ROM is never written. |
| Cart.Cartridge.ScanlineHook | NES/Mapper/mapper.h:39 | The mapper takes its scanline step and nothing else changes. |
| Cart.Cartridge.IrqAcknowledge | NES/Mapper/mapper.h:36 | The mapper's IRQ is cleared and nothing else changes. |
| Cart.PrgRamRoundTrip | NES/Mapper/mapper_1.cpp:30-39 | On MMC1 and MMC3 a byte written to PRG-RAM reads back at the same address, and other addresses keep their contents. |
| Pad.Packed | NES/controller.cpp:12-19 | The latched byte fits in as many bits as there are keys. |
| Pad.Bit | NES/controller.cpp:31-44 | A bit of a value is 0 or 1. |
| Pad.PackedBit | NES/controller.cpp:12-19 | Bit i of the latched byte is key i. |
| Pad.PackedSnoc | NES/controller.cpp:12-19 | Each further key adds its bit at the next position up. |
| Pad.HighBitsClear | NES/controller.cpp:12-19 | A value below 2^n has every bit from n up clear. |
| Pad.ShiftOut | NES/controller.cpp:31-44 | A read returns 0x40 plus the latched low bit and shifts the latch right. |
| Pad.ReadOut | NES/controller.cpp:31-44 | n reads return n values. |
| Pad.ReadOutBits | NES/controller.cpp:31-44 | Read i returns 0x40 plus bit i of the latched byte. |
| Pad.ReportOrder | NES/controller.cpp:31-44 | After the strobe falls, eight reads give A, B, Select, Start, Up, Down, Left and Right as 0x40 or 0x41, and every later read gives 0x40. |
| Pad.Controller.constructor | NES/controller.cpp:4-10 | A new controller has its strobe low and nothing latched. |
| Pad.Controller.Init | NES/controller.cpp:4-10 | The strobe is low, nothing is latched and no button is down. |
| Pad.Controller.LatchKeys | NES/controller.cpp:12-19 | The latch holds the live buttons, key i in bit i. |
| Pad.Controller.WriteStrobe | NES/controller.cpp:21-29 | Bit 0 becomes the strobe, and a falling strobe latches the buttons. |
| Pad.Controller.Output | NES/controller.cpp:31-44 | With the strobe high the read returns the live A button. With it low it shifts out the latched low bit. Bit 6 is always set. |
| Mappers.Mmc3LastBank | NES/Mapper/mapper_4.cpp:31-32 | The last PRG window is at 8 KB bank `2 * rom_num - 1`. |
| Mappers.Mmc3SecondLastBank | NES/Mapper/mapper_4.cpp:31-32 | The swappable fixed window is at 8 KB bank `2 * rom_num - 2`. |
| Mappers.NewMapper | NES/cartridge.cpp:45-81 | Each supported id builds its board with the header's counts and mirroring. MMC1 starts in PRG mode 3 with an empty shift register, every CHR select, the low 16 KB and the 32 KB select at 0 and the high 16 KB select at `rom_num - 1`. UxROM starts with the last bank fixed high, CNROM and GxROM with bank 0. MMC3 starts with target 0, both modes off, all registers and CHR windows 0, PRG windows 0, 1, second-last and last, and the IRQ off with counter and reload 0. |
| Mappers.FreshMapperWindows | NES/cartridge.cpp:45-81 | What a new board reads: MMC1 and UxROM show bank 0 at 0x8000 and the last bank at 0xC000, and MMC3 banks 0 and 1, the second-last and the last. NROM, CNROM and GxROM map linearly. Every CHR window shows bank 0. |
| Mappers.PrgRamOffset | NES/Mapper/mapper_1.cpp:30-39 | MMC1 and MMC3 map 0x6000-0x7FFF onto their 8 KB of PRG-RAM, and the other boards have none. |
| Mappers.PrgOffset | NES/Mapper/mapper_4.cpp:54-68 | Every board's PRG offset fits in a `quint32`. The offsets themselves are stated by the board lemmas below. |
| Mappers.ChrReadOffset | NES/Mapper/mapper_3.cpp:48-55 | With no CHR-ROM every board reads CHR-RAM at the address itself. |
| Mappers.ChrWriteOffset | NES/Mapper/mapper_0.cpp:51-55 | Every board writes CHR-RAM at the address itself. |
| Mappers.Mmc1ResetCtrl | NES/Mapper/mapper_1.h:25-29 | A reset selects PRG mode 3 and keeps the mirroring and CHR-mode bits. |
| Mappers.Mmc1Mirror | NES/Mapper/mapper_1.cpp:77-90 | The control value selects one of the four modes: vertical exactly for 2 and horizontal exactly for 3. |
| Mappers.Mmc1Commit | NES/Mapper/mapper_1.cpp:73-127 | The fifth bit empties the shift register and lands in one register. 0x8000-0x9FFF sets the control value and its mirroring. 0xA000-0xBFFF sets the 4 KB or the 8 KB CHR select by the CHR mode. 0xC000-0xDFFF sets the high 4 KB CHR select, or nothing in 8 KB mode. 0xE000-0xFFFF sets the 32 KB select to bits 1-3 in PRG modes 0 and 1; in mode 2 the high 16 KB select takes the low nibble and the low one becomes 0; in mode 3 the low select takes the low nibble and the high one becomes `rom_num - 1`. Every other field keeps its value. |
| Mappers.Mmc1Write | NES/Mapper/mapper_1.cpp:59-130 | Bit 7 empties the shift register and selects PRG mode 3, and every bank select and the mirroring stay. Otherwise bit 0 shifts in at bit 4 and nothing else changes until the fifth write, which commits the five bits. |
| Mappers.SerialValue | NES/Mapper/mapper_1.cpp:70-90 | The value the serial writes deliver fits in as many bits as there were writes. |
| Mappers.WriteAll | NES/Mapper/mapper_1.cpp:59-130 | A run of writes keeps the board an MMC1 and its invariant. |
| Mappers.Mmc1ShiftInProgress | NES/Mapper/mapper_1.cpp:70-76 | Before the fifth write the shift register holds the bits so far, first one lowest, aligned so the fifth lands in bit 4. |
| Mappers.Mmc1FiveWritesCommit | NES/Mapper/mapper_1.cpp:66-127 | Five writes without bit 7 from an empty shift register are one commit of their five bits, first lowest, to the register the address selects. |
| Mappers.Mmc1Prg32KBank | NES/Mapper/mapper_1.cpp:107-110 | In PRG mode 0 or 1, five writes to 0xE000-0xFFFF make 0x8000-0xFFFF read the 32 KB bank given by bits 1-3 of their value. |
| Mappers.Mmc1PrgFixFirst | NES/Mapper/mapper_1.cpp:111-115 | In PRG mode 2, five writes to 0xE000-0xFFFF fix 0x8000 to the first 16 KB bank and make 0xC000 read the bank in their low nibble. |
| Mappers.Mmc1PrgFixLast | NES/Mapper/mapper_1.cpp:116-121 | In PRG mode 3, five writes to 0xE000-0xFFFF make 0x8000 read the bank in their low nibble and fix 0xC000 to bank `rom_num - 1`. |
| Mappers.Mmc1ChrLowSelect | NES/Mapper/mapper_1.cpp:91-99 | Five writes to 0xA000-0xBFFF choose the 4 KB bank at PPU 0x0000 and leave 0x1000 in 4 KB mode, or the 8 KB bank of the whole pattern space in 8 KB mode. The PRG windows stay. |
| Mappers.Mmc1ChrHighSelect | NES/Mapper/mapper_1.cpp:100-105 | Five writes to 0xC000-0xDFFF choose the 4 KB bank at PPU 0x1000 in 4 KB mode and change no window in 8 KB mode. The PRG windows stay. |
| Mappers.Mmc1ResetKeepsWindows | NES/Mapper/mapper_1.cpp:61-65 | A bit-7 write forces PRG mode 3 and keeps the mirroring and every CHR window, and the PRG windows too when a 16 KB mode was on. |
| Mappers.Mmc1FiveWritesSetControl | NES/Mapper/mapper_1.cpp:70-90 | Five writes to 0x8000-0x9FFF set the control value to their five bits, first lowest, with the mirroring it encodes, and empty the shift register. |
| Mappers.Mmc3PrgBanks | NES/Mapper/mapper_4.cpp:103-112 | R7 selects the window at 0xA000 and R6 the one the PRG mode picks. The other is the second-last bank and 0xE000 is always the last. |
| Mappers.Mmc3BankData | NES/Mapper/mapper_4.cpp:78-113 | The target register takes the byte, both window tables are rebuilt from the registers, and nothing else changes. |
| Mappers.Mmc3Write | NES/Mapper/mapper_4.cpp:70-151 | An even write at 0x8000 sets only the target register and the PRG and CHR modes. An odd one is a bank data write. At 0xA000 an even write picks horizontal or vertical mirroring and an odd one changes nothing. At 0xC000 an even write sets the reload value and an odd one zeroes the counter. At 0xE000 an even write disables and acknowledges the IRQ and an odd one enables it. Every other field stays, and the last PRG window never moves. |
| Mappers.Mmc3ControlWrite | NES/Mapper/mapper_4.cpp:117-148 | At 0xA000 an even write picks horizontal or vertical mirroring and an odd one changes nothing. At 0xC000 an even write sets the reload value and an odd one zeroes the counter. At 0xE000 an even write disables and acknowledges the IRQ and an odd one enables it. Nothing else changes. |
| Mappers.Mmc3SelectMovesNoWindow | NES/Mapper/mapper_4.cpp:74-78 | A bank-select write moves no PRG or CHR window. |
| Mappers.Mmc3PrgWindows | NES/Mapper/mapper_4.cpp:103-112 | After a bank data write 0xA000 reads R7's 8 KB bank. R6's bank is at 0x8000, or at 0xC000 in the other PRG mode, and the window R6 leaves reads the second-last bank. |
| Mappers.Mmc3ChrWindows | NES/Mapper/mapper_4.cpp:153-179 | After a bank data write each 1 KB pattern window reads the register that covers it: R2-R5 for the 1 KB windows, and the halves of R0 and R1 for the 2 KB ones, with the two tables swapped under inversion. |
| Mappers.Mmc3ChrBankOf | NES/Mapper/mapper_4.cpp:83-101 | Each entry of the CHR window table `Mmc3ChrBanks` is the kilobyte its register selects, the even half of a 2 KB window at `R & 0xFE` and the odd half at `R * 0x400 + 0x400`. |
| Mappers.Mmc3ReloadThenIrq | NES/Mapper/mapper_4.cpp:131-146 | Writing reload n > 0 at 0xC000, zeroing the counter at 0xC001 and enabling at 0xE001 raises the IRQ on the (n + 1)-th scanline and not before. |
| Mappers.Mmc3Scanline | NES/Mapper/mapper_4.cpp:197-207 | The counter reloads at zero and otherwise counts down. The IRQ is raised when it reaches zero with IRQs on, and nothing else changes. |
| Mappers.Scanlines | NES/Mapper/mapper_4.cpp:197-207 | Any number of scanlines keeps the board an MMC3. |
| Mappers.Mmc3IrqAfterReloadPlusOne | NES/Mapper/mapper_4.cpp:197-207 | From an empty counter with reload n > 0, the IRQ is raised on the (n + 1)-th scanline and not before. |
| Mappers.ScanlineCountdown | NES/Mapper/mapper_4.cpp:197-207 | After k <= n scanlines the counter holds n - k + 1 (0 before the first), with no IRQ yet. |
| Mappers.WritePrg | NES/Mapper/mapper_2.cpp:35-40 | Each board's register write: UxROM selects the low bank, CNROM the CHR bank modulo `vrom_num`, GxROM both banks, and NROM ignores it. The write fails exactly for CNROM with no CHR-ROM. |
| Mappers.IrqClear | NES/Mapper/mapper_4.cpp:192-195 | Acknowledging leaves no IRQ pending, and only MMC3 changes. |
| Mappers.Scanline | NES/Mapper/mapper.h:39 | Only MMC3 reacts to a scanline. |
| Mappers.NromMirrorsSmallPrg | NES/Mapper/mapper_0.cpp:20-24 | With one 16 KB bank 0xC000 mirrors 0x8000, and two banks map linearly. The offset stays inside the PRG-ROM. |
| Mappers.UxromHighWindowFixed | NES/Mapper/mapper_2.cpp:22-40 | A register write leaves the window at 0xC000 as it was, and the low window shows the bank written. |
| Mappers.WriteRun | NES/cartridge.cpp:123-127 | A run of register writes keeps the board's invariant and its bank counts. |
| Mappers.UxromRunKeepsHigh | NES/Mapper/mapper_2.cpp:35-40 | No run of writes changes UxROM's high bank select. |
| Mappers.UxromAlwaysLastBank | NES/Mapper/mapper_2.cpp:4-40 | From construction, after any run of register writes, 0xC000-0xFFFF reads bank `rom_num - 1`. |
| Mappers.GxromWindows | NES/Mapper/mapper_66.cpp:23-57 | A write makes 0x8000 read the 32 KB bank in bits 4-5 and the pattern space the 8 KB CHR bank in bits 0-1, whatever the address. |
| Mappers.CnromChrInBounds | NES/Mapper/mapper_3.cpp:28-55 | After any bank write every pattern address reads bank `(data & 3) % vrom_num` and lands inside the CHR-ROM. |
| Mappers.Mmc3InversionSwapsHalves | NES/Mapper/mapper_4.cpp:83-101 | Inversion swaps the two pattern tables' windows. |
| Mappers.Mmc3TwoKWindows | NES/Mapper/mapper_4.cpp:88-96 | The halves of a 2 KB window are contiguous only for an even register. An odd one skips a kilobyte. |
| Mappers.Mmc3LastWindowFixed | NES/Mapper/mapper_4.cpp:63-64 | Reads at 0xE000-0xFFFF come from the last 8 KB bank after any register write. |

## Left out

- The sound chip (APU) is not part of this model. The bus keeps the value its
  status read returns and a log of the writes sent to it.
- `Console.Bus.Clock`: the bus does not own the CPU here. The CPU's `clock`,
  `nmi` and `irq` calls are reported as outputs (`cpuClocked`, `nmi`, `irq`)
  instead of being made. The CPU memory is a flat 64 KB array rather than the
  bus's `load`/`save`.
- `Console.Bus.Clock`: the byte a DMA fetch reads is stated for RAM pages
  only. `Console.Bus.DmaSlot` states it for every quiet address.
- `Console.Bus.Reset` resets RAM, the count and the PPU only. The CPU and APU
  resets the code also calls belong to objects the bus does not own here.
- `Console.Bus.Snapshot` states only the sizes of the saved state. What it
  holds is pinned down by `Console.Bus.Restore`. Save files are modelled only
  as the bus's own fields:
  - the `QDataStream` formats, `write_to_stream`/`read_from_stream` and the
    CPU and PPU parts are not modelled;
  - the MD5 identity of the cartridge is a parameter.
- `Cpu6502.Cpu.Clock` states the new wait within one cycle of the base count
  (base + `Penalty` - 1, where `Penalty` is 0 to 2), not its exact value. The
  per-operation penalties are stated by each operation method.
- `Cpu6502.Cpu.Execute` and its four parts state the outcome and the range of
  the cycle report only. The effect of each operation is stated by the method
  it dispatches to. NOP dispatches to no method: `Cpu6502.Cpu.ExecuteControl`
  states its extra cycle and that it changes nothing.
- `update_curr_instruction`, `print_log`, the debugger and the UI are display
  code and are not modelled.
- The RGB colour map is not modelled. The model stops at the 6-bit colour
  index that the frame stores.
- `frame_complete` handling outside `clock` is not modelled.
- Reading the ROM file from disk is not modelled. The cartridge loads from the
  file's bytes. Where the code would read past the end of a short image, the
  model reports the load as failed.
- `SetKeyMap` and the Qt key events are left out. The controller sees the
  eight button states as an array.
- Mapper registers are datatype values that the cartridge replaces, not
  objects updated in place.
- `Mappers.PrgOffset` and `Mappers.ChrReadOffset` state only that the offset
  fits a `quint32` (and the CHR-RAM case). The per-board translations are
  stated by the board lemmas:
  - NROM and CNROM PRG: `Mappers.NromMirrorsSmallPrg`;
  - UxROM: `Mappers.UxromHighWindowFixed` and `Mappers.UxromAlwaysLastBank`;
  - CNROM CHR: `Mappers.CnromChrInBounds`;
  - MMC1: `Mappers.Mmc1Prg32KBank`, `Mappers.Mmc1PrgFixFirst`,
    `Mappers.Mmc1PrgFixLast`, `Mappers.Mmc1ChrLowSelect` and
    `Mappers.Mmc1ChrHighSelect`;
  - MMC3: `Mappers.Mmc3PrgWindows`, `Mappers.Mmc3LastWindowFixed` and
    `Mappers.Mmc3ChrWindows`;
  - GxROM: `Mappers.GxromWindows`;
  - every board as built: `Mappers.FreshMapperWindows`.
- `Cart.Cartridge.CpuRead` and `Cart.Cartridge.PpuRead` return 0 for an offset
  past the end of the PRG or CHR image, for example MMC1 selecting bank 15 of
  a two-bank ROM. The code indexes `program_data` or `vrom_data` past its end
  there, which has no defined result to model.
- `Cart.Cartridge.Load`, on a file too short for the images it declares,
  reports the load as failed without storing the header fields or a mapper.
  The code stores them, builds the mapper and copies past the end of the file.
  The model also needs the full 16-byte header. A signed file of 9 to 15
  bytes that declares no PRG and no CHR bank is reported as truncated. The
  code reads only header bytes 0-8, so it loads such a file with empty
  images.
- `Console.Bus.constructor` requires a cartridge that already has a mapper.
  The code builds the bus around an empty cartridge and loads the ROM into it
  later. Until then every cartridge access would go through a null mapper.
- `Video.Ppu.BackgroundPhase` states only that cycle 1 leaves the sprite
  shifters alone. Its fetch and scroll steps are stated by
  `Video.Ppu.FetchBackground` and the scroll methods it calls.
- `Video.Ppu.PpuRead` states the palette range only in its own contract. The
  values it returns for each region are stated through `Video.Ppu.PpuWrite`,
  `Cart.Cartridge.PpuRead` and `Render.NametableSlot`.

## Findings

| source | as written | input that shows it | evidently intended | confidence | as-written member | corrected member |
|---|---|---|---|---|---|---|
| NES/ppu.cpp:65 | `read_data` returns the fetched byte directly when the raw 16-bit PPU address is at least 0x3F00. | A PPU address of 0x4000, for example one PPUDATA access after 0x3FFF. `ppuRead` masks it to pattern address 0x0000, but the raw comparison still treats the read as a palette read and skips the buffer. | Compare the 14-bit address `ppuRead` uses, so only palette reads are immediate. | not executed | Video.ImmediateAsWrittenMisfires | Video.ImmediateOnLowAddresses |

`Video.Ppu.ReadData` and the bus's PPUDATA reads follow the code as written
(`Video.ImmediateAsWritten`). `Video.Immediate` is the corrected decision: only
palette reads bypass the buffer. On addresses below 0x4000 the two decisions
agree, as `Video.ImmediateOnLowAddresses` states, so the two differ only after
the address has stepped past 0x3FFF.
