/** The 6502 interpreter of cpu.cpp: registers, the stack at 0x100 + sp,
    interrupt entry, the 12 addressing modes, the 56 operations and the
    per-cycle `clock`. Memory is a flat 64 KB byte array standing in for the
    bus's `load`/`save`. */
module Cpu6502 {
  import opened Bits
  import opened Status
  import opened Opcodes
  import Alu

  /** Why the interpreter aborts: a push at sp == 0, or an illegal opcode. */
  datatype Cause = StackOverflow | IllegalOpcode
  datatype Outcome = Running | Fatal(cause: Cause)

  /** The register file as a value, for stating whole-state postconditions. */
  datatype Registers = Registers(a: byte, x: byte, y: byte, pc: word, sp: byte, p: Psw,
                                 addrAbs: word, addrRel: word, cyclesWait: byte,
                                 opcode: byte, clockCount: nat)

  /** Address of stack slot `sp`. */
  function StackAddr(sp: byte): word { 0x100 + sp }

  /** `set_z(v == 0); set_n(v & 0x80)`. */
  function WithNZ(p: Psw, v: byte): (q: Psw)
    ensures q.Get(Z) <==> v == 0
    ensures q.Get(N) <==> v >= 0x80
    ensures forall f: Flag :: f != Z && f != N ==> q.Get(f) == p.Get(f)
  {
    p.Set(Z, v == 0).Set(N, Bit7(v))
  }

  /** The flags ADC and SBC write, in the order C, V, Z, N. */
  function WithSum(p: Psw, r: Alu.Sum): Psw
  {
    WithNZ(p.Set(C, r.carry).Set(V, r.overflow), r.value)
  }

  /** The flags the shifts and rotates write: C from the bit shifted out. */
  function WithShift(p: Psw, r: Alu.Shifted): Psw
  {
    WithNZ(p.Set(C, r.carry), r.value)
  }

  /** The flags CMP, CPX and CPY write. */
  function WithCompare(p: Psw, f: Alu.Compared): Psw
  {
    p.Set(C, f.carry).Set(Z, f.zero).Set(N, f.negative)
  }

  /** The status byte an interrupt pushes: B clear, U set. */
  function InterruptStatus(p: Psw): (r: Psw)
    ensures !r.Get(B) && r.Get(U)
    ensures forall f: Flag :: f != B && f != U ==> r.Get(f) == p.Get(f)
  {
    p.Set(B, false).Set(U, true)
  }

  /** Extra cycles of an instruction: `op < 0 ? -op : op & am`, where the
      operation returns 1, 0, -1 or -2 and the mode 0 or 1. */
  function Penalty(op: int, am: int): (n: nat)
    requires -2 <= op <= 1 && 0 <= am <= 1
    ensures n <= 2
    ensures op < 0 ==> n == -op
    ensures op >= 0 ==> n == if op == 1 && am == 1 then 1 else 0
  {
    if op < 0 then -op else op * am
  }

  /** The unofficial NOPs whose operation asks for the page-cross cycle:
      exactly the table's NOP entries with absolute,X addressing. */
  predicate NopTakesPageCycle(opcode: byte)
    ensures NopTakesPageCycle(opcode) <==> Decode(opcode).op == NOP && Decode(opcode).mode == ABX
  {
    DecodeAddressing(opcode);
    opcode in {0x1C, 0x3C, 0x5C, 0x7C, 0xDC, 0xFC}
  }

  /** Pushing the return address `pc - 1` and pulling it back, then adding 1 as
      RTS does, gives `pc`: JSR followed by RTS resumes after the JSR operand. */
  lemma {:induction false} ReturnAddressRoundTrip(m: seq<byte>, sp: byte, pc: word)
    requires |m| == 0x1_0000 && sp >= 2
    ensures var ret := AddW(pc, -1);
            var m' := m[StackAddr(sp) := Hi(ret)][StackAddr(sp - 1) := Lo(ret)];
            var sp' := sp - 2;
            var lo := m'[StackAddr(AddB(sp', 1))];
            var hi := m'[StackAddr(AddB(sp', 2))];
            AddW(Word(hi, lo), 1) == pc
  {
    var ret := AddW(pc, -1);
    assert Word(Hi(ret), Lo(ret)) == ret by { WordOfHalves(ret); }
  }

  /** REL sign-extends the displacement into `addr_rel`; a taken branch then
      lands on `pc + displacement` modulo 2^16, backwards for bit 7 set. */
  lemma {:induction false} BranchLandsOnSignedDisplacement(pc: word, d: byte)
    ensures AddW(pc, Signed(d) % 0x1_0000) == (pc + Signed(d)) % 0x1_0000
    ensures d < 0x80 ==> AddW(pc, Signed(d) % 0x1_0000) == (pc + d) % 0x1_0000
    ensures d >= 0x80 ==> AddW(pc, Signed(d) % 0x1_0000) == (pc + d - 0x100) % 0x1_0000
  {
    var s := Signed(d);
    if s < 0 {
      assert s % 0x1_0000 == s + 0x1_0000;
      assert (pc + s + 0x1_0000) % 0x1_0000 == (pc + s) % 0x1_0000;
    }
  }

  /** RTI undoes an interrupt entry: pulling the three bytes the entry pushed
      restores PC, and the status with B and U cleared (RTI clears both). */
  lemma {:induction false} InterruptReturnRoundTrip(m: seq<byte>, sp: byte, pc: word, p: Psw)
    requires |m| == 0x1_0000 && sp >= 3
    ensures var m' := m[StackAddr(sp) := Hi(pc)][StackAddr(sp - 1) := Lo(pc)]
                       [StackAddr(sp - 2) := InterruptStatus(p).data as int];
            var sp' := sp - 3;
            var s := Psw(m'[StackAddr(AddB(sp', 1))] as bv8);
            var lo := m'[StackAddr(AddB(sp', 2))];
            var hi := m'[StackAddr(AddB(sp', 3))];
            && Word(hi, lo) == pc
            && s.Set(B, false).Set(U, false) == p.Set(B, false).Set(U, false)
  {
    WordOfHalves(pc);
    var q := InterruptStatus(p);
    assert (q.data as int) as bv8 == q.data;
    SetTwiceIsLastSet(p, q);
  }

  /** Clearing B and U erases every difference a B or U write made. */
  lemma {:induction false} SetTwiceIsLastSet(p: Psw, q: Psw)
    requires q == p.Set(B, false).Set(U, true)
    ensures q.Set(B, false).Set(U, false) == p.Set(B, false).Set(U, false)
  {
    var l := q.Set(B, false).Set(U, false);
    var r := p.Set(B, false).Set(U, false);
    forall f: Flag ensures l.Get(f) == r.Get(f) {
    }
    PswExtensional(l, r);
  }

  /** PHP pushes the status with B and U set; PLP pulls it back and sets U:
      the round trip keeps every flag and leaves B and U set. */
  lemma {:induction false} PushPullStatusRoundTrip(p: Psw)
    ensures Psw((p.data | 0x30) as int as bv8).Set(U, true) == p.Set(B, true).Set(U, true)
  {
    var pushed := p.data | 0x30;
    assert pushed as int as bv8 == pushed;
    assert pushed | 0x20 == (p.data | 0x10) | 0x20;
  }

  class Cpu {
    var a: byte
    var x: byte
    var y: byte
    var pc: word
    var sp: byte
    var p: Psw
    var addrAbs: word
    var addrRel: word
    var cyclesWait: byte
    var opcode: byte
    var clockCount: nat
    /** The 64 KB address space the CPU reads and writes. */
    const mem: array<byte>

    ghost predicate Valid()
    {
      mem.Length == 0x1_0000
    }

    ghost function Regs(): Registers
      reads this
    {
      Registers(a, x, y, pc, sp, p, addrAbs, addrRel, cyclesWait, opcode, clockCount)
    }

    /** The value of register `r`. */
    function Reg(r: Reg): (v: byte)
      reads this
      ensures v == RegOf(Regs(), r)
    {
      match r
      case RegA => a
      case RegX => x
      case RegY => y
    }

    /** The constructor zeroes the address registers and counters, and the
        status word starts as a fresh `PSW` (only U set). */
    constructor (memory: array<byte>)
      requires memory.Length == 0x1_0000
      ensures Valid() && mem == memory
      ensures Regs() == Registers(0, 0, 0, 0, 0, Fresh, 0, 0, 0, 0, 0)
    {
      a, x, y, pc, sp := 0, 0, 0, 0, 0;
      p := Fresh;
      addrAbs, addrRel, cyclesWait, opcode, clockCount := 0, 0, 0, 0, 0;
      mem := memory;
    }

    // ---------------------------------------------------------------- stack

    /** `push_stack`: store at 0x100 + sp, then decrement sp; fatal at sp == 0. */
    method PushStack(v: byte) returns (o: Outcome)
      requires Valid()
      modifies this, mem
      ensures old(sp) == 0 ==> o == Fatal(StackOverflow) && Regs() == old(Regs())
                               && mem[..] == old(mem[..])
      ensures old(sp) != 0 ==> o == Running && Regs() == old(Regs()).(sp := old(sp) - 1)
                               && mem[..] == old(mem[..])[StackAddr(old(sp)) := v]
    {
      if sp == 0 {
        return Fatal(StackOverflow);
      }
      mem[StackAddr(sp)] := v;
      sp := sp - 1;
      o := Running;
    }

    /** `pull_stack`: increment sp (wrapping), then load from 0x100 + sp. */
    method PullStack() returns (v: byte)
      requires Valid()
      modifies this
      ensures Regs() == old(Regs()).(sp := AddB(old(sp), 1))
      ensures v == mem[StackAddr(sp)]
    {
      sp := AddB(sp, 1);
      v := mem[StackAddr(sp)];
    }

    // ----------------------------------------------------- reset, interrupts

    /** `reset`: A = X = Y = 0, sp = 0xFD, I and U set, PC from the vector at
        0xFFFC, address registers cleared, 8 cycles of wait. */
    method Reset()
      requires Valid()
      modifies this
      ensures Regs() == old(Regs()).(a := 0, x := 0, y := 0, sp := 0xFD,
                                     p := old(p).Set(I, true).Set(U, true),
                                     pc := Word(mem[0xFFFD], mem[0xFFFC]),
                                     addrAbs := 0, addrRel := 0, cyclesWait := 8)
    {
      var lo := mem[0xFFFC];
      var hi := mem[0xFFFD];
      a, x, y, sp, p := 0, 0, 0, 0xFD, p.Set(I, true).Set(U, true);
      pc, addrAbs, addrRel, cyclesWait := Word(hi, lo), 0, 0, 8;
    }

    /** The entry sequence shared by `irq` and `nmi`: push PCH, PCL and the
        status with B clear and U set, set I, jump through `vector`, wait 7. */
    method Interrupt(vector: word) returns (o: Outcome)
      requires Valid() && 0x200 <= vector < 0xFFFF
      modifies this, mem
      ensures o.Fatal? <==> old(sp) < 3
      ensures o.Fatal? ==> o.cause == StackOverflow
      ensures o.Running? ==>
        && Regs() == old(Regs()).(sp := old(sp) - 3,
                                  p := InterruptStatus(old(p)).Set(I, true),
                                  pc := Word(old(mem[vector + 1]), old(mem[vector])),
                                  cyclesWait := 7)
        && mem[..] == old(mem[..])[StackAddr(old(sp)) := Hi(old(pc))]
                                  [StackAddr(old(sp) - 1) := Lo(old(pc))]
                                  [StackAddr(old(sp) - 2) := InterruptStatus(old(p)).data as int]
    {
      o := PushStack(Hi(pc));
      if o.Fatal? { return; }
      o := PushStack(Lo(pc));
      if o.Fatal? { return; }
      p := p.Set(B, false).Set(U, true);
      o := PushStack(p.data as int);
      if o.Fatal? { return; }
      p := p.Set(I, true);
      var lo := mem[vector];
      var hi := mem[vector + 1];
      pc := Word(hi, lo);
      cyclesWait := 7;
    }

    /** `irq`: ignored while I is set, else the interrupt entry through 0xFFFE. */
    method Irq() returns (o: Outcome)
      requires Valid()
      modifies this, mem
      ensures old(p).Get(I) ==> o == Running && Regs() == old(Regs()) && mem[..] == old(mem[..])
      ensures o.Fatal? <==> !old(p).Get(I) && old(sp) < 3
      ensures !old(p).Get(I) && o.Running? ==>
        && Regs() == old(Regs()).(sp := old(sp) - 3,
                                  p := InterruptStatus(old(p)).Set(I, true),
                                  pc := Word(old(mem[0xFFFF]), old(mem[0xFFFE])),
                                  cyclesWait := 7)
        && mem[..] == old(mem[..])[StackAddr(old(sp)) := Hi(old(pc))]
                                  [StackAddr(old(sp) - 1) := Lo(old(pc))]
                                  [StackAddr(old(sp) - 2) := InterruptStatus(old(p)).data as int]
    {
      if !p.Get(I) {
        o := Interrupt(0xFFFE);
      } else {
        o := Running;
      }
    }

    /** `nmi`: the interrupt entry through 0xFFFA, unconditionally. */
    method Nmi() returns (o: Outcome)
      requires Valid()
      modifies this, mem
      ensures o.Fatal? <==> old(sp) < 3
      ensures o.Running? ==>
        && Regs() == old(Regs()).(sp := old(sp) - 3,
                                  p := InterruptStatus(old(p)).Set(I, true),
                                  pc := Word(old(mem[0xFFFB]), old(mem[0xFFFA])),
                                  cyclesWait := 7)
        && mem[..] == old(mem[..])[StackAddr(old(sp)) := Hi(old(pc))]
                                  [StackAddr(old(sp) - 1) := Lo(old(pc))]
                                  [StackAddr(old(sp) - 2) := InterruptStatus(old(p)).data as int]
    {
      o := Interrupt(0xFFFA);
    }

    // ------------------------------------------------------ addressing modes
    // Each returns 1 when the mode may cost an extra cycle (a page cross), else 0.

    /** IMP: no operand; nothing changes. */
    method Imp() returns (extra: int)
      ensures extra == 0
    {
      extra := 0;
    }

    /** IMM: the operand is the byte at PC. */
    method Imm() returns (extra: int)
      modifies this
      ensures Regs() == old(Regs()).(addrAbs := old(pc), pc := AddW(old(pc), 1))
      ensures extra == 0
    {
      addrAbs := pc;
      pc := AddW(pc, 1);
      extra := 0;
    }

    /** ZP0: a zero-page address. */
    method Zp0() returns (extra: int)
      requires Valid()
      modifies this
      ensures Regs() == old(Regs()).(addrAbs := mem[old(pc)], pc := AddW(old(pc), 1))
      ensures addrAbs < 0x100 && extra == 0
    {
      addrAbs := mem[pc];
      pc := AddW(pc, 1);
      extra := 0;
    }

    /** ZPX: zero-page address plus X, wrapping inside page 0. */
    method Zpx() returns (extra: int)
      requires Valid()
      modifies this
      ensures Regs() == old(Regs()).(addrAbs := AddB(mem[old(pc)], old(x)), pc := AddW(old(pc), 1))
      ensures addrAbs < 0x100 && extra == 0
    {
      addrAbs := AddB(mem[pc], x);
      pc := AddW(pc, 1);
      extra := 0;
    }

    /** ZPY: zero-page address plus Y, wrapping inside page 0. */
    method Zpy() returns (extra: int)
      requires Valid()
      modifies this
      ensures Regs() == old(Regs()).(addrAbs := AddB(mem[old(pc)], old(y)), pc := AddW(old(pc), 1))
      ensures addrAbs < 0x100 && extra == 0
    {
      addrAbs := AddB(mem[pc], y);
      pc := AddW(pc, 1);
      extra := 0;
    }

    /** REL: a signed 8-bit displacement, sign-extended into `addr_rel`. */
    method Rel() returns (extra: int)
      requires Valid()
      modifies this
      ensures Regs() == old(Regs()).(addrRel := Signed(mem[old(pc)]) % 0x1_0000, pc := AddW(old(pc), 1))
      ensures extra == 0
    {
      var d := mem[pc];
      addrRel := if d >= 0x80 then d as int + 0xFF00 else d;
      pc := AddW(pc, 1);
      extra := 0;
    }

    /** ABS: a little-endian absolute address. */
    method Abs() returns (extra: int)
      requires Valid()
      modifies this
      ensures Regs() == old(Regs()).(addrAbs := Word(mem[AddW(old(pc), 1)], mem[old(pc)]),
                                     pc := AddW(old(pc), 2))
      ensures extra == 0
    {
      var lo := mem[pc];
      var hi := mem[AddW(pc, 1)];
      pc := AddW(pc, 2);
      addrAbs := Word(hi, lo);
      extra := 0;
    }

    /** ABX and ABY: absolute address plus an index register; 1 exactly when the
        indexed address leaves the base address's page. */
    method AbsIndexed(index: byte) returns (extra: int)
      requires Valid()
      modifies this
      ensures var base := Word(mem[AddW(old(pc), 1)], mem[old(pc)]);
              && Regs() == old(Regs()).(addrAbs := AddW(base, index), pc := AddW(old(pc), 2))
              && (extra == 1 <==> Page(addrAbs) != Page(base))
              && (extra == 0 || extra == 1)
    {
      var lo := mem[pc];
      var hi := mem[AddW(pc, 1)];
      pc := AddW(pc, 2);
      addrAbs := AddW(Word(hi, lo), index);
      extra := if hi != Page(addrAbs) then 1 else 0;
    }

    /** IND (JMP only): the word `ptr` points at, with the page-wrap bug: when the
        pointer's low byte is 0xFF the high byte comes from `ptr & 0xFF00`. */
    method Ind() returns (extra: int)
      requires Valid()
      modifies this
      ensures var ptrLo := mem[old(pc)];
              var ptr := Word(mem[AddW(old(pc), 1)], ptrLo);
              var hiAt := if ptrLo == 0xFF then ptr - 0xFF else ptr + 1;
              Regs() == old(Regs()).(addrAbs := Word(mem[hiAt], mem[ptr]), pc := AddW(old(pc), 2))
      ensures extra == 0
    {
      var pLo := mem[pc];
      var pHi := mem[AddW(pc, 1)];
      pc := AddW(pc, 2);
      var ptr := Word(pHi, pLo);
      if pLo == 0xFF {
        addrAbs := Word(mem[Word(pHi, 0)], mem[ptr]);
      } else {
        addrAbs := Word(mem[ptr + 1], mem[ptr]);
      }
      extra := 0;
    }

    /** IZX: both pointer bytes are read from page 0 at `ptr + X` and `ptr + X + 1`. */
    method Izx() returns (extra: int)
      requires Valid()
      modifies this
      ensures var ptr := mem[old(pc)];
              Regs() == old(Regs()).(addrAbs := Word(mem[AddB(ptr, old(x) + 1)], mem[AddB(ptr, old(x))]),
                                     pc := AddW(old(pc), 1))
      ensures extra == 0
    {
      var ptr := mem[pc];
      pc := AddW(pc, 1);
      var lo := mem[AddB(ptr, x)];
      var hi := mem[AddB(ptr, x + 1)];
      addrAbs := Word(hi, lo);
      extra := 0;
    }

    /** IZY: a page-0 pointer plus Y; 1 exactly when adding Y leaves the page. */
    method Izy() returns (extra: int)
      requires Valid()
      modifies this
      ensures var ptr := mem[old(pc)];
              var base := Word(mem[AddB(ptr, 1)], mem[ptr]);
              && Regs() == old(Regs()).(addrAbs := AddW(base, old(y)), pc := AddW(old(pc), 1))
              && (extra == 1 <==> Page(addrAbs) != Page(base))
              && (extra == 0 || extra == 1)
    {
      var ptr := mem[pc];
      pc := AddW(pc, 1);
      var lo := mem[ptr];
      var hi := mem[AddB(ptr, 1)];
      addrAbs := AddW(Word(hi, lo), y);
      extra := if hi != Page(addrAbs) then 1 else 0;
    }

    /** Runs the addressing mode of the table entry. */
    method Resolve(m: Mode) returns (extra: int)
      requires Valid()
      modifies this
      ensures extra == 0 || extra == 1
      ensures a == old(a) && x == old(x) && y == old(y) && sp == old(sp) && p == old(p)
      ensures cyclesWait == old(cyclesWait) && opcode == old(opcode) && clockCount == old(clockCount)
    {
      match m
      case IMP => extra := Imp();
      case IMM => extra := Imm();
      case ZP0 => extra := Zp0();
      case ZPX => extra := Zpx();
      case ZPY => extra := Zpy();
      case REL => extra := Rel();
      case ABS => extra := Abs();
      case ABX => extra := AbsIndexed(x);
      case ABY => extra := AbsIndexed(y);
      case IND => extra := Ind();
      case IZX => extra := Izx();
      case IZY => extra := Izy();
    }

    // ------------------------------------------------------------ operations
    // Each returns its cycle report: 1 when it takes the addressing mode's
    // page-cross cycle, 0 when it never does, -1 or -2 for a taken branch.

    /** ADC: A + M + C, with C, V, Z and N written from the sum. */
    method Adc() returns (extra: int)
      requires Valid()
      modifies this
      ensures var r := Alu.Adc(old(a), mem[old(addrAbs)], old(p).Get(C));
              Regs() == old(Regs()).(a := r.value, p := WithSum(old(p), r))
      ensures extra == 1
    {
      var r := Alu.Adc(a, mem[addrAbs], p.Get(C));
      p := WithSum(p, r);
      a := r.value;
      extra := 1;
    }

    /** SBC: A - M - !C, with C, V, Z and N written from the difference. */
    method Sbc() returns (extra: int)
      requires Valid()
      modifies this
      ensures var r := Alu.Sbc(old(a), mem[old(addrAbs)], old(p).Get(C));
              Regs() == old(Regs()).(a := r.value, p := WithSum(old(p), r))
      ensures extra == 1
    {
      var r := Alu.Sbc(a, mem[addrAbs], p.Get(C));
      p := WithSum(p, r);
      a := r.value;
      extra := 1;
    }

    /** AND, ORA, EOR: combine the operand into A, set Z and N. */
    method Logic(op: Op) returns (extra: int)
      requires Valid() && op in {AND, ORA, EOR}
      modifies this
      ensures var v := LogicOf(op, old(a), mem[old(addrAbs)]);
              Regs() == old(Regs()).(a := v, p := WithNZ(old(p), v))
      ensures extra == 1
    {
      var v := LogicOf(op, a, mem[addrAbs]);
      a := v;
      p := WithNZ(p, v);
      extra := 1;
    }

    /** LDA, LDX, LDY: load the operand into the register, set Z and N. */
    method Load(r: Reg) returns (extra: int)
      requires Valid()
      modifies this
      ensures var v := mem[old(addrAbs)];
              Regs() == WithReg(old(Regs()), r, v).(p := WithNZ(old(p), v))
      ensures extra == 1
    {
      var v := mem[addrAbs];
      match r {
        case RegA => a := v;
        case RegX => x := v;
        case RegY => y := v;
      }
      p := WithNZ(p, v);
      extra := 1;
    }

    /** STA, STX, STY: store the register at `addr_abs`; no flag changes. */
    method Store(r: Reg) returns (extra: int)
      requires Valid()
      modifies mem
      ensures Regs() == old(Regs())
      ensures mem[..] == old(mem[..])[addrAbs := RegOf(Regs(), r)]
      ensures extra == 0
    {
      mem[addrAbs] := Reg(r);
      extra := 0;
    }

    /** CMP, CPX, CPY: compare the register with the operand. Only CMP asks
        for the page-cross cycle. */
    method Compare(r: Reg) returns (extra: int)
      requires Valid()
      modifies this
      ensures Regs() == old(Regs()).(p := WithCompare(old(p), Alu.Compare(RegOf(old(Regs()), r), mem[old(addrAbs)])))
      ensures extra == (if r == RegA then 1 else 0)
    {
      p := WithCompare(p, Alu.Compare(Reg(r), mem[addrAbs]));
      extra := if r == RegA then 1 else 0;
    }

    /** BIT: Z from A & M, V from bit 6 and N from bit 7 of the operand. */
    method Bit() returns (extra: int)
      requires Valid()
      modifies this
      ensures var m := mem[old(addrAbs)];
              Regs() == old(Regs()).(p := old(p).Set(Z, Alu.And(old(a), m) == 0)
                                                .Set(V, m / 0x40 % 2 == 1).Set(N, Bit7(m)))
      ensures extra == 0
    {
      var m := mem[addrAbs];
      p := p.Set(Z, Alu.And(a, m) == 0).Set(V, m / 0x40 % 2 == 1).Set(N, Bit7(m));
      extra := 0;
    }

    /** ASL, LSR, ROL, ROR: on A when the table gives the mode IMP, else on
        the byte at `addr_abs`, which is written back. */
    method Shift(op: Op, accumulator: bool) returns (extra: int)
      requires Valid() && op in {ASL, LSR, ROL, ROR}
      modifies this, mem
      ensures var v := if accumulator then old(a) else old(mem[addrAbs]);
              var r := ShiftOf(op, v, old(p).Get(C));
              if accumulator then
                Regs() == old(Regs()).(a := r.value, p := WithShift(old(p), r))
                && mem[..] == old(mem[..])
              else
                Regs() == old(Regs()).(p := WithShift(old(p), r))
                && mem[..] == old(mem[..])[old(addrAbs) := r.value]
      ensures extra == 0
    {
      if accumulator {
        var r := ShiftOf(op, a, p.Get(C));
        p := WithShift(p, r);
        a := r.value;
      } else {
        var r := ShiftOf(op, mem[addrAbs], p.Get(C));
        p := WithShift(p, r);
        mem[addrAbs] := r.value;
      }
      extra := 0;
    }

    /** INC and DEC: step the byte at `addr_abs` by one, set Z and N. */
    method StepMemory(up: bool) returns (extra: int)
      requires Valid()
      modifies this, mem
      ensures var v := old(mem[addrAbs]);
              var w := if up then Alu.Inc(v) else Alu.Dec(v);
              && Regs() == old(Regs()).(p := WithNZ(old(p), w))
              && mem[..] == old(mem[..])[addrAbs := w]
      ensures extra == 0
    {
      var v := mem[addrAbs];
      var w := if up then Alu.Inc(v) else Alu.Dec(v);
      mem[addrAbs] := w;
      p := WithNZ(p, w);
      extra := 0;
    }

    /** INX, INY, DEX, DEY: step an index register by one, set Z and N. */
    method StepIndex(r: Reg, up: bool) returns (extra: int)
      requires r != RegA
      modifies this
      ensures var v := RegOf(old(Regs()), r);
              var w := if up then Alu.Inc(v) else Alu.Dec(v);
              Regs() == WithReg(old(Regs()), r, w).(p := WithNZ(old(p), w))
      ensures extra == 0
    {
      var v := Reg(r);
      var w := if up then Alu.Inc(v) else Alu.Dec(v);
      if r == RegX { x := w; } else { y := w; }
      p := WithNZ(p, w);
      extra := 0;
    }

    /** TAX, TAY, TXA, TYA: copy one register into another, set Z and N. */
    method Transfer(from: Reg, to: Reg) returns (extra: int)
      modifies this
      ensures var v := RegOf(old(Regs()), from);
              Regs() == WithReg(old(Regs()), to, v).(p := WithNZ(old(p), v))
      ensures extra == 0
    {
      var v := Reg(from);
      match to {
        case RegA => a := v;
        case RegX => x := v;
        case RegY => y := v;
      }
      p := WithNZ(p, v);
      extra := 0;
    }

    /** TSX: X = sp, set Z and N. */
    method Tsx() returns (extra: int)
      modifies this
      ensures Regs() == old(Regs()).(x := old(sp), p := WithNZ(old(p), old(sp)))
      ensures extra == 0
    {
      x := sp;
      p := WithNZ(p, x);
      extra := 0;
    }

    /** TXS: sp = X; no flag changes. */
    method Txs() returns (extra: int)
      modifies this
      ensures Regs() == old(Regs()).(sp := old(x))
      ensures extra == 0
    {
      sp := x;
      extra := 0;
    }

    /** CLC, CLD, CLI, CLV, SEC, SED, SEI: write one flag. */
    method WriteFlag(f: Flag, b: bool) returns (extra: int)
      modifies this
      ensures Regs() == old(Regs()).(p := old(p).Set(f, b))
      ensures extra == 0
    {
      p := p.Set(f, b);
      extra := 0;
    }

    /** The eight branches: when taken, `addr_abs = pc + addr_rel` becomes the
        PC and the report is -1 on the same page, -2 across pages; when not
        taken nothing changes and the report is 0. */
    method Branch(taken: bool) returns (extra: int)
      modifies this
      ensures !taken ==> Regs() == old(Regs()) && extra == 0
      ensures taken ==>
        && Regs() == old(Regs()).(addrAbs := AddW(old(pc), old(addrRel)), pc := AddW(old(pc), old(addrRel)))
        && extra == (if Page(pc) == Page(old(pc)) then -1 else -2)
    {
      extra := 0;
      if taken {
        addrAbs := AddW(pc, addrRel);
        extra := if Page(addrAbs) != Page(pc) then -2 else -1;
        pc := addrAbs;
      }
    }

    /** JMP: PC = `addr_abs`. */
    method Jmp() returns (extra: int)
      modifies this
      ensures Regs() == old(Regs()).(pc := old(addrAbs))
      ensures extra == 0
    {
      pc := addrAbs;
      extra := 0;
    }

    /** JSR: push the high then the low byte of PC - 1, then PC = `addr_abs`. */
    method Jsr() returns (o: Outcome, extra: int)
      requires Valid()
      modifies this, mem
      ensures o.Fatal? <==> old(sp) < 2
      ensures o.Fatal? ==> o.cause == StackOverflow
      ensures o.Running? ==>
        var ret := AddW(old(pc), -1);
        && Regs() == old(Regs()).(sp := old(sp) - 2, pc := old(addrAbs))
        && mem[..] == old(mem[..])[StackAddr(old(sp)) := Hi(ret)][StackAddr(old(sp) - 1) := Lo(ret)]
      ensures cyclesWait == old(cyclesWait) && opcode == old(opcode) && clockCount == old(clockCount)
      ensures extra == 0
    {
      extra := 0;
      var ret := AddW(pc, -1);
      o := PushStack(Hi(ret));
      if o.Fatal? { return; }
      o := PushStack(Lo(ret));
      if o.Fatal? { return; }
      pc := addrAbs;
    }

    /** RTS: pull the low then the high byte of the return address, add 1. */
    method Rts() returns (extra: int)
      requires Valid()
      modifies this
      ensures var lo := mem[StackAddr(AddB(old(sp), 1))];
              var hi := mem[StackAddr(AddB(old(sp), 2))];
              Regs() == old(Regs()).(sp := AddB(old(sp), 2), pc := AddW(Word(hi, lo), 1))
      ensures extra == 0
    {
      ghost var sp0 := sp;
      var lo := PullStack();
      var hi := PullStack();
      AddBNext(sp0, 1);
      pc := AddW(Word(hi, lo), 1);
      extra := 0;
    }

    /** BRK: step PC past the padding byte, push PCH, PCL, then the status with
        B and I set; afterwards B is clear again and PC comes from 0xFFFE. */
    method Brk() returns (o: Outcome, extra: int)
      requires Valid()
      modifies this, mem
      ensures o.Fatal? <==> old(sp) < 3
      ensures o.Fatal? ==> o.cause == StackOverflow
      ensures o.Running? ==>
        var ret := AddW(old(pc), 1);
        var pushed := old(p).Set(B, true).Set(I, true);
        && Regs() == old(Regs()).(sp := old(sp) - 3, p := pushed.Set(B, false),
                                  pc := Word(old(mem[0xFFFF]), old(mem[0xFFFE])))
        && mem[..] == old(mem[..])[StackAddr(old(sp)) := Hi(ret)]
                                  [StackAddr(old(sp) - 1) := Lo(ret)]
                                  [StackAddr(old(sp) - 2) := pushed.data as int]
      ensures cyclesWait == old(cyclesWait) && opcode == old(opcode) && clockCount == old(clockCount)
      ensures extra == 0
    {
      extra := 0;
      pc := AddW(pc, 1);
      o := PushStack(Hi(pc));
      if o.Fatal? { return; }
      o := PushStack(Lo(pc));
      if o.Fatal? { return; }
      p := p.Set(B, true).Set(I, true);
      o := PushStack(p.data as int);
      if o.Fatal? { return; }
      p := p.Set(B, false);
      var lo := mem[0xFFFE];
      var hi := mem[0xFFFF];
      pc := Word(hi, lo);
    }

    /** RTI: pull the status (then clear B and U), then PCL and PCH. */
    method Rti() returns (extra: int)
      requires Valid()
      modifies this
      ensures var s := Psw(mem[StackAddr(AddB(old(sp), 1))] as bv8);
              var lo := mem[StackAddr(AddB(old(sp), 2))];
              var hi := mem[StackAddr(AddB(old(sp), 3))];
              Regs() == old(Regs()).(sp := AddB(old(sp), 3), p := s.Set(B, false).Set(U, false),
                                     pc := Word(hi, lo))
      ensures extra == 0
    {
      ghost var sp0 := sp;
      var s := PullStack();
      p := Psw(s as bv8).Set(B, false).Set(U, false);
      var lo := PullStack();
      AddBNext(sp0, 1);
      var hi := PullStack();
      AddBNext(sp0, 2);
      pc := Word(hi, lo);
      extra := 0;
    }

    /** PHA: push A. */
    method Pha() returns (o: Outcome, extra: int)
      requires Valid()
      modifies this, mem
      ensures o.Fatal? <==> old(sp) == 0
      ensures o.Fatal? ==> o.cause == StackOverflow
      ensures o.Running? ==> Regs() == old(Regs()).(sp := old(sp) - 1)
                             && mem[..] == old(mem[..])[StackAddr(old(sp)) := old(a)]
      ensures cyclesWait == old(cyclesWait) && opcode == old(opcode) && clockCount == old(clockCount)
      ensures extra == 0
    {
      extra := 0;
      o := PushStack(a);
    }

    /** PHP: push the status with B and U set, then clear B and U. */
    method Php() returns (o: Outcome, extra: int)
      requires Valid()
      modifies this, mem
      ensures o.Fatal? <==> old(sp) == 0
      ensures o.Fatal? ==> o.cause == StackOverflow
      ensures o.Running? ==>
        && Regs() == old(Regs()).(sp := old(sp) - 1, p := old(p).Set(B, false).Set(U, false))
        && mem[..] == old(mem[..])[StackAddr(old(sp)) := (old(p).data | 0x30) as int]
      ensures cyclesWait == old(cyclesWait) && opcode == old(opcode) && clockCount == old(clockCount)
      ensures extra == 0
    {
      extra := 0;
      o := PushStack((p.data | 0x30) as int);
      if o.Fatal? { return; }
      p := p.Set(B, false).Set(U, false);
    }

    /** PLA: pull A, set Z and N. */
    method Pla() returns (extra: int)
      requires Valid()
      modifies this
      ensures var v := mem[StackAddr(AddB(old(sp), 1))];
              Regs() == old(Regs()).(sp := AddB(old(sp), 1), a := v, p := WithNZ(old(p), v))
      ensures extra == 0
    {
      var v := PullStack();
      a := v;
      p := WithNZ(p, v);
      extra := 0;
    }

    /** PLP: pull the status, then set U. */
    method Plp() returns (extra: int)
      requires Valid()
      modifies this
      ensures var s := Psw(mem[StackAddr(AddB(old(sp), 1))] as bv8);
              Regs() == old(Regs()).(sp := AddB(old(sp), 1), p := s.Set(U, true))
      ensures extra == 0
    {
      var s := PullStack();
      p := Psw(s as bv8).Set(U, true);
      extra := 0;
    }

    /** The operations that change the flow of control or the stack, and
        the illegal opcode: the only ones that can stop the emulator. */
    const ControlOps: set<Op> := {BCC, BCS, BEQ, BMI, BNE, BPL, BVC, BVS, JMP, JSR, RTS, BRK, RTI, PHA, PHP, PLA, PLP, NOP, XXX}

    /** The operations on the operand the addressing mode fetched. */
    const MemoryOps: set<Op> := {ADC, SBC, AND, ORA, EOR, LDA, LDX, LDY, STA, STX, STY, CMP, CPX, CPY, BIT}

    /** Runs the operation of the table entry. `accumulator` says whether the
        entry's addressing mode is IMP, which ASL, LSR, ROL and ROR test. */
    method Execute(op: Op, accumulator: bool) returns (o: Outcome, extra: int)
      requires Valid()
      modifies this, mem
      ensures -2 <= extra <= 1
      ensures op == XXX <==> o == Fatal(IllegalOpcode)
      ensures o.Fatal? ==> op in {XXX, BRK, JSR, PHA, PHP}
      ensures op !in {XXX, BRK, JSR, PHA, PHP} ==> o == Running
      ensures cyclesWait == old(cyclesWait) && opcode == old(opcode) && clockCount == old(clockCount)
    {
      if op in ControlOps {
        o, extra := ExecuteControl(op);
      } else {
        o := Running;
        extra := ExecuteData(op, accumulator);
      }
    }

    /** The operations that read or write registers, memory and flags only. */
    method ExecuteData(op: Op, accumulator: bool) returns (extra: int)
      requires Valid() && op !in ControlOps
      modifies this, mem
      ensures -2 <= extra <= 1
      ensures cyclesWait == old(cyclesWait) && opcode == old(opcode) && clockCount == old(clockCount)
    {
      if op in MemoryOps {
        extra := ExecuteMemory(op);
      } else {
        extra := ExecuteRegister(op, accumulator);
      }
    }

    /** The loads, stores, arithmetic, logic and comparisons on the fetched
        operand. */
    method ExecuteMemory(op: Op) returns (extra: int)
      requires Valid() && op in MemoryOps
      modifies this, mem
      ensures -2 <= extra <= 1
      ensures cyclesWait == old(cyclesWait) && opcode == old(opcode) && clockCount == old(clockCount)
    {
      match op
      case ADC => extra := Adc();
      case SBC => extra := Sbc();
      case AND => extra := Logic(op);
      case ORA => extra := Logic(op);
      case EOR => extra := Logic(op);
      case LDA => extra := Load(RegA);
      case LDX => extra := Load(RegX);
      case LDY => extra := Load(RegY);
      case STA => extra := Store(RegA);
      case STX => extra := Store(RegX);
      case STY => extra := Store(RegY);
      case CMP => extra := Compare(RegA);
      case CPX => extra := Compare(RegX);
      case CPY => extra := Compare(RegY);
      case BIT => extra := Bit();
      case _ => assert false;
    }

    /** The shifts, increments, transfers and flag writes. */
    method ExecuteRegister(op: Op, accumulator: bool) returns (extra: int)
      requires Valid() && op !in ControlOps && op !in MemoryOps
      modifies this, mem
      ensures -2 <= extra <= 1
      ensures cyclesWait == old(cyclesWait) && opcode == old(opcode) && clockCount == old(clockCount)
    {
      match op
      case ASL => extra := Shift(op, accumulator);
      case LSR => extra := Shift(op, accumulator);
      case ROL => extra := Shift(op, accumulator);
      case ROR => extra := Shift(op, accumulator);
      case INC => extra := StepMemory(true);
      case DEC => extra := StepMemory(false);
      case INX => extra := StepIndex(RegX, true);
      case INY => extra := StepIndex(RegY, true);
      case DEX => extra := StepIndex(RegX, false);
      case DEY => extra := StepIndex(RegY, false);
      case TAX => extra := Transfer(RegA, RegX);
      case TAY => extra := Transfer(RegA, RegY);
      case TXA => extra := Transfer(RegX, RegA);
      case TYA => extra := Transfer(RegY, RegA);
      case TSX => extra := Tsx();
      case TXS => extra := Txs();
      case CLC => extra := WriteFlag(C, false);
      case CLD => extra := WriteFlag(D, false);
      case CLI => extra := WriteFlag(I, false);
      case CLV => extra := WriteFlag(V, false);
      case SEC => extra := WriteFlag(C, true);
      case SED => extra := WriteFlag(D, true);
      case SEI => extra := WriteFlag(I, true);
      case _ => assert false;
    }

    /** The branches, jumps, stack operations, NOP and the illegal opcode. */
    method ExecuteControl(op: Op) returns (o: Outcome, extra: int)
      requires Valid() && op in ControlOps
      modifies this, mem
      ensures -2 <= extra <= 1
      ensures op == XXX <==> o == Fatal(IllegalOpcode)
      ensures o.Fatal? ==> op in {XXX, BRK, JSR, PHA, PHP}
      ensures op !in {XXX, BRK, JSR, PHA, PHP} ==> o == Running
      ensures cyclesWait == old(cyclesWait) && opcode == old(opcode) && clockCount == old(clockCount)
      ensures op == NOP ==> extra == (if NopTakesPageCycle(opcode) then 1 else 0) && unchanged(this, mem)
    {
      o := Running;
      match op
      case BCC => extra := Branch(BranchTaken(op, p));
      case BCS => extra := Branch(BranchTaken(op, p));
      case BEQ => extra := Branch(BranchTaken(op, p));
      case BMI => extra := Branch(BranchTaken(op, p));
      case BNE => extra := Branch(BranchTaken(op, p));
      case BPL => extra := Branch(BranchTaken(op, p));
      case BVC => extra := Branch(BranchTaken(op, p));
      case BVS => extra := Branch(BranchTaken(op, p));
      case JMP => extra := Jmp();
      case JSR => o, extra := Jsr();
      case RTS => extra := Rts();
      case BRK => o, extra := Brk();
      case RTI => extra := Rti();
      case PHA => o, extra := Pha();
      case PHP => o, extra := Php();
      case PLA => extra := Pla();
      case PLP => extra := Plp();
      case NOP => extra := if NopTakesPageCycle(opcode) then 1 else 0;
      case XXX => o, extra := Fatal(IllegalOpcode), 0;
      case _ => assert false;
    }

    /** `clock`: when no cycles are outstanding, fetch the opcode at PC, run its
        addressing mode and operation, and set the wait to the base count plus
        `Penalty`; every call then decrements the wait and counts the cycle. */
    method Clock() returns (o: Outcome)
      requires Valid()
      modifies this, mem
      ensures old(cyclesWait) != 0 ==>
        && o == Running
        && Regs() == old(Regs()).(cyclesWait := old(cyclesWait) - 1, clockCount := old(clockCount) + 1)
        && mem[..] == old(mem[..])
      ensures old(cyclesWait) == 0 ==> opcode == old(mem[pc])
      ensures old(cyclesWait) == 0 ==> (o == Fatal(IllegalOpcode) <==> Decode(opcode).op == XXX)
      ensures old(cyclesWait) == 0 && o.Running? ==>
        && Decode(opcode).cycles - 1 <= cyclesWait <= Decode(opcode).cycles + 1
        && clockCount == old(clockCount) + 1
        && p.Get(U)
    {
      if cyclesWait == 0 {
        opcode := mem[pc];
        pc := AddW(pc, 1);
        p := p.Set(U, true);
        var inst := Decode(opcode);
        var am := Resolve(inst.mode);
        var op;
        o, op := Execute(inst.op, inst.mode == IMP);
        if o.Fatal? { return; }
        cyclesWait := inst.cycles + Penalty(op, am);
        p := p.Set(U, true);
      } else {
        o := Running;
      }
      cyclesWait := cyclesWait - 1;
      clockCount := clockCount + 1;
    }
  }

  /** The index registers an operation names. */
  datatype Reg = RegA | RegX | RegY

  function RegOf(s: Registers, r: Reg): byte
  {
    match r
    case RegA => s.a
    case RegX => s.x
    case RegY => s.y
  }

  function WithReg(s: Registers, r: Reg, v: byte): (t: Registers)
    ensures RegOf(t, r) == v
  {
    match r
    case RegA => s.(a := v)
    case RegX => s.(x := v)
    case RegY => s.(y := v)
  }

  /** AND, ORA, EOR on the accumulator. */
  function LogicOf(op: Op, a: byte, m: byte): byte
    requires op in {AND, ORA, EOR}
  {
    match op
    case AND => Alu.And(a, m)
    case ORA => Alu.Or(a, m)
    case EOR => Alu.Xor(a, m)
  }

  /** ASL, LSR, ROL, ROR with carry in `c`. */
  function ShiftOf(op: Op, v: byte, c: bool): Alu.Shifted
    requires op in {ASL, LSR, ROL, ROR}
  {
    match op
    case ASL => Alu.Asl(v)
    case LSR => Alu.Lsr(v)
    case ROL => Alu.Rol(v, c)
    case ROR => Alu.Ror(v, c)
  }

  /** The flag test of each branch operation. */
  predicate BranchTaken(op: Op, p: Psw)
    requires op in {BCC, BCS, BEQ, BMI, BNE, BPL, BVC, BVS}
  {
    match op
    case BCC => !p.Get(C)
    case BCS => p.Get(C)
    case BEQ => p.Get(Z)
    case BMI => p.Get(N)
    case BNE => !p.Get(Z)
    case BPL => !p.Get(N)
    case BVC => !p.Get(V)
    case BVS => p.Get(V)
  }
}
