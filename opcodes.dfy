/** The instruction table of the 6502 interpreter (`inst_table` and the
    operation and addressing-mode member functions declared in cpu.h). */
module Opcodes {
  import opened Bits

  /** The 56 documented operations, plus XXX for the illegal ones. */
  datatype Op =
    ADC | AND | ASL | BCC | BCS | BEQ | BIT | BMI | BNE | BPL | BRK | BVC | BVS | CLC
    | CLD | CLI | CLV | CMP | CPX | CPY | DEC | DEX | DEY | EOR | INC | INX | INY | JMP
    | JSR | LDA | LDX | LDY | LSR | NOP | ORA | PHA | PHP | PLA | PLP | ROL | ROR | RTI
    | RTS | SBC | SEC | SED | SEI | STA | STX | STY | TAX | TAY | TSX | TXA | TXS | TYA
    | XXX

  /** The 12 addressing modes. */
  datatype Mode = IMP | IMM | ZP0 | ZPX | ZPY | REL | ABS | ABX | ABY | IND | IZX | IZY

  /** Base cycle counts in the table lie between 2 and 8. */
  type BaseCycles = c: nat | 2 <= c <= 8 witness 2

  /** One table entry: the operation, its addressing mode and its base cycle count. */
  datatype Instruction = Instruction(op: Op, mode: Mode, cycles: BaseCycles)

  /** `inst_table[opcode]`: the entry the interpreter dispatches on, looked
      up a block of 32 entries at a time. */
  function Decode(opcode: byte): Instruction
  {
    var k := opcode % 32;
    match opcode / 32
    case 0 => Block00(k)
    case 1 => Block20(k)
    case 2 => Block40(k)
    case 3 => Block60(k)
    case 4 => Block80(k)
    case 5 => BlockA0(k)
    case 6 => BlockC0(k)
    case _ => BlockE0(k)
  }

  /** Entries 0x00 to 0x1F. */
  function Block00(k: nat): Instruction
    requires k < 32
  {
    match k
    case 0 => Instruction(BRK, IMM, 7)  // 0x00
    case 1 => Instruction(ORA, IZX, 6)  // 0x01
    case 2 => Instruction(XXX, IMP, 2)  // 0x02
    case 3 => Instruction(XXX, IMP, 8)  // 0x03
    case 4 => Instruction(NOP, ZP0, 3)  // 0x04
    case 5 => Instruction(ORA, ZP0, 3)  // 0x05
    case 6 => Instruction(ASL, ZP0, 5)  // 0x06
    case 7 => Instruction(XXX, IMP, 5)  // 0x07
    case 8 => Instruction(PHP, IMP, 3)  // 0x08
    case 9 => Instruction(ORA, IMM, 2)  // 0x09
    case 10 => Instruction(ASL, IMP, 2)  // 0x0A
    case 11 => Instruction(XXX, IMP, 2)  // 0x0B
    case 12 => Instruction(NOP, ABS, 4)  // 0x0C
    case 13 => Instruction(ORA, ABS, 4)  // 0x0D
    case 14 => Instruction(ASL, ABS, 6)  // 0x0E
    case 15 => Instruction(XXX, IMP, 6)  // 0x0F
    case 16 => Instruction(BPL, REL, 2)  // 0x10
    case 17 => Instruction(ORA, IZY, 5)  // 0x11
    case 18 => Instruction(XXX, IMP, 2)  // 0x12
    case 19 => Instruction(XXX, IMP, 8)  // 0x13
    case 20 => Instruction(NOP, ZPX, 4)  // 0x14
    case 21 => Instruction(ORA, ZPX, 4)  // 0x15
    case 22 => Instruction(ASL, ZPX, 6)  // 0x16
    case 23 => Instruction(XXX, IMP, 6)  // 0x17
    case 24 => Instruction(CLC, IMP, 2)  // 0x18
    case 25 => Instruction(ORA, ABY, 4)  // 0x19
    case 26 => Instruction(NOP, IMP, 2)  // 0x1A
    case 27 => Instruction(XXX, IMP, 7)  // 0x1B
    case 28 => Instruction(NOP, ABX, 4)  // 0x1C
    case 29 => Instruction(ORA, ABX, 4)  // 0x1D
    case 30 => Instruction(ASL, ABX, 7)  // 0x1E
    case _ => Instruction(XXX, IMP, 7)  // 0x1F
  }

  /** Entries 0x20 to 0x3F. */
  function Block20(k: nat): Instruction
    requires k < 32
  {
    match k
    case 0 => Instruction(JSR, ABS, 6)  // 0x20
    case 1 => Instruction(AND, IZX, 6)  // 0x21
    case 2 => Instruction(XXX, IMP, 2)  // 0x22
    case 3 => Instruction(XXX, IMP, 8)  // 0x23
    case 4 => Instruction(BIT, ZP0, 3)  // 0x24
    case 5 => Instruction(AND, ZP0, 3)  // 0x25
    case 6 => Instruction(ROL, ZP0, 5)  // 0x26
    case 7 => Instruction(XXX, IMP, 5)  // 0x27
    case 8 => Instruction(PLP, IMP, 4)  // 0x28
    case 9 => Instruction(AND, IMM, 2)  // 0x29
    case 10 => Instruction(ROL, IMP, 2)  // 0x2A
    case 11 => Instruction(XXX, IMP, 2)  // 0x2B
    case 12 => Instruction(BIT, ABS, 4)  // 0x2C
    case 13 => Instruction(AND, ABS, 4)  // 0x2D
    case 14 => Instruction(ROL, ABS, 6)  // 0x2E
    case 15 => Instruction(XXX, IMP, 6)  // 0x2F
    case 16 => Instruction(BMI, REL, 2)  // 0x30
    case 17 => Instruction(AND, IZY, 5)  // 0x31
    case 18 => Instruction(XXX, IMP, 2)  // 0x32
    case 19 => Instruction(XXX, IMP, 8)  // 0x33
    case 20 => Instruction(NOP, ZPX, 4)  // 0x34
    case 21 => Instruction(AND, ZPX, 4)  // 0x35
    case 22 => Instruction(ROL, ZPX, 6)  // 0x36
    case 23 => Instruction(XXX, IMP, 6)  // 0x37
    case 24 => Instruction(SEC, IMP, 2)  // 0x38
    case 25 => Instruction(AND, ABY, 4)  // 0x39
    case 26 => Instruction(NOP, IMP, 2)  // 0x3A
    case 27 => Instruction(XXX, IMP, 7)  // 0x3B
    case 28 => Instruction(NOP, ABX, 4)  // 0x3C
    case 29 => Instruction(AND, ABX, 4)  // 0x3D
    case 30 => Instruction(ROL, ABX, 7)  // 0x3E
    case _ => Instruction(XXX, IMP, 7)  // 0x3F
  }

  /** Entries 0x40 to 0x5F. */
  function Block40(k: nat): Instruction
    requires k < 32
  {
    match k
    case 0 => Instruction(RTI, IMP, 6)  // 0x40
    case 1 => Instruction(EOR, IZX, 6)  // 0x41
    case 2 => Instruction(XXX, IMP, 2)  // 0x42
    case 3 => Instruction(XXX, IMP, 8)  // 0x43
    case 4 => Instruction(NOP, ZP0, 3)  // 0x44
    case 5 => Instruction(EOR, ZP0, 3)  // 0x45
    case 6 => Instruction(LSR, ZP0, 5)  // 0x46
    case 7 => Instruction(XXX, IMP, 5)  // 0x47
    case 8 => Instruction(PHA, IMP, 3)  // 0x48
    case 9 => Instruction(EOR, IMM, 2)  // 0x49
    case 10 => Instruction(LSR, IMP, 2)  // 0x4A
    case 11 => Instruction(XXX, IMP, 2)  // 0x4B
    case 12 => Instruction(JMP, ABS, 3)  // 0x4C
    case 13 => Instruction(EOR, ABS, 4)  // 0x4D
    case 14 => Instruction(LSR, ABS, 6)  // 0x4E
    case 15 => Instruction(XXX, IMP, 6)  // 0x4F
    case 16 => Instruction(BVC, REL, 2)  // 0x50
    case 17 => Instruction(EOR, IZY, 5)  // 0x51
    case 18 => Instruction(XXX, IMP, 2)  // 0x52
    case 19 => Instruction(XXX, IMP, 8)  // 0x53
    case 20 => Instruction(NOP, ZPX, 4)  // 0x54
    case 21 => Instruction(EOR, ZPX, 4)  // 0x55
    case 22 => Instruction(LSR, ZPX, 6)  // 0x56
    case 23 => Instruction(XXX, IMP, 6)  // 0x57
    case 24 => Instruction(CLI, IMP, 2)  // 0x58
    case 25 => Instruction(EOR, ABY, 4)  // 0x59
    case 26 => Instruction(NOP, IMP, 2)  // 0x5A
    case 27 => Instruction(XXX, IMP, 7)  // 0x5B
    case 28 => Instruction(NOP, ABX, 4)  // 0x5C
    case 29 => Instruction(EOR, ABX, 4)  // 0x5D
    case 30 => Instruction(LSR, ABX, 7)  // 0x5E
    case _ => Instruction(XXX, IMP, 7)  // 0x5F
  }

  /** Entries 0x60 to 0x7F. */
  function Block60(k: nat): Instruction
    requires k < 32
  {
    match k
    case 0 => Instruction(RTS, IMP, 6)  // 0x60
    case 1 => Instruction(ADC, IZX, 6)  // 0x61
    case 2 => Instruction(XXX, IMP, 2)  // 0x62
    case 3 => Instruction(XXX, IMP, 8)  // 0x63
    case 4 => Instruction(NOP, ZP0, 3)  // 0x64
    case 5 => Instruction(ADC, ZP0, 3)  // 0x65
    case 6 => Instruction(ROR, ZP0, 5)  // 0x66
    case 7 => Instruction(XXX, IMP, 5)  // 0x67
    case 8 => Instruction(PLA, IMP, 4)  // 0x68
    case 9 => Instruction(ADC, IMM, 2)  // 0x69
    case 10 => Instruction(ROR, IMP, 2)  // 0x6A
    case 11 => Instruction(XXX, IMP, 2)  // 0x6B
    case 12 => Instruction(JMP, IND, 5)  // 0x6C
    case 13 => Instruction(ADC, ABS, 4)  // 0x6D
    case 14 => Instruction(ROR, ABS, 6)  // 0x6E
    case 15 => Instruction(XXX, IMP, 6)  // 0x6F
    case 16 => Instruction(BVS, REL, 2)  // 0x70
    case 17 => Instruction(ADC, IZY, 5)  // 0x71
    case 18 => Instruction(XXX, IMP, 2)  // 0x72
    case 19 => Instruction(XXX, IMP, 8)  // 0x73
    case 20 => Instruction(NOP, ZPX, 4)  // 0x74
    case 21 => Instruction(ADC, ZPX, 4)  // 0x75
    case 22 => Instruction(ROR, ZPX, 6)  // 0x76
    case 23 => Instruction(XXX, IMP, 6)  // 0x77
    case 24 => Instruction(SEI, IMP, 2)  // 0x78
    case 25 => Instruction(ADC, ABY, 4)  // 0x79
    case 26 => Instruction(NOP, IMP, 2)  // 0x7A
    case 27 => Instruction(XXX, IMP, 7)  // 0x7B
    case 28 => Instruction(NOP, ABX, 4)  // 0x7C
    case 29 => Instruction(ADC, ABX, 4)  // 0x7D
    case 30 => Instruction(ROR, ABX, 7)  // 0x7E
    case _ => Instruction(XXX, IMP, 7)  // 0x7F
  }

  /** Entries 0x80 to 0x9F. */
  function Block80(k: nat): Instruction
    requires k < 32
  {
    match k
    case 0 => Instruction(NOP, IMM, 2)  // 0x80
    case 1 => Instruction(STA, IZX, 6)  // 0x81
    case 2 => Instruction(NOP, IMP, 2)  // 0x82
    case 3 => Instruction(XXX, IMP, 6)  // 0x83
    case 4 => Instruction(STY, ZP0, 3)  // 0x84
    case 5 => Instruction(STA, ZP0, 3)  // 0x85
    case 6 => Instruction(STX, ZP0, 3)  // 0x86
    case 7 => Instruction(XXX, IMP, 3)  // 0x87
    case 8 => Instruction(DEY, IMP, 2)  // 0x88
    case 9 => Instruction(NOP, IMP, 2)  // 0x89
    case 10 => Instruction(TXA, IMP, 2)  // 0x8A
    case 11 => Instruction(XXX, IMP, 2)  // 0x8B
    case 12 => Instruction(STY, ABS, 4)  // 0x8C
    case 13 => Instruction(STA, ABS, 4)  // 0x8D
    case 14 => Instruction(STX, ABS, 4)  // 0x8E
    case 15 => Instruction(XXX, IMP, 4)  // 0x8F
    case 16 => Instruction(BCC, REL, 2)  // 0x90
    case 17 => Instruction(STA, IZY, 6)  // 0x91
    case 18 => Instruction(XXX, IMP, 2)  // 0x92
    case 19 => Instruction(XXX, IMP, 6)  // 0x93
    case 20 => Instruction(STY, ZPX, 4)  // 0x94
    case 21 => Instruction(STA, ZPX, 4)  // 0x95
    case 22 => Instruction(STX, ZPY, 4)  // 0x96
    case 23 => Instruction(XXX, IMP, 4)  // 0x97
    case 24 => Instruction(TYA, IMP, 2)  // 0x98
    case 25 => Instruction(STA, ABY, 5)  // 0x99
    case 26 => Instruction(TXS, IMP, 2)  // 0x9A
    case 27 => Instruction(XXX, IMP, 5)  // 0x9B
    case 28 => Instruction(NOP, IMP, 5)  // 0x9C
    case 29 => Instruction(STA, ABX, 5)  // 0x9D
    case 30 => Instruction(XXX, IMP, 5)  // 0x9E
    case _ => Instruction(XXX, IMP, 5)  // 0x9F
  }

  /** Entries 0xA0 to 0xBF. */
  function BlockA0(k: nat): Instruction
    requires k < 32
  {
    match k
    case 0 => Instruction(LDY, IMM, 2)  // 0xA0
    case 1 => Instruction(LDA, IZX, 6)  // 0xA1
    case 2 => Instruction(LDX, IMM, 2)  // 0xA2
    case 3 => Instruction(XXX, IMP, 6)  // 0xA3
    case 4 => Instruction(LDY, ZP0, 3)  // 0xA4
    case 5 => Instruction(LDA, ZP0, 3)  // 0xA5
    case 6 => Instruction(LDX, ZP0, 3)  // 0xA6
    case 7 => Instruction(XXX, IMP, 3)  // 0xA7
    case 8 => Instruction(TAY, IMP, 2)  // 0xA8
    case 9 => Instruction(LDA, IMM, 2)  // 0xA9
    case 10 => Instruction(TAX, IMP, 2)  // 0xAA
    case 11 => Instruction(XXX, IMP, 2)  // 0xAB
    case 12 => Instruction(LDY, ABS, 4)  // 0xAC
    case 13 => Instruction(LDA, ABS, 4)  // 0xAD
    case 14 => Instruction(LDX, ABS, 4)  // 0xAE
    case 15 => Instruction(XXX, IMP, 4)  // 0xAF
    case 16 => Instruction(BCS, REL, 2)  // 0xB0
    case 17 => Instruction(LDA, IZY, 5)  // 0xB1
    case 18 => Instruction(XXX, IMP, 2)  // 0xB2
    case 19 => Instruction(XXX, IMP, 5)  // 0xB3
    case 20 => Instruction(LDY, ZPX, 4)  // 0xB4
    case 21 => Instruction(LDA, ZPX, 4)  // 0xB5
    case 22 => Instruction(LDX, ZPY, 4)  // 0xB6
    case 23 => Instruction(XXX, IMP, 4)  // 0xB7
    case 24 => Instruction(CLV, IMP, 2)  // 0xB8
    case 25 => Instruction(LDA, ABY, 4)  // 0xB9
    case 26 => Instruction(TSX, IMP, 2)  // 0xBA
    case 27 => Instruction(XXX, IMP, 4)  // 0xBB
    case 28 => Instruction(LDY, ABX, 4)  // 0xBC
    case 29 => Instruction(LDA, ABX, 4)  // 0xBD
    case 30 => Instruction(LDX, ABY, 4)  // 0xBE
    case _ => Instruction(XXX, IMP, 4)  // 0xBF
  }

  /** Entries 0xC0 to 0xDF. */
  function BlockC0(k: nat): Instruction
    requires k < 32
  {
    match k
    case 0 => Instruction(CPY, IMM, 2)  // 0xC0
    case 1 => Instruction(CMP, IZX, 6)  // 0xC1
    case 2 => Instruction(NOP, IMP, 2)  // 0xC2
    case 3 => Instruction(XXX, IMP, 8)  // 0xC3
    case 4 => Instruction(CPY, ZP0, 3)  // 0xC4
    case 5 => Instruction(CMP, ZP0, 3)  // 0xC5
    case 6 => Instruction(DEC, ZP0, 5)  // 0xC6
    case 7 => Instruction(XXX, IMP, 5)  // 0xC7
    case 8 => Instruction(INY, IMP, 2)  // 0xC8
    case 9 => Instruction(CMP, IMM, 2)  // 0xC9
    case 10 => Instruction(DEX, IMP, 2)  // 0xCA
    case 11 => Instruction(XXX, IMP, 2)  // 0xCB
    case 12 => Instruction(CPY, ABS, 4)  // 0xCC
    case 13 => Instruction(CMP, ABS, 4)  // 0xCD
    case 14 => Instruction(DEC, ABS, 6)  // 0xCE
    case 15 => Instruction(XXX, IMP, 6)  // 0xCF
    case 16 => Instruction(BNE, REL, 2)  // 0xD0
    case 17 => Instruction(CMP, IZY, 5)  // 0xD1
    case 18 => Instruction(XXX, IMP, 2)  // 0xD2
    case 19 => Instruction(XXX, IMP, 8)  // 0xD3
    case 20 => Instruction(NOP, ZPX, 4)  // 0xD4
    case 21 => Instruction(CMP, ZPX, 4)  // 0xD5
    case 22 => Instruction(DEC, ZPX, 6)  // 0xD6
    case 23 => Instruction(XXX, IMP, 6)  // 0xD7
    case 24 => Instruction(CLD, IMP, 2)  // 0xD8
    case 25 => Instruction(CMP, ABY, 4)  // 0xD9
    case 26 => Instruction(NOP, IMP, 2)  // 0xDA
    case 27 => Instruction(XXX, IMP, 7)  // 0xDB
    case 28 => Instruction(NOP, ABX, 4)  // 0xDC
    case 29 => Instruction(CMP, ABX, 4)  // 0xDD
    case 30 => Instruction(DEC, ABX, 7)  // 0xDE
    case _ => Instruction(XXX, IMP, 7)  // 0xDF
  }

  /** Entries 0xE0 to 0xFF. */
  function BlockE0(k: nat): Instruction
    requires k < 32
  {
    match k
    case 0 => Instruction(CPX, IMM, 2)  // 0xE0
    case 1 => Instruction(SBC, IZX, 6)  // 0xE1
    case 2 => Instruction(NOP, IMP, 2)  // 0xE2
    case 3 => Instruction(XXX, IMP, 8)  // 0xE3
    case 4 => Instruction(CPX, ZP0, 3)  // 0xE4
    case 5 => Instruction(SBC, ZP0, 3)  // 0xE5
    case 6 => Instruction(INC, ZP0, 5)  // 0xE6
    case 7 => Instruction(XXX, IMP, 5)  // 0xE7
    case 8 => Instruction(INX, IMP, 2)  // 0xE8
    case 9 => Instruction(SBC, IMM, 2)  // 0xE9
    case 10 => Instruction(NOP, IMP, 2)  // 0xEA
    case 11 => Instruction(SBC, IMP, 2)  // 0xEB
    case 12 => Instruction(CPX, ABS, 4)  // 0xEC
    case 13 => Instruction(SBC, ABS, 4)  // 0xED
    case 14 => Instruction(INC, ABS, 6)  // 0xEE
    case 15 => Instruction(XXX, IMP, 6)  // 0xEF
    case 16 => Instruction(BEQ, REL, 2)  // 0xF0
    case 17 => Instruction(SBC, IZY, 5)  // 0xF1
    case 18 => Instruction(XXX, IMP, 2)  // 0xF2
    case 19 => Instruction(XXX, IMP, 8)  // 0xF3
    case 20 => Instruction(NOP, ZPX, 4)  // 0xF4
    case 21 => Instruction(SBC, ZPX, 4)  // 0xF5
    case 22 => Instruction(INC, ZPX, 6)  // 0xF6
    case 23 => Instruction(XXX, IMP, 6)  // 0xF7
    case 24 => Instruction(SED, IMP, 2)  // 0xF8
    case 25 => Instruction(SBC, ABY, 4)  // 0xF9
    case 26 => Instruction(NOP, IMP, 2)  // 0xFA
    case 27 => Instruction(XXX, IMP, 7)  // 0xFB
    case 28 => Instruction(NOP, ABX, 4)  // 0xFC
    case 29 => Instruction(SBC, ABX, 4)  // 0xFD
    case 30 => Instruction(INC, ABX, 7)  // 0xFE
    case _ => Instruction(XXX, IMP, 7)  // 0xFF
  }

  /** 0x02 is one of the undefined entries, which dispatch to XXX. */
  lemma UndefinedDispatchesToIllegal()
    ensures Decode(0x02) == Instruction(XXX, IMP, 2)
  {
  }

  /** BRK takes 7 base cycles and JMP (indirect) 5. */
  lemma BaseCycleExamples()
    ensures Decode(0x00) == Instruction(BRK, IMM, 7)
    ensures Decode(0x6C) == Instruction(JMP, IND, 5)
  {
  }

  /** The unofficial 0xEB runs SBC with implied addressing. */
  lemma UnofficialSbcIsImplied()
    ensures Decode(0xEB) == Instruction(SBC, IMP, 2)
  {
  }

  // ---------------------------------------------------------- the table as a whole

  predicate Branch(o: Op)
  {
    o in {BCC, BCS, BEQ, BMI, BNE, BPL, BVC, BVS}
  }

  /** How the table pairs operations with addressing modes: every undefined
      entry is implied, relative addressing belongs to the eight branches and
      to nothing else, only JMP at 0x6C is indirect, and the NOPs with
      absolute,X addressing are the six unofficial ones at 0x1C, 0x3C, 0x5C,
      0x7C, 0xDC and 0xFC. */
  predicate Addressed(opcode: byte, e: Instruction)
  {
    && (e.op == XXX ==> e.mode == IMP)
    && (e.mode == REL <==> Branch(e.op))
    && (e.mode == IND <==> opcode == 0x6C)
    && (e.op == NOP && e.mode == ABX <==> opcode in {0x1C, 0x3C, 0x5C, 0x7C, 0xDC, 0xFC})
  }

  /** Every entry of the table is `Addressed`, checked a block of 32 at a
      time. */
  lemma {:induction false} DecodeAddressing(opcode: byte)
    ensures Addressed(opcode, Decode(opcode))
  {
    var k := opcode % 32;
    match opcode / 32
    case 0 => Addressed00(k);
    case 1 => Addressed20(k);
    case 2 => Addressed40(k);
    case 3 => Addressed60(k);
    case 4 => Addressed80(k);
    case 5 => AddressedA0(k);
    case 6 => AddressedC0(k);
    case _ => AddressedE0(k);
  }

  lemma Addressed00(k: nat)
    requires k < 32
    ensures Addressed(0x00 + k, Block00(k))
  {
  }

  lemma Addressed20(k: nat)
    requires k < 32
    ensures Addressed(0x20 + k, Block20(k))
  {
  }

  lemma Addressed40(k: nat)
    requires k < 32
    ensures Addressed(0x40 + k, Block40(k))
  {
  }

  lemma Addressed60(k: nat)
    requires k < 32
    ensures Addressed(0x60 + k, Block60(k))
  {
  }

  lemma Addressed80(k: nat)
    requires k < 32
    ensures Addressed(0x80 + k, Block80(k))
  {
  }

  lemma AddressedA0(k: nat)
    requires k < 32
    ensures Addressed(0xA0 + k, BlockA0(k))
  {
  }

  lemma AddressedC0(k: nat)
    requires k < 32
    ensures Addressed(0xC0 + k, BlockC0(k))
  {
  }

  lemma AddressedE0(k: nat)
    requires k < 32
    ensures Addressed(0xE0 + k, BlockE0(k))
  {
  }
}
