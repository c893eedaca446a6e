/** The instruction set of the Intel 8080 as the emulator decodes it
    (`src/op_code.rs`): registers, register pairs, the instruction type, the
    three opcode tables, the size and cycle tables, and `Instruction::read_at`. */
module OpCode {
  import opened Bits
  import opened Wrappers

  /** The register file in index order: `A` is slot 0, the flags `F` slot 1,
      ..., `L` slot 7. `M` names the memory byte addressed by `HL`. */
  datatype Register = A | F | B | C | D | E | H | L | M

  /** Register pairs; `BC`, `DE` and `HL` are the source's `B`, `D` and `H`. */
  datatype RegisterPair = PSW | BC | DE | HL | SP

  /** Slot of a register in the register array (`r as usize`). */
  function Index(r: Register): (i: nat)
    requires r != M
    ensures i < 8
  {
    match r
    case A => 0
    case F => 1
    case B => 2
    case C => 3
    case D => 4
    case E => 5
    case H => 6
    case L => 7
  }

  /** `RegisterPair::split`: the (high, low) registers of a pair. It panics on `SP`. */
  function Split(rp: RegisterPair): (r: (Register, Register))
    requires rp != SP
    ensures r.0 != M && r.1 != M
    ensures Index(r.1) == Index(r.0) + 1 && Index(r.0) % 2 == 0
  {
    match rp
    case PSW => (A, F)
    case BC => (B, C)
    case DE => (D, E)
    case HL => (H, L)
  }

  datatype Instruction =
    | Aci(byte: Byte)
    | Adc(reg: Register)
    | Add(reg: Register)
    | Adi(byte: Byte)
    | Ana(reg: Register)
    | Ani(byte: Byte)
    | Call(addr: Word)
    | Cc(addr: Word)
    | Cm(addr: Word)
    | Cma
    | Cmc
    | Cmp(reg: Register)
    | Cnc(addr: Word)
    | Cnz(addr: Word)
    | Cp(addr: Word)
    | Cpe(addr: Word)
    | Cpi(byte: Byte)
    | Cpo(addr: Word)
    | Cz(addr: Word)
    | Daa
    | Dad(pair: RegisterPair)
    | Dcr(reg: Register)
    | Dcx(pair: RegisterPair)
    | Di
    | Ei
    | Hlt
    | In(byte: Byte)
    | Inr(reg: Register)
    | Inx(pair: RegisterPair)
    | Jc(addr: Word)
    | Jm(addr: Word)
    | Jmp(addr: Word)
    | Jnc(addr: Word)
    | Jnz(addr: Word)
    | Jp(addr: Word)
    | Jpe(addr: Word)
    | Jpo(addr: Word)
    | Jz(addr: Word)
    | Lda(addr: Word)
    | Ldax(pair: RegisterPair)
    | Lhld(addr: Word)
    | Lxi(pair: RegisterPair, low: Byte, high: Byte)
    | Mov(dst: Register, src: Register)
    | Mvi(dst: Register, byte: Byte)
    | Nop
    | Ora(reg: Register)
    | Ori(byte: Byte)
    | Out(byte: Byte)
    | Pchl
    | Pop(pair: RegisterPair)
    | Push(pair: RegisterPair)
    | Ral
    | Rar
    | Rc
    | Ret
    | Rlc
    | Rm
    | Rnc
    | Rnz
    | Rp
    | Rpe
    | Rpo
    | Rrc
    | Rst(byte: Byte)
    | Rz
    | Sbb(reg: Register)
    | Sbi(byte: Byte)
    | Shld(addr: Word)
    | Sphl
    | Sta(addr: Word)
    | Stax(pair: RegisterPair)
    | Stc
    | Sub(reg: Register)
    | Sui(byte: Byte)
    | Xchg
    | Xra(reg: Register)
    | Xri(byte: Byte)
    | Xthl

  datatype OpCodeError =
    | EndOfDataInstr
    | EndOfDataParam(opCode: Byte)
    | WrongInstruction(opCode: Byte)

  /** `Instruction::read_at`: decodes the instruction whose opcode is at `pc`. */
  function ReadAt(data: seq<Byte>, pc: Word): (r: Result<Instruction, OpCodeError>)
    ensures r == Err(EndOfDataInstr) <==> pc >= |data|
    ensures pc < |data| ==>
      (r == Err(EndOfDataParam(data[pc])) <==> pc + OpCodeToArgSize(data[pc]) > |data|)
    ensures r.Err? ==> !r.error.WrongInstruction?
    ensures r.Ok? ==> pc + OpCodeToArgSize(data[pc]) <= |data|
  {
    if pc >= |data| then Err(EndOfDataInstr)
    else
      var op := data[pc];
      var size := OpCodeToArgSize(op);
      if size == 1 then
        Ok(NoArgOpCode(op))
      else if size == 2 then
        if pc + 1 >= |data| then Err(EndOfDataParam(op))
        else
          Ok(OneArgOpCode(op, data[pc + 1]))
      else if size == 3 then
        if pc + 1 >= |data| then Err(EndOfDataParam(op))
        else if pc + 2 >= |data| then Err(EndOfDataParam(op))
        else
          Ok(TwoArgOpCode(op, data[pc + 1], data[pc + 2]))
      else Err(WrongInstruction(op))
  }

  /** `Instruction::cycles`: the number of clock states (first matching arm wins). */
  function Cycles(i: Instruction): (n: nat)
    ensures n in {4, 5, 7, 10, 11, 13, 16, 17, 18}
  {
    match i
    case Xthl => 18
    case Call(_) => 17
    case Shld(_) | Lhld(_) => 16
    case Sta(_) | Lda(_) => 13
    case Cc(_) | Cnc(_) | Cz(_) | Cnz(_) | Cp(_) | Cm(_) | Cpe(_) | Cpo(_) | Rst(_) | Push(_) => 11
    case Dad(_) | Pop(_) | In(_) | Out(_) | Lxi(_, _, _) | Ret | Jmp(_) | Jc(_) | Jnc(_) | Jz(_)
      | Jnz(_) | Jp(_) | Jm(_) | Jpe(_) | Jpo(_) | Inr(M) | Dcr(M) | Mvi(M, _) => 10
    case Hlt | Ldax(_) | Stax(_) | Add(M) | Adc(M) | Sub(M) | Sbb(M) | Xra(M) | Ora(M) | Cmp(M)
      | Adi(_) | Aci(_) | Sui(_) | Sbi(_) | Ani(_) | Xri(_) | Ori(_) | Cpi(_) | Mvi(_, _)
      | Mov(M, _) | Mov(_, M) => 7
    case Pchl | Sphl | Rc | Rnc | Rz | Rnz | Rp | Rm | Rpe | Rpo | Dcx(_) | Inx(_) | Mov(_, _)
      | Inr(_) | Dcr(_) => 5
    case Cmp(_) | Ana(_) | Nop | Cma | Stc | Cmc | Daa | Ei | Di | Rlc | Rrc | Ral | Rar
      | Add(_) | Adc(_) | Sub(_) | Sbb(_) | Xra(_) | Ora(_) | Xchg => 4
  }

  /** `Instruction::size`: the number of bytes of the encoded instruction. */
  function Size(i: Instruction): (n: nat)
    ensures 1 <= n <= 3
  {
    match i
    case Lxi(_, _, _) | Shld(_) | Lhld(_) | Sta(_) | Lda(_) | Jnz(_) | Jmp(_) | Cnz(_) | Jz(_)
      | Cz(_) | Call(_) | Jnc(_) | Cnc(_) | Jc(_) | Cc(_) | Jpo(_) | Cpo(_) | Jpe(_) | Cpe(_)
      | Jp(_) | Cp(_) | Jm(_) | Cm(_) => 3
    case Mvi(_, _) | Adi(_) | Aci(_) | Out(_) | Sui(_) | In(_) | Sbi(_) | Ani(_) | Xri(_) | Ori(_)
      | Cpi(_) => 2
    case Nop | Stax(_) | Inx(_) | Inr(_) | Dcr(_) | Rlc | Dad(_) | Ldax(_) | Dcx(_) | Rrc | Ral
      | Rar | Daa | Cma | Stc | Cmc | Mov(_, _) | Hlt | Add(_) | Adc(_) | Sub(_) | Sbb(_) | Ana(_)
      | Xra(_) | Ora(_) | Cmp(_) | Rnz | Pop(_) | Push(_) | Rz | Ret | Rnc | Rc | Rpo | Xthl | Rpe
      | Pchl | Xchg | Rp | Di | Rm | Sphl | Ei | Rst(_) => 1
  }

  /** Instructions that carry a 16-bit address operand. */
  predicate HasAddress(i: Instruction)
  {
    i.Shld? || i.Lhld? || i.Sta? || i.Lda? || i.Jnz? || i.Jmp? || i.Cnz? || i.Jz? || i.Cz?
    || i.Call? || i.Jnc? || i.Cnc? || i.Jc? || i.Cc? || i.Jpo? || i.Cpo? || i.Jpe? || i.Cpe?
    || i.Jp? || i.Cp? || i.Jm? || i.Cm?
  }

  /** The 16-bit operand of an instruction that has one. */
  function Address(i: Instruction): Word
    requires HasAddress(i)
  {
    match i
    case Shld(a) => a case Lhld(a) => a case Sta(a) => a case Lda(a) => a case Jnz(a) => a
    case Jmp(a) => a case Cnz(a) => a case Jz(a) => a case Cz(a) => a case Call(a) => a
    case Jnc(a) => a case Cnc(a) => a case Jc(a) => a case Cc(a) => a case Jpo(a) => a
    case Cpo(a) => a case Jpe(a) => a case Cpe(a) => a case Jp(a) => a case Cp(a) => a
    case Jm(a) => a case Cm(a) => a
  }

  /** Instructions that carry an 8-bit immediate operand (other than `Mvi`). */
  predicate HasImmediate(i: Instruction)
  {
    i.Adi? || i.Aci? || i.Out? || i.Sui? || i.In? || i.Sbi? || i.Ani? || i.Xri? || i.Ori? || i.Cpi?
  }

  /** `two_arg_op_code`: the address is little-endian, `arg2` is its high byte.
      It panics on an opcode whose size is not 3. */
  function TwoArgOpCode(op: Byte, arg1: Byte, arg2: Byte): (i: Instruction)
    requires OpCodeToArgSize(op) == 3
    ensures i.Lxi? ==> i.low == arg1 && i.high == arg2
    ensures !i.Lxi? ==> HasAddress(i) && Address(i) == arg2 * 256 + arg1
  {
    var addr: Word := arg2 * 256 + arg1;
    match op
    case 0x01 => Lxi(BC, arg1, arg2)
    case 0x11 => Lxi(DE, arg1, arg2)
    case 0x21 => Lxi(HL, arg1, arg2)
    case 0x22 => Shld(addr)
    case 0x2a => Lhld(addr)
    case 0x31 => Lxi(SP, arg1, arg2)
    case 0x32 => Sta(addr)
    case 0x3a => Lda(addr)
    case 0xc2 => Jnz(addr)
    case 0xc3 => Jmp(addr)
    case 0xc4 => Cnz(addr)
    case 0xca => Jz(addr)
    case 0xcc => Cz(addr)
    case 0xcd => Call(addr)
    case 0xd2 => Jnc(addr)
    case 0xd4 => Cnc(addr)
    case 0xda => Jc(addr)
    case 0xdc => Cc(addr)
    case 0xe2 => Jpo(addr)
    case 0xe4 => Cpo(addr)
    case 0xea => Jpe(addr)
    case 0xec => Cpe(addr)
    case 0xf2 => Jp(addr)
    case 0xf4 => Cp(addr)
    case 0xfa => Jm(addr)
    case 0xfc => Cm(addr)
  }

  /** `one_arg_op_code`; it panics on an opcode whose size is not 2. */
  function OneArgOpCode(op: Byte, arg: Byte): (i: Instruction)
    requires OpCodeToArgSize(op) == 2
    ensures Size(i) == 2
  {
    match op
    case 0x06 => Mvi(B, arg)
    case 0x0e => Mvi(C, arg)
    case 0x16 => Mvi(D, arg)
    case 0x1e => Mvi(E, arg)
    case 0x26 => Mvi(H, arg)
    case 0x2e => Mvi(L, arg)
    case 0x36 => Mvi(M, arg)
    case 0x3e => Mvi(A, arg)
    case 0xc6 => Adi(arg)
    case 0xce => Aci(arg)
    case 0xd3 => Out(arg)
    case 0xd6 => Sui(arg)
    case 0xdb => In(arg)
    case 0xde => Sbi(arg)
    case 0xe6 => Ani(arg)
    case 0xee => Xri(arg)
    case 0xf6 => Ori(arg)
    case 0xfe => Cpi(arg)
  }

  /** `no_arg_op_code`, the table for one-byte instructions; an opcode it
      does not list is `Nop`. Every entry has size 1, so together with the
      postconditions of `OneArgOpCode` and `TwoArgOpCode` the instruction
      decoded from an opcode has the size `op_code_to_argsize` gives it. */
  function NoArgOpCode(op: Byte): Instruction
  {
    match op
    case 0x00 => Nop
    case 0x02 => Stax(BC)
    case 0x03 => Inx(BC)
    case 0x04 => Inr(B)
    case 0x05 => Dcr(B)
    case 0x07 => Rlc
    case 0x09 => Dad(BC)
    case 0x0a => Ldax(BC)
    case 0x0b => Dcx(BC)
    case 0x0c => Inr(C)
    case 0x0d => Dcr(C)
    case 0x0f => Rrc
    case 0x12 => Stax(DE)
    case 0x13 => Inx(DE)
    case 0x14 => Inr(D)
    case 0x15 => Dcr(D)
    case 0x17 => Ral
    case 0x19 => Dad(DE)
    case 0x1a => Ldax(DE)
    case 0x1b => Dcx(DE)
    case 0x1c => Inr(E)
    case 0x1d => Dcr(E)
    case 0x1f => Rar
    case 0x23 => Inx(HL)
    case 0x24 => Inr(H)
    case 0x25 => Dcr(H)
    case 0x27 => Daa
    case 0x29 => Dad(HL)
    case 0x2b => Dcx(HL)
    case 0x2c => Inr(L)
    case 0x2d => Dcr(L)
    case 0x2f => Cma
    case 0x33 => Inx(SP)
    case 0x34 => Inr(M)
    case 0x35 => Dcr(M)
    case 0x37 => Stc
    case 0x39 => Dad(SP)
    case 0x3b => Dcx(SP)
    case 0x3c => Inr(A)
    case 0x3d => Dcr(A)
    case 0x3f => Cmc
    case 0x40 => Mov(B, B)
    case 0x41 => Mov(B, C)
    case 0x42 => Mov(B, D)
    case 0x43 => Mov(B, E)
    case 0x44 => Mov(B, H)
    case 0x45 => Mov(B, L)
    case 0x46 => Mov(B, M)
    case 0x47 => Mov(B, A)
    case 0x48 => Mov(C, B)
    case 0x49 => Mov(C, C)
    case 0x4a => Mov(C, D)
    case 0x4b => Mov(C, E)
    case 0x4c => Mov(C, H)
    case 0x4d => Mov(C, L)
    case 0x4e => Mov(C, M)
    case 0x4f => Mov(C, A)
    case 0x50 => Mov(D, B)
    case 0x51 => Mov(D, C)
    case 0x52 => Mov(D, D)
    case 0x53 => Mov(D, E)
    case 0x54 => Mov(D, H)
    case 0x55 => Mov(D, L)
    case 0x56 => Mov(D, M)
    case 0x57 => Mov(D, A)
    case 0x58 => Mov(E, B)
    case 0x59 => Mov(E, C)
    case 0x5a => Mov(E, D)
    case 0x5b => Mov(E, E)
    case 0x5c => Mov(E, H)
    case 0x5d => Mov(E, L)
    case 0x5e => Mov(E, M)
    case 0x5f => Mov(E, A)
    case 0x60 => Mov(H, B)
    case 0x61 => Mov(H, C)
    case 0x62 => Mov(H, D)
    case 0x63 => Mov(H, E)
    case 0x64 => Mov(H, H)
    case 0x65 => Mov(H, L)
    case 0x66 => Mov(H, M)
    case 0x67 => Mov(H, A)
    case 0x68 => Mov(L, B)
    case 0x69 => Mov(L, C)
    case 0x6a => Mov(L, D)
    case 0x6b => Mov(L, E)
    case 0x6c => Mov(L, H)
    case 0x6d => Mov(L, L)
    case 0x6e => Mov(L, M)
    case 0x6f => Mov(L, A)
    case 0x70 => Mov(M, B)
    case 0x71 => Mov(M, C)
    case 0x72 => Mov(M, D)
    case 0x73 => Mov(M, E)
    case 0x74 => Mov(M, H)
    case 0x75 => Mov(M, L)
    case 0x76 => Hlt
    case 0x77 => Mov(M, A)
    case 0x78 => Mov(A, B)
    case 0x79 => Mov(A, C)
    case 0x7a => Mov(A, D)
    case 0x7b => Mov(A, E)
    case 0x7c => Mov(A, H)
    case 0x7d => Mov(A, L)
    case 0x7e => Mov(A, M)
    case 0x7f => Mov(A, A)
    case 0x80 => Add(B)
    case 0x81 => Add(C)
    case 0x82 => Add(D)
    case 0x83 => Add(E)
    case 0x84 => Add(H)
    case 0x85 => Add(L)
    case 0x86 => Add(M)
    case 0x87 => Add(A)
    case 0x88 => Adc(B)
    case 0x89 => Adc(C)
    case 0x8a => Adc(D)
    case 0x8b => Adc(E)
    case 0x8c => Adc(H)
    case 0x8d => Adc(L)
    case 0x8e => Adc(M)
    case 0x8f => Adc(A)
    case 0x90 => Sub(B)
    case 0x91 => Sub(C)
    case 0x92 => Sub(D)
    case 0x93 => Sub(E)
    case 0x94 => Sub(H)
    case 0x95 => Sub(L)
    case 0x96 => Sub(M)
    case 0x97 => Sub(A)
    case 0x98 => Sbb(B)
    case 0x99 => Sbb(C)
    case 0x9a => Sbb(D)
    case 0x9b => Sbb(E)
    case 0x9c => Sbb(H)
    case 0x9d => Sbb(L)
    case 0x9e => Sbb(M)
    case 0x9f => Sbb(A)
    case 0xa0 => Ana(B)
    case 0xa1 => Ana(C)
    case 0xa2 => Ana(D)
    case 0xa3 => Ana(E)
    case 0xa4 => Ana(H)
    case 0xa5 => Ana(L)
    case 0xa6 => Ana(M)
    case 0xa7 => Ana(A)
    case 0xa8 => Xra(B)
    case 0xa9 => Xra(C)
    case 0xaa => Xra(D)
    case 0xab => Xra(E)
    case 0xac => Xra(H)
    case 0xad => Xra(L)
    case 0xae => Xra(M)
    case 0xaf => Xra(A)
    case 0xb0 => Ora(B)
    case 0xb1 => Ora(C)
    case 0xb2 => Ora(D)
    case 0xb3 => Ora(E)
    case 0xb4 => Ora(H)
    case 0xb5 => Ora(L)
    case 0xb6 => Ora(M)
    case 0xb7 => Ora(A)
    case 0xb8 => Cmp(B)
    case 0xb9 => Cmp(C)
    case 0xba => Cmp(D)
    case 0xbb => Cmp(E)
    case 0xbc => Cmp(H)
    case 0xbd => Cmp(L)
    case 0xbe => Cmp(M)
    case 0xbf => Cmp(A)
    case 0xc0 => Rnz
    case 0xc1 => Pop(BC)
    case 0xc5 => Push(BC)
    case 0xc7 => Rst(0)
    case 0xc8 => Rz
    case 0xc9 => Ret
    case 0xcf => Rst(1)
    case 0xd0 => Rnc
    case 0xd1 => Pop(DE)
    case 0xd5 => Push(DE)
    case 0xd7 => Rst(2)
    case 0xd8 => Rc
    case 0xdf => Rst(3)
    case 0xe0 => Rpo
    case 0xe1 => Pop(HL)
    case 0xe3 => Xthl
    case 0xe5 => Push(HL)
    case 0xe7 => Rst(4)
    case 0xe8 => Rpe
    case 0xe9 => Pchl
    case 0xeb => Xchg
    case 0xef => Rst(5)
    case 0xf0 => Rp
    case 0xf1 => Pop(PSW)
    case 0xf3 => Di
    case 0xf5 => Push(PSW)
    case 0xf7 => Rst(6)
    case 0xf8 => Rm
    case 0xf9 => Sphl
    case 0xfb => Ei
    case 0xff => Rst(7)
    case _ => Nop
  }

  /** `op_code_to_argsize`: 3 for the opcodes with an address or a pair of
      bytes, 2 for those with one immediate byte, 1 for every other byte. */
  function OpCodeToArgSize(op: Byte): (n: nat)
    ensures 1 <= n <= 3
  {
    match op
    case 0x01 | 0x11 | 0x21 | 0x22 | 0x2a | 0x31 | 0x32 | 0x3a | 0xc2 | 0xc3 | 0xc4 | 0xca | 0xcc
      | 0xcd | 0xd2 | 0xd4 | 0xda | 0xdc | 0xe2 | 0xe4 | 0xea | 0xec | 0xf2 | 0xf4 | 0xfa | 0xfc => 3
    case 0x06 | 0x0e | 0x16 | 0x1e | 0x26 | 0x2e | 0x36 | 0x3e | 0xc6 | 0xce | 0xd3 | 0xd6 | 0xdb
      | 0xde | 0xe6 | 0xee | 0xf6 | 0xfe => 2
    case _ => 1
  }

  /** The opcodes none of the tables lists; `read_at` decodes each as a one-byte `Nop`. */
  const Unlisted: set<Byte> := {0x08, 0x10, 0x18, 0x20, 0x28, 0x30, 0x38, 0xcb, 0xd9, 0xdd, 0xed, 0xfd}

  lemma UnlistedIsNop(data: seq<Byte>, pc: Word)
    requires pc < |data| && data[pc] in Unlisted
    ensures ReadAt(data, pc) == Ok(Nop) && Size(Nop) == 1
  {
    UnlistedDecoding(data[pc]);
  }

  lemma UnlistedDecoding(op: Byte)
    requires op in Unlisted
    ensures OpCodeToArgSize(op) == 1 && NoArgOpCode(op) == Nop
  {
    if op == 0x08 {
      Wildcard08();
    } else if op == 0x10 {
      Wildcard10();
    } else if op == 0x18 {
      Wildcard18();
    } else if op == 0x20 {
      Wildcard20();
    } else if op == 0x28 {
      Wildcard28();
    } else if op == 0x30 {
      Wildcard30();
    } else if op == 0x38 {
      Wildcard38();
    } else if op == 0xcb {
      WildcardCB();
    } else if op == 0xd9 {
      WildcardD9();
    } else if op == 0xdd {
      WildcardDD();
    } else if op == 0xed {
      WildcardED();
    } else if op == 0xfd {
      WildcardFD();
    }
  }

  // Helpers of `UnlistedDecoding`, one per unlisted opcode, so that the
  // decoding table is unfolded for one literal per proof.
  lemma Wildcard08()
    ensures OpCodeToArgSize(0x08) == 1 && NoArgOpCode(0x08) == Nop
  {
  }

  lemma Wildcard10()
    ensures OpCodeToArgSize(0x10) == 1 && NoArgOpCode(0x10) == Nop
  {
  }

  lemma Wildcard18()
    ensures OpCodeToArgSize(0x18) == 1 && NoArgOpCode(0x18) == Nop
  {
  }

  lemma Wildcard20()
    ensures OpCodeToArgSize(0x20) == 1 && NoArgOpCode(0x20) == Nop
  {
  }

  lemma Wildcard28()
    ensures OpCodeToArgSize(0x28) == 1 && NoArgOpCode(0x28) == Nop
  {
  }

  lemma Wildcard30()
    ensures OpCodeToArgSize(0x30) == 1 && NoArgOpCode(0x30) == Nop
  {
  }

  lemma Wildcard38()
    ensures OpCodeToArgSize(0x38) == 1 && NoArgOpCode(0x38) == Nop
  {
  }

  lemma WildcardCB()
    ensures OpCodeToArgSize(0xcb) == 1 && NoArgOpCode(0xcb) == Nop
  {
  }

  lemma WildcardD9()
    ensures OpCodeToArgSize(0xd9) == 1 && NoArgOpCode(0xd9) == Nop
  {
  }

  lemma WildcardDD()
    ensures OpCodeToArgSize(0xdd) == 1 && NoArgOpCode(0xdd) == Nop
  {
  }

  lemma WildcardED()
    ensures OpCodeToArgSize(0xed) == 1 && NoArgOpCode(0xed) == Nop
  {
  }

  lemma WildcardFD()
    ensures OpCodeToArgSize(0xfd) == 1 && NoArgOpCode(0xfd) == Nop
  {
  }

  /** The decoded instruction has the size the size table gives its opcode,
      and it fits in `data`: `read_at` never returns `WrongInstruction`, and
      the panicking arms of the one- and two-argument tables are unreachable. */
  lemma ReadAtSize(data: seq<Byte>, pc: Word)
    requires ReadAt(data, pc).Ok?
    ensures Size(ReadAt(data, pc).value) == OpCodeToArgSize(data[pc])
    ensures pc + Size(ReadAt(data, pc).value) <= |data|
  {
    var op := data[pc];
    if OpCodeToArgSize(op) == 1 {
      NoArgIsOneByte(op);
      OneByteSize(NoArgOpCode(op));
    } else if OpCodeToArgSize(op) == 3 {
      TwoArgSize(op, data[pc + 1], data[pc + 2]);
    }
  }

  /** The instructions whose size is 1. */
  predicate OneByte(i: Instruction)
  {
    LowOneByte(i) || HighOneByte(i)
  }

  /** The one-byte instructions of opcodes 0x00 to 0x9f. */
  predicate LowOneByte(i: Instruction)
  {
    i.Nop? || i.Stax? || i.Inx? || i.Inr? || i.Dcr? || i.Rlc? || i.Dad? || i.Ldax? || i.Dcx?
    || i.Rrc? || i.Ral? || i.Rar? || i.Daa? || i.Cma? || i.Stc? || i.Cmc? || i.Mov? || i.Hlt?
    || i.Add? || i.Adc? || i.Sub? || i.Sbb?
  }

  /** The one-byte instructions of opcodes 0xa0 to 0xff. */
  predicate HighOneByte(i: Instruction)
  {
    i.Ana? || i.Xra? || i.Ora? || i.Cmp? || i.Rnz? || i.Pop? || i.Push? || i.Rz? || i.Ret?
    || i.Rnc? || i.Rc? || i.Rpo? || i.Xthl? || i.Rpe? || i.Pchl? || i.Xchg? || i.Rp? || i.Di?
    || i.Rm? || i.Sphl? || i.Ei? || i.Rst?
  }

  lemma OneByteSize(i: Instruction)
    requires OneByte(i)
    ensures Size(i) == 1
  {
    if LowOneByte(i) {
      LowOneByteSize(i);
    } else {
      HighOneByteSize(i);
    }
  }

  lemma LowOneByteSize(i: Instruction)
    requires LowOneByte(i)
    ensures Size(i) == 1
  {
  }

  lemma HighOneByteSize(i: Instruction)
    requires HighOneByte(i)
    ensures Size(i) == 1
  {
  }

  lemma NoArgIsOneByte(op: Byte)
    ensures OneByte(NoArgOpCode(op))
  {
  }

  lemma TwoArgSize(op: Byte, arg1: Byte, arg2: Byte)
    requires OpCodeToArgSize(op) == 3
    ensures Size(TwoArgOpCode(op, arg1, arg2)) == 3
  {
  }

  /** The register order of the 3-bit register fields of the 8080 opcode map. */
  function RegisterField(k: nat): (r: Register)
    requires k < 8
    ensures r != F && RegisterCode(r) == k
  {
    [B, C, D, E, H, L, M, A][k]
  }

  /** The 3-bit field that names a register in an opcode; `F` has none. */
  function RegisterCode(r: Register): (k: nat)
    requires r != F
    ensures k < 8
  {
    match r
    case B => 0
    case C => 1
    case D => 2
    case E => 3
    case H => 4
    case L => 5
    case M => 6
    case A => 7
  }

  /** Opcodes 0x40 to 0x7f other than 0x76 (`Hlt`) are `Mov(dst, src)`: the
      opcode has the code of `dst` in bits 5 to 3 and that of `src` in bits 2 to 0. */
  lemma MovDecoding(dst: Register, src: Register)
    requires dst != F && src != F && !(dst == M && src == M)
    ensures OpCodeToArgSize(0x40 + 8 * RegisterCode(dst) + RegisterCode(src)) == 1
    ensures NoArgOpCode(0x40 + 8 * RegisterCode(dst) + RegisterCode(src)) == Mov(dst, src)
  {
  }

  /** The one opcode of the `Mov` block that is not a `Mov`. */
  lemma HltDecoding()
    ensures OpCodeToArgSize(0x76) == 1 && NoArgOpCode(0x76) == Hlt
  {
  }

  lemma MovCycles(dst: Register, src: Register)
    ensures Cycles(Mov(dst, src)) == if dst == M || src == M then 7 else 5
  {
  }
}
