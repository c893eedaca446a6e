/** The prototype CPU of `core/src/cpu_state.rs` at the level of values: a
    seven-register CPU whose flags are one result byte (`condition_flag`)
    plus `cy` and `ac`, a memory split at `ram_offset` into a read-only ROM
    below and a fixed 0x2000-byte RAM above, and `execute_instruction` for the
    fifteen instructions it implements. The classes of `CoreCpuState` are
    proved against these functions. */
module CoreMachine {
  import opened Bits
  import opened Wrappers
  import Arith

  // ---------------------------------------------------------------- local types

  /** The registers of the prototype. Its `op_code.rs` is not part of this
      model, so the slot order (B, C, D, E, H, L, A in slots 0 to 6) is
      assumed; `M` names memory at `HL` and has no slot. */
  datatype Register = B | C | D | E | H | L | A | M

  /** The slot of a register in `registers: [u8; 7]`. */
  function Slot(r: Register): (k: nat)
    requires r != M
    ensures k < 7
  {
    match r
    case B => 0
    case C => 1
    case D => 2
    case E => 3
    case H => 4
    case L => 5
    case A => 6
  }

  /** The register pairs the prototype's instructions name. */
  datatype RegisterPair = BC | DE | HL | SP

  /** `RegisterPair::split`: the (high, low) registers of a pair; `SP` has
      none (the source panics). */
  function Split(rp: RegisterPair): (p: (Register, Register))
    requires rp != SP
    ensures p.0 != M && p.1 != M && Slot(p.0) != Slot(p.1)
  {
    match rp
    case BC => (B, C)
    case DE => (D, E)
    case HL => (H, L)
  }

  /** `MemoryError`; `StackOverflow` is declared but never produced. */
  datatype MemoryError = OutOfBoundRead(addr: Word) | OutOfBoundReadRom(addr: Word) | StackOverflow

  /** The instructions `execute_instruction` implements, and one case for all
      the others (the source answers those with `unimplemented!`). */
  datatype Instruction =
    | Nop
    | Jnz(addr: Word)
    | Push(pair: RegisterPair)
    | Cpi(byte: Byte)
    | Ret
    | Dcr(reg: Register)
    | Inx(pair: RegisterPair)
    | Ldax(pair: RegisterPair)
    | Lda(addr: Word)
    | Dad(pair: RegisterPair)
    | Lxi(pair: RegisterPair, low: Byte, high: Byte)
    | Jmp(addr: Word)
    | Call(addr: Word)
    | Mvi(dst: Register, byte: Byte)
    | Mov(dst: Register, src: Register)
    | Unimplemented(opcode: Byte)

  /** The size of the RAM array. */
  const RamSize := 0x2000

  /** The contents of a `Cpu`. */
  datatype CpuView = CpuView(registers: seq<Byte>, sp: Word, conditionFlag: Byte, cy: bool, ac: bool)

  /** The contents of a `System`: the CPU, the RAM array with its offset, and
      the ROM it borrows. */
  datatype State = State(cpu: CpuView, ram: seq<Byte>, ramOffset: Word, rom: seq<Byte>)

  /** A helper's outcome and the system it leaves behind. */
  datatype Step<T> = Step(result: Result<T, MemoryError>, next: State)

  /** The array sizes the source's types fix. */
  predicate Valid(s: State)
  {
    |s.cpu.registers| == 7 && |s.ram| == RamSize
  }

  // ---------------------------------------------------------------- arithmetic

  /** `add_u8`: the wrapping sum, a carry when the sum is below `a`, and an
      auxiliary flag when `a` is below 8 and the sum is not. The carry is
      exactly the wrap-around: the sum plus 0x100 on a carry is `a + b`. */
  function AddU8(a: Byte, b: Byte): (r: (Byte, bool, bool))
    ensures r.0 + (if r.1 then 0x100 else 0) == a + b
    ensures r.2 <==> a < 8 && r.0 >= 8
  {
    var out := (a + b) % 0x100;
    (out, out < a, a < 8 && out >= 8)
  }

  /** `sub_u8`: the wrapping difference, a "carry" when the difference is
      below `a`, and an auxiliary flag when the difference is below 8 and `a`
      is not. Adding `b` back gives `a`; the carry holds exactly when
      `0 < b <= a`, which is not the 8080 borrow (`a < b`). */
  function SubU8(a: Byte, b: Byte): (r: (Byte, bool, bool))
    ensures (r.0 + b) % 0x100 == a
    ensures r.1 <==> 0 < b <= a
    ensures r.2 <==> r.0 < 8 && a >= 8
  {
    var out := (a - b) % 0x100;
    (out, out < a, out < 8 && a >= 8)
  }

  /** `sub_u8` undoes `add_u8` on the byte they compute. */
  lemma SubU8UndoesAddU8(a: Byte, b: Byte)
    ensures SubU8(AddU8(a, b).0, b).0 == a
  {
    var sum := AddU8(a, b).0;
    assert (SubU8(sum, b).0 + b) % 0x100 == sum;
    if a + b < 0x100 {
      assert sum == a + b;
    } else {
      assert sum == a + b - 0x100;
    }
  }

  // ---------------------------------------------------------------- registers and flags

  /** `Cpu::get`. */
  function Get(c: CpuView, r: Register): Byte
    requires |c.registers| == 7 && r != M
  {
    c.registers[Slot(r)]
  }

  /** `*Cpu::get_mut(r) = v`. */
  function SetReg(c: CpuView, r: Register, v: Byte): (d: CpuView)
    requires |c.registers| == 7 && r != M
    ensures |d.registers| == 7
  {
    c.(registers := c.registers[Slot(r) := v])
  }

  /** `System::get_rp`: the word the pair's high and low registers hold. */
  function GetRp(c: CpuView, rp: RegisterPair): Word
    requires |c.registers| == 7 && rp != SP
  {
    Arith.ToU16(Get(c, Split(rp).1), Get(c, Split(rp).0))
  }

  /** `z`: the result byte is zero. */
  predicate Z(c: CpuView)
  {
    c.conditionFlag == 0
  }

  /** `condition_flag as i8`: the byte read as a two's-complement number. */
  function AsI8(x: Byte): (v: int)
    ensures -0x80 <= v < 0x80 && (v - x) % 0x100 == 0
  {
    if x >= 0x80 then x - 0x100 else x
  }

  /** `s`: the result byte is negative as an `i8`. */
  predicate S(c: CpuView)
  {
    AsI8(c.conditionFlag) < 0
  }

  /** `p`: the result byte is even. */
  predicate P(c: CpuView)
  {
    c.conditionFlag % 2 == 0
  }

  /** The sign flag is bit 7 of the result byte. */
  lemma SignIsBit7(c: CpuView)
    ensures S(c) <==> Bit(c.conditionFlag, 7) == 1
  {
    Pow2Values();
  }

  /** The "parity" flag is bit 0 of the result byte being clear (not the
      8080's even number of set bits). */
  lemma ParityIsBit0(c: CpuView)
    ensures P(c) <==> Bit(c.conditionFlag, 0) == 0
  {
  }

  // ---------------------------------------------------------------- memory

  /** `Ram::get` and `Ram::get_mut`: the slot `addr - ram_offset` of the
      array, or `OutOfBoundRead(addr)` past its end. The subtraction is a u16
      one, which panics below the offset: callers must stay at or above it. */
  function RamSlot(ramOffset: Word, addr: Word): (r: Result<nat, MemoryError>)
    requires addr >= ramOffset
    ensures r.Ok? ==> r.value < RamSize && ramOffset + r.value == addr
    ensures r.Err? ==> r.error == OutOfBoundRead(addr) && addr - ramOffset >= RamSize
  {
    var k := addr - ramOffset;
    if k < RamSize then Ok(k) else Err(OutOfBoundRead(addr))
  }

  /** `Ram::get`. */
  function RamGet(s: State, addr: Word): Result<Byte, MemoryError>
    requires Valid(s) && addr >= s.ramOffset
  {
    var k := RamSlot(s.ramOffset, addr);
    if k.Err? then Err(k.error) else Ok(s.ram[k.value])
  }

  /** `*self.ram.get_mut(addr)? = v`. */
  function RamStore(s: State, addr: Word, v: Byte): (st: Step<()>)
    requires Valid(s) && addr >= s.ramOffset
    ensures Valid(st.next) && st.next.cpu == s.cpu
    ensures st.next.ramOffset == s.ramOffset && st.next.rom == s.rom
    ensures st.result.Err? ==> st.next == s
  {
    var k := RamSlot(s.ramOffset, addr);
    if k.Err? then Step(Err(k.error), s) else Step(Ok(()), s.(ram := s.ram[k.value := v]))
  }

  /** `System::get`: addresses at or above `ram_offset` read the RAM, the
      others the ROM (`OutOfBoundReadRom` past its end). */
  function SystemGet(s: State, addr: Word): Result<Byte, MemoryError>
    requires Valid(s)
  {
    if addr >= s.ramOffset then RamGet(s, addr)
    else if addr < |s.rom| then Ok(s.rom[addr])
    else Err(OutOfBoundReadRom(addr))
  }

  /** The memory map: an address reads RAM slot `addr - ram_offset` when it
      lies in the 0x2000 bytes from the offset, ROM byte `addr` when it lies
      below the offset and inside the ROM, and fails otherwise with the
      error of its side. */
  lemma {:induction false} MemoryMap(s: State, addr: Word)
    requires Valid(s)
    ensures SystemGet(s, addr).Ok? <==>
      (s.ramOffset <= addr < s.ramOffset + RamSize) || (addr < s.ramOffset && addr < |s.rom|)
    ensures s.ramOffset <= addr < s.ramOffset + RamSize ==> SystemGet(s, addr) == Ok(s.ram[addr - s.ramOffset])
    ensures addr < s.ramOffset && addr < |s.rom| ==> SystemGet(s, addr) == Ok(s.rom[addr])
    ensures addr >= s.ramOffset + RamSize ==> SystemGet(s, addr) == Err(OutOfBoundRead(addr))
    ensures |s.rom| <= addr < s.ramOffset ==> SystemGet(s, addr) == Err(OutOfBoundReadRom(addr))
  {
    if addr >= s.ramOffset {
      var k := RamSlot(s.ramOffset, addr);
      assert k.Ok? <==> addr < s.ramOffset + RamSize;
    }
  }

  /** A successful store is read back at its address, every other address
      reads as before, and the ROM below the offset is never written. */
  lemma {:induction false} GetAfterStore(s: State, addr: Word, v: Byte, other: Word)
    requires Valid(s) && addr >= s.ramOffset && RamStore(s, addr, v).result.Ok?
    ensures SystemGet(RamStore(s, addr, v).next, addr) == Ok(v)
    ensures other != addr ==> SystemGet(RamStore(s, addr, v).next, other) == SystemGet(s, other)
  {
    var k := addr - s.ramOffset;
    assert RamStore(s, addr, v).next.ram == s.ram[k := v];
    if other != addr && other >= s.ramOffset {
      var j := other - s.ramOffset;
      assert j != k;
    }
  }

  // ---------------------------------------------------------------- System helpers

  /** `push`: the pair's low byte goes to `sp - 2`, then its high byte to
      `sp - 1`, then `sp -= 2`; a failing store returns its error (after the
      first store, the low byte stays written). */
  predicate PushDefined(s: State, rp: RegisterPair)
  {
    rp != SP && s.cpu.sp >= 2 && s.cpu.sp - 2 >= s.ramOffset
  }

  function PushPair(s: State, rp: RegisterPair): (st: Step<()>)
    requires Valid(s) && PushDefined(s, rp)
    ensures Valid(st.next) && st.next.ramOffset == s.ramOffset && st.next.rom == s.rom
  {
    var (h, l) := Arith.ToU8(GetRp(s.cpu, rp));
    var st1 := RamStore(s, s.cpu.sp - 2, l);
    if st1.result.Err? then st1
    else
      var st2 := RamStore(st1.next, s.cpu.sp - 1, h);
      if st2.result.Err? then st2
      else Step(Ok(()), st2.next.(cpu := st2.next.cpu.(sp := s.cpu.sp - 2)))
  }

  /** `cpi`: `sub_u8(A, byte)` sets the result byte, `cy` and `ac`. */
  function CompareImmediate(c: CpuView, byte: Byte): (d: CpuView)
    requires |c.registers| == 7
    ensures d.registers == c.registers && d.sp == c.sp
    ensures Z(d) <==> Get(c, A) == byte
    ensures d.cy <==> 0 < byte <= Get(c, A)
  {
    var (cf, cy, ac) := SubU8(Get(c, A), byte);
    c.(conditionFlag := cf, cy := cy, ac := ac)
  }

  /** `ret`'s reads and `sp += 2` stay inside the source's u16 arithmetic on
      the path that reaches them: `sp + 1` is only computed once the read at
      `sp` succeeded, and `sp += 2` once both reads did. */
  predicate RetDefined(s: State)
  {
    s.cpu.sp >= s.ramOffset
    && (s.cpu.sp - s.ramOffset < RamSize ==> s.cpu.sp < 0xffff)
    && (s.cpu.sp + 1 - s.ramOffset < RamSize ==> s.cpu.sp < 0xfffe)
  }

  /** `ret`: the word at `sp` (low byte) and `sp + 1` (high byte), read from
      the RAM, then `sp += 2`. */
  function Return(s: State): (st: Step<Word>)
    requires Valid(s) && RetDefined(s)
    ensures st.next.ram == s.ram && Valid(st.next)
  {
    var l := RamGet(s, s.cpu.sp);
    if l.Err? then Step(Err(l.error), s)
    else
      var h := RamGet(s, s.cpu.sp + 1);
      if h.Err? then Step(Err(h.error), s)
      else Step(Ok(Arith.ToU16(l.value, h.value)), s.(cpu := s.cpu.(sp := s.cpu.sp + 2)))
  }

  /** `dcr`: the register drops by one (wrapping); the result is also the
      condition byte, `ac` comes from `sub_u8`, `cy` is kept. */
  function Decrement(c: CpuView, reg: Register): (d: CpuView)
    requires |c.registers| == 7 && reg != M
    ensures |d.registers| == 7
  {
    var (val, _, ac) := SubU8(Get(c, reg), 1);
    SetReg(c, reg, val).(conditionFlag := val, ac := ac)
  }

  /** `inx` adds one to the pair; the `+= 1` on the high register panics
      when the pair holds 0xffff. */
  predicate InxDefined(c: CpuView, rp: RegisterPair)
    requires |c.registers| == 7
  {
    rp != SP && GetRp(c, rp) < 0xffff
  }

  /** `inx`: a low register of 255 becomes 0 and carries into the high one;
      otherwise the low register goes up by one. */
  function Increment(c: CpuView, rp: RegisterPair): (d: CpuView)
    requires |c.registers| == 7 && InxDefined(c, rp)
    ensures |d.registers| == 7
  {
    var (h, l) := Split(rp);
    if Get(c, l) == 255 then
      SetReg(SetReg(c, l, 0), h, Get(c, h) + 1)
    else
      SetReg(c, l, Get(c, l) + 1)
  }

  /** `lda`: `A` takes the byte at `addr`, read through `System::get`. */
  function LoadA(s: State, addr: Word): (st: Step<()>)
    requires Valid(s)
    ensures Valid(st.next) && st.next.ram == s.ram
  {
    var v := SystemGet(s, addr);
    if v.Err? then Step(Err(v.error), s) else Step(Ok(()), s.(cpu := SetReg(s.cpu, A, v.value)))
  }

  /** `dad` as written: `add_u16` of the pair and `HL` sets `cy`, then the
      high and low bytes of that sum are ADDED to `H` and `L` (`+=`), which
      panics when a register would pass 255. */
  predicate DadAsWrittenDefined(c: CpuView, rp: RegisterPair)
    requires |c.registers| == 7
  {
    rp != SP &&
    var (h, l) := Arith.ToU8(Arith.AddU16(GetRp(c, rp), GetRp(c, HL)).0);
    Get(c, H) + h < 0x100 && Get(c, L) + l < 0x100
  }

  function DadAsWritten(c: CpuView, rp: RegisterPair): (d: CpuView)
    requires |c.registers| == 7 && DadAsWrittenDefined(c, rp)
    ensures |d.registers| == 7
  {
    var (val, cy) := Arith.AddU16(GetRp(c, rp), GetRp(c, HL));
    var (h, l) := Arith.ToU8(val);
    SetReg(SetReg(c.(cy := cy), H, Get(c, H) + h), L, Get(c, L) + l)
  }

  /** With `HL = 1` and `BC = 1`, `dad B` as written leaves `HL = 3`, where
      `HL + BC` is 2: the sum is added to `HL` a second time. */
  lemma DadAsWrittenAddsTwice()
    ensures var c := CpuView([0, 1, 0, 0, 0, 1, 0], 0, 0, false, false);
      GetRp(c, BC) == 1 && GetRp(c, HL) == 1
      && DadAsWrittenDefined(c, BC) && GetRp(DadAsWritten(c, BC), HL) == 3
  {
    var c := CpuView([0, 1, 0, 0, 0, 1, 0], 0, 0, false, false);
    assert Arith.AddU16(GetRp(c, BC), GetRp(c, HL)) == (2, false);
    assert Arith.ToU8(2) == (0, 2);
    assert DadAsWritten(c, BC).registers == [0, 1, 0, 0, 0, 3, 0];
  }

  /** `dad` as evidently intended (and as `src/cpu_state.rs` does it): `HL`
      takes the high and low bytes of the 16-bit sum, `cy` its carry. */
  function DoubleAdd(c: CpuView, rp: RegisterPair): (d: CpuView)
    requires |c.registers| == 7 && rp != SP
    ensures |d.registers| == 7
  {
    var (val, cy) := Arith.AddU16(GetRp(c, rp), GetRp(c, HL));
    var (h, l) := Arith.ToU8(val);
    SetReg(SetReg(c.(cy := cy), H, h), L, l)
  }

  /** `lxi`: for `SP` the stack pointer becomes the word `(lb, hb)`;
      otherwise the high register takes `hb` and the low one `lb`. */
  function LoadImmediate(c: CpuView, rp: RegisterPair, lb: Byte, hb: Byte): (d: CpuView)
    requires |c.registers| == 7
    ensures |d.registers| == 7
  {
    if rp == SP then c.(sp := Arith.ToU16(lb, hb))
    else
      var (h, l) := Split(rp);
      SetReg(SetReg(c, h, hb), l, lb)
  }

  /** `call` stores `pc`'s high byte at `sp - 1` before its low byte at
      `sp - 2`; both u16 subtractions and both offsets must not underflow on
      the path that reaches them. */
  predicate CallDefined(s: State)
  {
    s.cpu.sp >= 1 && s.cpu.sp - 1 >= s.ramOffset
    && (s.cpu.sp - 1 - s.ramOffset < RamSize ==> s.cpu.sp - 2 >= s.ramOffset)
  }

  /** `call`: push the return address `pc` (high byte first, at `sp - 1`),
      `sp -= 2`, and answer the target `addr`. */
  function CallAt(s: State, addr: Word, pc: Word): (st: Step<Word>)
    requires Valid(s) && CallDefined(s)
    ensures Valid(st.next) && st.next.ramOffset == s.ramOffset && st.next.rom == s.rom
  {
    var (h, l) := Arith.ToU8(pc);
    var st1 := RamStore(s, s.cpu.sp - 1, h);
    if st1.result.Err? then Step(Err(st1.result.error), st1.next)
    else
      var st2 := RamStore(st1.next, s.cpu.sp - 2, l);
      if st2.result.Err? then Step(Err(st2.result.error), st2.next)
      else Step(Ok(addr), st2.next.(cpu := st2.next.cpu.(sp := s.cpu.sp - 2)))
  }

  /** `write(dst)`'s panic: the RAM's `get_mut` below the offset. */
  predicate WriteDefined(s: State, dst: Register)
    requires Valid(s)
  {
    dst == M ==> GetRp(s.cpu, HL) >= s.ramOffset
  }

  /** `*self.write(dst)? = v`: `M` stores at `HL` through the RAM, a register
      takes `v`. This is `mvi`. */
  function Write(s: State, dst: Register, v: Byte): (st: Step<()>)
    requires Valid(s) && WriteDefined(s, dst)
    ensures Valid(st.next) && st.next.ramOffset == s.ramOffset && st.next.rom == s.rom
  {
    if dst == M then RamStore(s, GetRp(s.cpu, HL), v)
    else Step(Ok(()), s.(cpu := SetReg(s.cpu, dst, v)))
  }

  /** `read(src)`: `M` reads `HL` through `System::get`, a register its slot. */
  function Read(s: State, src: Register): Result<Byte, MemoryError>
    requires Valid(s)
  {
    if src == M then SystemGet(s, GetRp(s.cpu, HL)) else Ok(Get(s.cpu, src))
  }

  /** `mov`: the source is read first; the destination is written only when
      the read succeeded. */
  predicate MovDefined(s: State, dst: Register, src: Register)
    requires Valid(s)
  {
    Read(s, src).Ok? ==> WriteDefined(s, dst)
  }

  function Move(s: State, dst: Register, src: Register): (st: Step<()>)
    requires Valid(s) && MovDefined(s, dst, src)
    ensures Valid(st.next)
  {
    var v := Read(s, src);
    if v.Err? then Step(Err(v.error), s) else Write(s, dst, v.value)
  }

  // ---------------------------------------------------------------- execute_instruction

  /** The inputs on which `execute_instruction` does not panic: `pc +
      cycles` fits a u16, the instruction is implemented, and its helper's
      own conditions hold. */
  predicate ExecuteDefined(s: State, i: Instruction, pc: Word, cycles: nat)
    requires Valid(s)
  {
    pc + cycles <= 0xffff && ArmDefined(s, i)
  }

  /** The inputs on which the arm of `execute_instruction` for `i` does not
      panic. */
  predicate ArmDefined(s: State, i: Instruction)
    requires Valid(s)
  {
    !i.Unimplemented?
    && (i.Push? ==> PushDefined(s, i.pair))
    && (i.Ret? ==> RetDefined(s))
    && (i.Dcr? ==> i.reg != M)
    && (i.Inx? ==> InxDefined(s.cpu, i.pair))
    && (i.Ldax? ==> i.pair != SP)
    && (i.Dad? ==> i.pair != SP)
    && (i.Call? ==> CallDefined(s))
    && (i.Mvi? ==> WriteDefined(s, i.dst))
    && (i.Mov? ==> MovDefined(s, i.dst, i.src))
  }

  /** A helper's outcome, then the next program counter (`?` then `Ok(pc)`). */
  function Then(st: Step<()>, pc: Word): Step<Word>
  {
    if st.result.Err? then Step(Err(st.result.error), st.next) else Step(Ok(pc), st.next)
  }

  /** `System::execute_instruction(instruction, pc)`: the next program
      counter, which is `pc + cycles` (`instruction.cycles()`, passed in since
      the prototype's `op_code.rs` is not part of this model) except where an
      instruction chooses it. `dad` is the intended `DoubleAdd`. */
  function Execute(s: State, i: Instruction, pc: Word, cycles: nat): (st: Step<Word>)
    requires Valid(s) && ExecuteDefined(s, i, pc, cycles)
    ensures Valid(st.next)
  {
    var next := pc + cycles;
    if i.Nop? then Step(Ok(next), s)
    else if i.Jnz? then Step(Ok(if !Z(s.cpu) then i.addr else next), s)
    else if i.Push? then Then(PushPair(s, i.pair), next)
    else if i.Cpi? then Step(Ok(next), s.(cpu := CompareImmediate(s.cpu, i.byte)))
    else if i.Ret? then Return(s)
    else DataArm(s, i, next)
  }

  /** The arms of `execute_instruction` after `ret`: the data operations,
      which answer `next` unless a memory access fails, and `jmp` and `call`. */
  function DataArm(s: State, i: Instruction, next: Word): (st: Step<Word>)
    requires Valid(s) && ArmDefined(s, i)
    ensures Valid(st.next)
  {
    if i.Dcr? then Step(Ok(next), s.(cpu := Decrement(s.cpu, i.reg)))
    else if i.Inx? then Step(Ok(next), s.(cpu := Increment(s.cpu, i.pair)))
    else if i.Ldax? then Then(LoadA(s, GetRp(s.cpu, i.pair)), next)
    else if i.Lda? then Then(LoadA(s, i.addr), next)
    else if i.Dad? then Step(Ok(next), s.(cpu := DoubleAdd(s.cpu, i.pair)))
    else if i.Lxi? then Step(Ok(next), s.(cpu := LoadImmediate(s.cpu, i.pair, i.low, i.high)))
    else if i.Jmp? then Step(Ok(i.addr), s)
    else if i.Call? then CallAt(s, i.addr, next)
    else if i.Mvi? then Then(Write(s, i.dst, i.byte), next)
    else if i.Mov? then Then(Move(s, i.dst, i.src), next)
    else Step(Ok(next), s)
  }
}
