/** What the prototype's `execute_instruction` and its helpers promise: the
    stack round trips, the register-pair arithmetic, the memory reads after
    writes, the flags `cpi` and `dcr` leave, and the next-pc rule. */
module CoreMachineProps {
  import opened Bits
  import opened Wrappers
  import Arith
  import opened CoreMachine

  // ---------------------------------------------------------------- stack

  /** A successful `push` leaves the pair's low byte at `sp - 2` and its high
      byte at `sp - 1`, lowers `sp` by two and keeps the registers. */
  lemma {:induction false} PushStores(s: State, rp: RegisterPair)
    requires Valid(s) && PushDefined(s, rp) && PushPair(s, rp).result.Ok?
    ensures var n := PushPair(s, rp).next;
      n.cpu == s.cpu.(sp := s.cpu.sp - 2)
      && n.ram[s.cpu.sp - 2 - s.ramOffset] == Arith.ToU8(GetRp(s.cpu, rp)).1
      && n.ram[s.cpu.sp - 1 - s.ramOffset] == Arith.ToU8(GetRp(s.cpu, rp)).0
      && forall k :: 0 <= k < RamSize && k != s.cpu.sp - 2 - s.ramOffset && k != s.cpu.sp - 1 - s.ramOffset ==> n.ram[k] == s.ram[k]
  {
    var (h, l) := Arith.ToU8(GetRp(s.cpu, rp));
    var st1 := RamStore(s, s.cpu.sp - 2, l);
    var st2 := RamStore(st1.next, s.cpu.sp - 1, h);
    assert st1.next.ram == s.ram[s.cpu.sp - 2 - s.ramOffset := l];
    assert st2.next.ram == st1.next.ram[s.cpu.sp - 1 - s.ramOffset := h];
  }

  /** `ret` after a successful `push` answers the pushed pair and restores
      `sp`. */
  lemma {:induction false} PushThenReturn(s: State, rp: RegisterPair)
    requires Valid(s) && PushDefined(s, rp) && PushPair(s, rp).result.Ok?
    ensures var n := PushPair(s, rp).next;
      RetDefined(n) && Return(n) == Step(Ok(GetRp(s.cpu, rp)), n.(cpu := s.cpu))
  {
    PushStores(s, rp);
    var n := PushPair(s, rp).next;
    Arith.ToU16OfToU8(GetRp(s.cpu, rp));
    assert RamGet(n, n.cpu.sp) == Ok(Arith.ToU8(GetRp(s.cpu, rp)).1);
    assert RamGet(n, n.cpu.sp + 1) == Ok(Arith.ToU8(GetRp(s.cpu, rp)).0);
  }

  /** `ret` reads the word at `sp` from the RAM and pops it; when `sp` (or
      `sp + 1`) lies past the RAM the read error comes back and nothing
      changes. */
  lemma {:induction false} ReturnReads(s: State)
    requires Valid(s) && RetDefined(s)
    ensures var k := s.cpu.sp - s.ramOffset;
      && (k >= RamSize ==> Return(s) == Step(Err(OutOfBoundRead(s.cpu.sp)), s))
      && (k == RamSize - 1 ==> Return(s) == Step(Err(OutOfBoundRead(s.cpu.sp + 1)), s))
      && (k < RamSize - 1 ==>
            Return(s) == Step(Ok(Arith.ToU16(s.ram[k], s.ram[k + 1])), s.(cpu := s.cpu.(sp := s.cpu.sp + 2))))
  {
    var k := s.cpu.sp - s.ramOffset;
    if k < RamSize {
      assert RamSlot(s.ramOffset, s.cpu.sp) == Ok(k);
      if k < RamSize - 1 {
        assert RamSlot(s.ramOffset, s.cpu.sp + 1) == Ok(k + 1);
      }
    }
  }

  /** `ret` after a successful `call` answers the return address `pc` the
      call stored and restores `sp`; the call itself answers its target. */
  lemma {:induction false} CallThenReturn(s: State, addr: Word, pc: Word)
    requires Valid(s) && CallDefined(s) && CallAt(s, addr, pc).result.Ok?
    ensures var st := CallAt(s, addr, pc);
      st.result.value == addr && st.next.cpu == s.cpu.(sp := s.cpu.sp - 2)
      && RetDefined(st.next) && Return(st.next) == Step(Ok(pc), st.next.(cpu := s.cpu))
  {
    var (h, l) := Arith.ToU8(pc);
    var st1 := RamStore(s, s.cpu.sp - 1, h);
    var st2 := RamStore(st1.next, s.cpu.sp - 2, l);
    var n := CallAt(s, addr, pc).next;
    assert st1.next.ram == s.ram[s.cpu.sp - 1 - s.ramOffset := h];
    assert n.ram == st1.next.ram[s.cpu.sp - 2 - s.ramOffset := l];
    Arith.ToU16OfToU8(pc);
    assert RamGet(n, n.cpu.sp) == Ok(l);
    assert RamGet(n, n.cpu.sp + 1) == Ok(h);
  }

  // ---------------------------------------------------------------- register pairs

  /** `lxi` loads the word `(lb, hb)` into the pair: `get_rp` reads it back
      (the stack pointer for `SP`), and no other register changes. */
  lemma {:induction false} LoadImmediateLoads(c: CpuView, rp: RegisterPair, lb: Byte, hb: Byte)
    requires |c.registers| == 7
    ensures rp == SP ==> LoadImmediate(c, rp, lb, hb) == c.(sp := Arith.ToU16(lb, hb))
    ensures rp != SP ==> GetRp(LoadImmediate(c, rp, lb, hb), rp) == Arith.ToU16(lb, hb)
    ensures rp != SP ==> LoadImmediate(c, rp, lb, hb) == c.(registers := LoadImmediate(c, rp, lb, hb).registers)
    ensures rp != SP ==> forall r: Register :: r != M && r != Split(rp).0 && r != Split(rp).1 ==>
      Get(LoadImmediate(c, rp, lb, hb), r) == Get(c, r)
  {
    if rp != SP {
      var (h, l) := Split(rp);
      var d := LoadImmediate(c, rp, lb, hb);
      assert d.registers == c.registers[Slot(h) := hb][Slot(l) := lb];
    }
  }

  /** `inx` adds one to the pair (the precondition rules out 0xffff) and
      changes no other register, flag or `sp`. */
  lemma {:induction false} IncrementAddsOne(c: CpuView, rp: RegisterPair)
    requires |c.registers| == 7 && InxDefined(c, rp)
    ensures var d := Increment(c, rp);
      GetRp(d, rp) == GetRp(c, rp) + 1
      && d == c.(registers := d.registers)
      && forall r: Register :: r != M && r != Split(rp).0 && r != Split(rp).1 ==> Get(d, r) == Get(c, r)
  {
    var (h, l) := Split(rp);
    var d := Increment(c, rp);
    if Get(c, l) == 255 {
      assert Get(c, h) < 255;
      assert d.registers == c.registers[Slot(l) := 0][Slot(h) := Get(c, h) + 1];
    } else {
      assert d.registers == c.registers[Slot(l) := Get(c, l) + 1];
    }
  }

  /** `dad` as intended: `HL` becomes the 16-bit sum of the pair and `HL`,
      `cy` says whether it wrapped, and nothing else changes but `H` and `L`. */
  lemma {:induction false} DoubleAddSums(c: CpuView, rp: RegisterPair)
    requires |c.registers| == 7 && rp != SP
    ensures var d := DoubleAdd(c, rp);
      GetRp(d, HL) == (GetRp(c, rp) + GetRp(c, HL)) % 0x1_0000
      && (d.cy <==> GetRp(c, rp) + GetRp(c, HL) > 0xffff)
      && d.sp == c.sp && d.conditionFlag == c.conditionFlag && d.ac == c.ac
      && forall r: Register :: r != M && r != H && r != L ==> Get(d, r) == Get(c, r)
  {
    var (val, cy) := Arith.AddU16(GetRp(c, rp), GetRp(c, HL));
    var (h, l) := Arith.ToU8(val);
    var d := DoubleAdd(c, rp);
    assert d.registers == c.registers[Slot(H) := h][Slot(L) := l];
    Arith.ToU16OfToU8(val);
  }

  // ---------------------------------------------------------------- flags

  /** After `cpi byte`, `z` says `A == byte`, `s` is bit 7 of `A - byte`
      (wrapping) and `p` its bit 0 being clear; the registers are kept. */
  lemma CompareFlags(c: CpuView, byte: Byte)
    requires |c.registers| == 7
    ensures var d := CompareImmediate(c, byte);
      d.registers == c.registers
      && (Z(d) <==> Get(c, A) == byte)
      && d.conditionFlag == (Get(c, A) - byte) % 0x100
      && (S(d) <==> Bit((Get(c, A) - byte) % 0x100, 7) == 1)
      && (P(d) <==> (Get(c, A) - byte) % 2 == 0)
  {
    var d := CompareImmediate(c, byte);
    var a: int, b: int := Get(c, A), byte;
    var cf: int := d.conditionFlag;
    assert cf == (a - b) % 0x100;
    assert (a - b) % 2 == cf % 2 by {
      if a >= b { assert cf == a - b; } else { assert cf == a - b + 0x100; }
    }
    SignIsBit7(d);
  }

  /** `dcr` lowers the register by one, wrapping 0 to 255, sets `z` exactly
      when the register held 1, and keeps `cy`, `sp` and the other registers. */
  lemma {:induction false} DecrementFlags(c: CpuView, reg: Register)
    requires |c.registers| == 7 && reg != M
    ensures var d := Decrement(c, reg);
      Get(d, reg) == (Get(c, reg) - 1) % 0x100 && d.conditionFlag == Get(d, reg)
      && (Z(d) <==> Get(c, reg) == 1) && d.cy == c.cy && d.sp == c.sp
      && forall r: Register :: r != M && r != reg ==> Get(d, r) == Get(c, r)
  {
    var d := Decrement(c, reg);
    var val := SubU8(Get(c, reg), 1).0;
    assert d.registers == c.registers[Slot(reg) := val];
  }

  // ---------------------------------------------------------------- moves

  /** What `write(dst)` stores, `read(dst)` reads back. */
  lemma {:induction false} WriteThenRead(s: State, dst: Register, v: Byte)
    requires Valid(s) && WriteDefined(s, dst) && Write(s, dst, v).result.Ok?
    ensures Read(Write(s, dst, v).next, dst) == Ok(v)
  {
    if dst == M {
      GetAfterStore(s, GetRp(s.cpu, HL), v, GetRp(s.cpu, HL));
    }
  }

  /** A successful `mov` leaves in the destination what the source held. */
  lemma {:induction false} MoveCopies(s: State, dst: Register, src: Register)
    requires Valid(s) && MovDefined(s, dst, src) && Move(s, dst, src).result.Ok?
    ensures Read(Move(s, dst, src).next, dst) == Read(s, src)
  {
    WriteThenRead(s, dst, Read(s, src).value);
  }

  /** `lda addr` and `ldax`: A takes the byte the memory map gives at the
      address (RAM from the offset on, ROM below it), and only A changes; an
      address the map rejects is that error and nothing changes. */
  lemma {:induction false} LoadALoads(s: State, addr: Word)
    requires Valid(s)
    ensures var st := LoadA(s, addr);
      && (st.result.Ok? <==>
            (s.ramOffset <= addr < s.ramOffset + RamSize) || (addr < s.ramOffset && addr < |s.rom|))
      && (SystemGet(s, addr).Err? ==> st == Step(Err(SystemGet(s, addr).error), s))
      && (s.ramOffset <= addr < s.ramOffset + RamSize ==> Get(st.next.cpu, A) == s.ram[addr - s.ramOffset])
      && (addr < s.ramOffset && addr < |s.rom| ==> Get(st.next.cpu, A) == s.rom[addr])
      && st.next.cpu.sp == s.cpu.sp && st.next.cpu.conditionFlag == s.cpu.conditionFlag
      && st.next.cpu.cy == s.cpu.cy && st.next.cpu.ac == s.cpu.ac
      && forall r: Register :: r != M && r != A ==> Get(st.next.cpu, r) == Get(s.cpu, r)
  {
    MemoryMap(s, addr);
  }

  // ---------------------------------------------------------------- next pc

  /** `jnz addr` goes to `addr` exactly when the result byte is not zero,
      and past the instruction otherwise, changing nothing. */
  lemma ExecuteJumpIfNotZero(s: State, addr: Word, pc: Word, cycles: nat)
    requires Valid(s) && ExecuteDefined(s, Jnz(addr), pc, cycles)
    ensures Execute(s, Jnz(addr), pc, cycles)
      == Step(Ok(if s.cpu.conditionFlag != 0 then addr else pc + cycles), s)
  {
  }

  /** `jmp addr` goes to `addr`; `call addr` goes to `addr` when its stores
      succeed; `ret` goes where `Return` says. */
  lemma ExecuteControl(s: State, i: Instruction, pc: Word, cycles: nat)
    requires Valid(s) && ExecuteDefined(s, i, pc, cycles)
    ensures i.Jmp? ==> Execute(s, i, pc, cycles) == Step(Ok(i.addr), s)
    ensures i.Call? && Execute(s, i, pc, cycles).result.Ok? ==> Execute(s, i, pc, cycles).result.value == i.addr
    ensures i.Ret? ==> Execute(s, i, pc, cycles) == Return(s)
  {
  }

  /** Every other implemented instruction, when it succeeds, answers
      `pc + cycles`. */
  lemma ExecuteSequential(s: State, i: Instruction, pc: Word, cycles: nat)
    requires Valid(s) && ExecuteDefined(s, i, pc, cycles)
    requires !i.Jnz? && !i.Jmp? && !i.Call? && !i.Ret?
    ensures Execute(s, i, pc, cycles).result.Ok? ==> Execute(s, i, pc, cycles).result.value == pc + cycles
  {
  }

  /** No instruction changes the ROM or the RAM's offset. */
  lemma ExecuteKeepsRom(s: State, i: Instruction, pc: Word, cycles: nat)
    requires Valid(s) && ExecuteDefined(s, i, pc, cycles)
    ensures Execute(s, i, pc, cycles).next.rom == s.rom
    ensures Execute(s, i, pc, cycles).next.ramOffset == s.ramOffset
  {
  }
}
