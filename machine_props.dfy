/** What `System::execute` and its helpers in `src/cpu_state.rs` promise:
    register-pair arithmetic, the stack discipline of push/pop and call/ret,
    the flags of the arithmetic and logic instructions, the rule that picks
    the next program counter and the cycles, and the worked examples of the
    8080 programmer's manual that the source checks. */
module MachineProps {
  import opened Bits
  import opened Wrappers
  import opened OpCode
  import opened Memory
  import opened Machine
  import Arith

  // ---------------------------------------------------------------- register pairs

  /** `lxi` loads the pair (or `SP`) with the word `hb * 256 + lb`. */
  lemma LoadPairValue(c: CpuView, rp: RegisterPair, lb: Byte, hb: Byte)
    ensures PairValue(LoadPair(c, rp, lb, hb), rp) == hb * 0x100 + lb
    ensures LoadPair(c, rp, lb, hb).pc == c.pc
  {
  }

  /** `inx` panics exactly on the pair value 0xffff and otherwise adds one. */
  lemma IncrementPairValue(c: CpuView, rp: RegisterPair)
    ensures IncrementDefined(c, rp) <==> PairValue(c, rp) < 0xffff
    ensures IncrementDefined(c, rp) ==> PairValue(IncrementPair(c, rp), rp) == PairValue(c, rp) + 1
  {
  }

  /** `dcx` subtracts one modulo 0x10000. */
  lemma DecrementPairValue(c: CpuView, rp: RegisterPair)
    requires rp == SP ==> c.sp > 0
    ensures PairValue(DecrementPair(c, rp), rp) == (PairValue(c, rp) + 0xffff) % 0x1_0000
  {
    if rp != SP {
      var (h, l) := Split(rp);
      var d := DecrementPair(c, rp);
      var hi: int, lo: int := Get(c, h), Get(c, l);
      assert GetPair(c, rp) == hi * 0x100 + lo;
      if lo == 0 {
        assert Get(d, l) == 0xff && Get(d, h) == Arith.WrappingSub(hi, 1);
        if hi == 0 {
          assert GetPair(d, rp) == 0xffff;
        } else {
          assert GetPair(d, rp) == (hi - 1) * 0x100 + 0xff;
        }
      } else {
        assert Get(d, l) == lo - 1 && Get(d, h) == hi;
        assert GetPair(d, rp) == hi * 0x100 + lo - 1;
      }
    }
  }

  /** `dcx` undoes `inx`. */
  lemma DecrementUndoesIncrement(c: CpuView, rp: RegisterPair)
    requires IncrementDefined(c, rp)
    ensures DecrementPair(IncrementPair(c, rp), rp) == c
  {
    if rp != SP {
      var c2 := DecrementPair(IncrementPair(c, rp), rp);
      assert c2.registers == c.registers;
    }
  }

  /** `dad`: HL becomes the 16-bit sum, Cy says whether it overflowed, and
      the other flags are kept. */
  lemma AddPairValue(c: CpuView, rp: RegisterPair, other: Arith.Flag)
    ensures GetPair(AddPair(c, rp), HL) == (PairValue(c, rp) + GetPair(c, HL)) % 0x1_0000
    ensures FlagOf(AddPair(c, rp), Arith.Cy) <==> PairValue(c, rp) + GetPair(c, HL) > 0xffff
    ensures other != Arith.Cy ==> FlagOf(AddPair(c, rp), other) == FlagOf(c, other)
  {
    var (val, cy) := Arith.AddU16(PairValue(c, rp), GetPair(c, HL));
    var d := AddPair(c, rp);
    SetPairWord(WithFlags(c, Arith.Toggle(Flags(c), Arith.Cy, cy)), val);
    assert Flags(d) == Arith.Toggle(Flags(c), Arith.Cy, cy);
    assert FlagOf(d, Arith.Cy) == cy by {
      Arith.ToggleIsSet(Flags(c), Arith.Cy, cy, Arith.Cy);
    }
    assert other != Arith.Cy ==> FlagOf(d, other) == FlagOf(c, other) by {
      Arith.ToggleIsSet(Flags(c), Arith.Cy, cy, other);
    }
  }

  /** Writing a word's high byte to H and low byte to L makes HL that word. */
  lemma SetPairWord(c: CpuView, val: Word)
    ensures GetPair(Set(Set(c, H, Arith.ToU8(val).0), L, Arith.ToU8(val).1), HL) == val
  {
    var d := Set(Set(c, H, Arith.ToU8(val).0), L, Arith.ToU8(val).1);
    assert Get(d, H) == Arith.ToU8(val).0 && Get(d, L) == Arith.ToU8(val).1;
    Arith.ToU16OfToU8(val);
  }

  /** `xchg` swaps the words in DE and HL, and doing it twice changes nothing. */
  lemma SwapDEHLSwaps(c: CpuView)
    ensures GetPair(SwapDEHL(c), DE) == GetPair(c, HL)
    ensures GetPair(SwapDEHL(c), HL) == GetPair(c, DE)
    ensures SwapDEHL(SwapDEHL(c)) == c
  {
    assert SwapDEHL(SwapDEHL(c)).registers == c.registers;
  }

  /** `Cpu::get_rp` of `PSW` is `Cpu::psw`: A is the high byte, F the low one. */
  lemma PswIsPair(c: CpuView)
    ensures PairValue(c, PSW) == Psw(c)
    ensures Psw(c) / 0x100 == Get(c, A) && Psw(c) % 0x100 == Flags(c)
  {
  }

  // ---------------------------------------------------------------- accumulator and flags

  /** `adi`: A is the sum modulo 256 and Cy says whether it passed 0xff. */
  lemma AddImmediateFlags(c: CpuView, b: Byte)
    ensures Get(BinImmediate(c, Arith.AddOp, b), A) == (Get(c, A) + b) % 0x100
    ensures FlagOf(BinImmediate(c, Arith.AddOp, b), Arith.Cy) <==> Get(c, A) + b > 0xff
    ensures FlagOf(BinImmediate(c, Arith.AddOp, b), Arith.Z) <==> (Get(c, A) + b) % 0x100 == 0
  {
    var (a, cy, ac) := Arith.Run(Arith.AddOp, Get(c, A), b);
    Arith.AddCarry(Get(c, A), b, false);
    Arith.UpdateFlagsWithCarriesBits(Flags(c), a, cy, ac);
  }

  /** `sui`: A is the difference modulo 256 and Cy is the borrow `A < b`. */
  lemma SubImmediateFlags(c: CpuView, b: Byte)
    ensures Get(BinImmediate(c, Arith.SubOp, b), A) == (Get(c, A) - b) % 0x100
    ensures FlagOf(BinImmediate(c, Arith.SubOp, b), Arith.Cy) <==> Get(c, A) < b
    ensures FlagOf(BinImmediate(c, Arith.SubOp, b), Arith.Z) <==> Get(c, A) == b
  {
    var (a, cy, ac) := Arith.Run(Arith.SubOp, Get(c, A), b);
    Arith.SubBorrow(Get(c, A), b, false);
    Arith.UpdateFlagsWithCarriesBits(Flags(c), a, cy, ac);
  }

  /** `cpi` keeps A and sets Z when A equals the operand, Cy when it is smaller. */
  lemma CompareFlags(c: CpuView, b: Byte)
    ensures Get(Compare(c, b), A) == Get(c, A)
    ensures FlagOf(Compare(c, b), Arith.Z) <==> Get(c, A) == b
    ensures FlagOf(Compare(c, b), Arith.Cy) <==> Get(c, A) < b
  {
    var a := Get(c, A);
    var (f, cy, ac) := Arith.Run(Arith.SubOp, a, b);
    var d := Compare(c, b);
    assert Get(d, A) == a && Flags(d) == Arith.UpdateFlagsWithCarries(Flags(c), f, cy, ac);
    Arith.SubBorrow(a, b, false);
    assert f == 0 <==> a == b by {
      if a >= b { assert f == a - b; } else { assert f == a - b + 0x100; }
    }
    Arith.UpdateFlagsWithCarriesBits(Flags(c), f, cy, ac);
  }

  /** `ani`, `ori`, `xri`: A is the bitwise result, Cy is cleared, AC kept. */
  lemma LogicImmediateFlags(c: CpuView, op: Arith.BitwiseOp, b: Byte)
    ensures Get(LogicImmediate(c, op, b), A) == Arith.RunBitwise(op, b, Get(c, A))
    ensures !FlagOf(LogicImmediate(c, op, b), Arith.Cy)
    ensures FlagOf(LogicImmediate(c, op, b), Arith.Ac) == FlagOf(c, Arith.Ac)
    ensures FlagOf(LogicImmediate(c, op, b), Arith.Z) <==> Arith.RunBitwise(op, b, Get(c, A)) == 0
  {
    Arith.UpdateFlagsWithCarryBits(Flags(c), Arith.RunBitwise(op, b, Get(c, A)));
  }

  /** `ana a` leaves A as it is and clears Cy (the usual way to clear the carry). */
  lemma AndSelf(c: CpuView)
    ensures Get(LogicImmediate(c, Arith.AndOp, Get(c, A)), A) == Get(c, A)
    ensures !FlagOf(LogicImmediate(c, Arith.AndOp, Get(c, A)), Arith.Cy)
  {
    var a := Get(c, A);
    forall k: nat ensures Bit(And(a, a), k) == Bit(a, k)
    {
      BitAndBits(a, a, 8, k);
    }
    BitsDetermine(And(a, a), a, 8);
    LogicImmediateFlags(c, Arith.AndOp, a);
  }

  // ---------------------------------------------------------------- stack discipline

  /** `push` puts the low byte at `sp - 2` and the high byte at `sp - 1`. */
  lemma PushStores(s: State, rp: RegisterPair)
    requires s.cpu.sp >= 2
    ensures var st := PushPair(s, rp);
      st.result.Ok? ==>
        && st.next.cpu == s.cpu.(sp := s.cpu.sp - 2)
        && RamGet(st.next.ram, s.cpu.sp - 2) == Ok(PairValue(s.cpu, rp) % 0x100)
        && RamGet(st.next.ram, s.cpu.sp - 1) == Ok(PairValue(s.cpu, rp) / 0x100)
  {
  }

  /** `pop` after `push` of the same pair gives back the whole CPU, `sp` included. */
  lemma PushThenPop(s: State, rp: RegisterPair)
    requires rp != SP && s.cpu.sp >= 2
    requires PushPair(s, rp).result.Ok?
    ensures StackReadable(PushPair(s, rp).next)
    ensures PopPair(PushPair(s, rp).next, rp) == Step(Ok(()), PushPair(s, rp).next.(cpu := s.cpu))
  {
    var s1 := PushPair(s, rp).next;
    PushStores(s, rp);
    var (h, l) := Split(rp);
    Arith.ToU8OfToU16(Get(s.cpu, l), Get(s.cpu, h));
    assert Set(Set(s1.cpu, l, Get(s.cpu, l)), h, Get(s.cpu, h)).(sp := s.cpu.sp).registers == s.cpu.registers;
  }

  /** `call` leaves the return address on the stack, low byte at the top. */
  lemma CallStores(s: State, addr: Word, pc: Word)
    requires CallDefined(s)
    ensures var st := CallAt(s, addr, pc);
      st.result.Ok? ==>
        && s.cpu.sp >= 2
        && st.next.cpu == s.cpu.(sp := s.cpu.sp - 2)
        && RamGet(st.next.ram, s.cpu.sp - 2) == Ok(pc % 0x100)
        && RamGet(st.next.ram, s.cpu.sp - 1) == Ok(pc / 0x100)
  {
  }

  /** `ret` after `call(addr, pc)` yields `pc` and restores `sp` (and the whole CPU). */
  lemma CallThenReturn(s: State, addr: Word, pc: Word)
    requires CallDefined(s)
    requires CallAt(s, addr, pc).result.Ok?
    ensures StackReadable(CallAt(s, addr, pc).next)
    ensures Return(CallAt(s, addr, pc).next) == Step(Ok(pc), CallAt(s, addr, pc).next.(cpu := s.cpu))
  {
    CallStores(s, addr, pc);
  }

  // ---------------------------------------------------------------- increments, loads and stores

  /** The flags `inr` and `dcr` leave: the byte is one more (one less) modulo
      256, S, Z and P follow it, AC comes from the low nibble, Cy is kept. */
  lemma IncDecFlags(f: Byte, op: Arith.BinaryOp, v: Byte)
    ensures var (w, _, ac) := Arith.Run(op, v, 1);
      var g := Arith.UpdateFlagsWithAc(f, w, ac);
      && w == (if op == Arith.AddOp then (v + 1) % 0x100 else (v - 1) % 0x100)
      && (Arith.IsSet(g, Arith.S) <==> w >= 0x80)
      && (Arith.IsSet(g, Arith.Z) <==> w == 0)
      && (Arith.IsSet(g, Arith.P) <==> CountOnes(w) % 2 == 0)
      && Arith.IsSet(g, Arith.Cy) == Arith.IsSet(f, Arith.Cy)
      && (Arith.IsSet(g, Arith.Ac) <==> if op == Arith.AddOp then v % 0x10 == 0x0f else v % 0x10 > 1)
  {
    var (w, _, ac) := Arith.Run(op, v, 1);
    var u := Arith.UpdateFlags(f, w);
    Arith.UpdateFlagsBits(f, w);
    Arith.ToggleIsSet(u, Arith.Ac, ac, Arith.S);
    Arith.ToggleIsSet(u, Arith.Ac, ac, Arith.Z);
    Arith.ToggleIsSet(u, Arith.Ac, ac, Arith.P);
    Arith.ToggleIsSet(u, Arith.Ac, ac, Arith.Cy);
    Arith.ToggleIsSet(u, Arith.Ac, ac, Arith.Ac);
  }

  /** `inr r` and `dcr r` on a register: the register steps by one modulo
      256, the flags byte becomes the one `IncDecFlags` describes, and the
      memory and every other register are kept. */
  lemma IncDecRegister(s: State, op: Arith.BinaryOp, r: Register)
    requires r != M && r != F
    ensures var st := IncDec(s, op, r);
      var v: int := Get(s.cpu, r);
      var w := if op == Arith.AddOp then (v + 1) % 0x100 else (v - 1) % 0x100;
      && st.result.Ok? && st.next.ram == s.ram
      && Get(st.next.cpu, r) == w
      && Flags(st.next.cpu) == Arith.UpdateFlagsWithAc(Flags(s.cpu), w, Arith.Run(op, Get(s.cpu, r), 1).2)
      && st.next.cpu.sp == s.cpu.sp && st.next.cpu.pc == s.cpu.pc
      && (forall q | q != r && q != F && q != M :: Get(st.next.cpu, q) == Get(s.cpu, q))
  {
    var v := Get(s.cpu, r);
    var (w, _, ac) := Arith.Run(op, v, 1);
    var d := IncDec(s, op, r).next.cpu;
    IncDecRegisterCpu(s, op, r);
    IncDecFlags(Flags(s.cpu), op, v);
    assert Get(d, r) == w;
    forall q | q != r && q != F && q != M
      ensures Get(d, q) == Get(s.cpu, q)
    {
      assert Index(q) != Index(r) && Index(q) != Index(F);
    }
  }

  /** The CPU `inr r` and `dcr r` leave: the register, then the flags, written. */
  lemma IncDecRegisterCpu(s: State, op: Arith.BinaryOp, r: Register)
    requires r != M && r != F
    ensures var (w, _, ac) := Arith.Run(op, Get(s.cpu, r), 1);
      IncDec(s, op, r) == Step(Ok(()), s.(cpu := WithFlags(Set(s.cpu, r, w), Arith.UpdateFlagsWithAc(Flags(s.cpu), w, ac))))
  {
    var (w, _, ac) := Arith.Run(op, Get(s.cpu, r), 1);
    assert Flags(Set(s.cpu, r, w)) == Flags(s.cpu);
  }

  /** `inr m` and `dcr m`: the byte at HL steps by one modulo 256 when it is
      writable, with the flags of `IncDecFlags` and no other byte or register
      changed; otherwise the error of `get_mut` and nothing changes. */
  lemma IncDecMemory(s: State, op: Arith.BinaryOp)
    ensures var st := IncDec(s, op, M);
      var hl := GetPair(s.cpu, HL);
      && (st.result.Err? <==> RamGetMut(s.ram, hl).Err?)
      && (RamGetMut(s.ram, hl).Err? ==> st == Step(Err(RamGetMut(s.ram, hl).error), s))
      && (RamGetMut(s.ram, hl).Ok? ==>
            var v: int := s.ram.mem[hl];
            var w := if op == Arith.AddOp then (v + 1) % 0x100 else (v - 1) % 0x100;
            && RamGet(st.next.ram, hl) == Ok(w)
            && (forall a | 0 <= a < |s.ram.mem| && a != hl :: st.next.ram.mem[a] == s.ram.mem[a])
            && (FlagOf(st.next.cpu, Arith.Z) <==> w == 0)
            && FlagOf(st.next.cpu, Arith.Cy) == FlagOf(s.cpu, Arith.Cy)
            && st.next.cpu == WithFlags(s.cpu, Flags(st.next.cpu)))
  {
    var hl := GetPair(s.cpu, HL);
    if RamGetMut(s.ram, hl).Ok? {
      IncDecFlags(Flags(s.cpu), op, s.ram.mem[hl]);
    }
  }

  /** `mov dst, src`: the destination reads what the source read before;
      a register destination changes no other register and no memory, the
      destination `M` no register and no other byte. A failing read or a
      protected destination byte is an error that changes nothing. */
  lemma MoveCopies(s: State, dst: Register, src: Register)
    ensures var st := Move(s, dst, src);
      && (st.result.Err? <==> Load(s, src).Err? || (dst == M && RamGetMut(s.ram, GetPair(s.cpu, HL)).Err?))
      && (st.result.Err? ==> st.next == s)
      && (st.result.Ok? ==> Load(st.next, dst) == Load(s, src))
      && (st.result.Ok? && dst != M ==>
            && st.next.ram == s.ram && st.next.cpu.sp == s.cpu.sp && st.next.cpu.pc == s.cpu.pc
            && forall q | q != dst && q != M :: Get(st.next.cpu, q) == Get(s.cpu, q))
      && (st.result.Ok? && dst == M ==>
            && st.next.cpu == s.cpu
            && forall a | 0 <= a < |s.ram.mem| && a != GetPair(s.cpu, HL) :: st.next.ram.mem[a] == s.ram.mem[a])
  {
  }

  /** `lda` and `ldax`: A takes the byte at the address, or the read fails
      with `OutOfBoundRead` and nothing changes; only A is written. */
  lemma LoadAccLoads(s: State, addr: Word)
    ensures var st := LoadAcc(s, addr);
      && (st.result.Ok? <==> addr < |s.ram.mem|)
      && (st.result.Err? ==> st.result.error == OutOfBoundRead(addr) && st.next == s)
      && (st.result.Ok? ==>
            && Get(st.next.cpu, A) == s.ram.mem[addr]
            && st.next.cpu.sp == s.cpu.sp && st.next.cpu.pc == s.cpu.pc
            && forall q | q != A && q != M :: Get(st.next.cpu, q) == Get(s.cpu, q))
  {
  }

  /** `lhld`: L takes the byte at `addr` and H the byte after it; the read
      fails (changing nothing) exactly when the second byte lies past the
      memory. */
  lemma LoadHLLoads(s: State, addr: Word)
    requires TwoBytesReadable(s, addr)
    ensures var st := LoadHL(s, addr);
      && (st.result.Ok? <==> addr + 1 < |s.ram.mem|)
      && (st.result.Err? ==> st.next == s)
      && (st.result.Ok? ==>
            && GetPair(st.next.cpu, HL) == Arith.ToU16(s.ram.mem[addr], s.ram.mem[addr + 1])
            && st.next.cpu.sp == s.cpu.sp && st.next.cpu.pc == s.cpu.pc
            && forall q | q != H && q != L && q != M :: Get(st.next.cpu, q) == Get(s.cpu, q))
  {
  }

  /** `shld`: L goes to `addr` and H to the byte after it; the CPU is kept. */
  lemma StoreHLStores(s: State, addr: Word)
    requires StoreHLDefined(s, addr)
    ensures var st := StoreHL(s, addr);
      && st.next.cpu == s.cpu
      && (st.result.Ok? ==>
            && addr < 0xffff
            && RamGet(st.next.ram, addr) == Ok(Get(s.cpu, L))
            && RamGet(st.next.ram, addr + 1) == Ok(Get(s.cpu, H)))
  {
  }

  /** `lhld` at the address of a successful `shld` gives back HL, so it
      changes nothing. */
  lemma StoreThenLoadHL(s: State, addr: Word)
    requires StoreHLDefined(s, addr)
    requires StoreHL(s, addr).result.Ok?
    ensures TwoBytesReadable(StoreHL(s, addr).next, addr)
    ensures LoadHL(StoreHL(s, addr).next, addr) == Step(Ok(()), StoreHL(s, addr).next)
  {
    var s1 := StoreHL(s, addr).next;
    StoreHLStores(s, addr);
    assert Set(Set(s1.cpu, L, Get(s.cpu, L)), H, Get(s.cpu, H)).registers == s1.cpu.registers;
  }

  /** `xthl`: when it succeeds, the word at `sp` and HL trade places and
      nothing else changes. */
  lemma SwapStackHLSwaps(s: State)
    requires TwoBytesReadable(s, s.cpu.sp)
    ensures var st := SwapStackHL(s);
      var sp := s.cpu.sp;
      st.result.Ok? ==>
        && sp + 1 < |s.ram.mem|
        && RamGet(st.next.ram, sp) == Ok(Get(s.cpu, L))
        && RamGet(st.next.ram, sp + 1) == Ok(Get(s.cpu, H))
        && (forall a | 0 <= a < |s.ram.mem| && a != sp && a != sp + 1 :: st.next.ram.mem[a] == s.ram.mem[a])
        && st.next.cpu == Set(Set(s.cpu, L, s.ram.mem[sp]), H, s.ram.mem[sp + 1])
  {
  }

  /** Two `xthl` in a row give back the machine. */
  lemma SwapStackHLTwice(s: State)
    requires TwoBytesReadable(s, s.cpu.sp)
    requires SwapStackHL(s).result.Ok?
    ensures TwoBytesReadable(SwapStackHL(s).next, s.cpu.sp)
    ensures SwapStackHL(SwapStackHL(s).next) == Step(Ok(()), s)
  {
    var s1 := SwapStackHL(s).next;
    var sp := s.cpu.sp;
    SwapStackHLSwaps(s);
    assert s1.cpu.sp == sp;
    SwapStackHLSwaps(s1);
    var s2 := SwapStackHL(s1).next;
    assert s2.ram.mem == s.ram.mem;
    assert s2.cpu.registers == s.cpu.registers;
  }

  // ---------------------------------------------------------------- execute

  /** The arm of an instruction that does not choose the next program counter
      answers with the address after the instruction and its cycles. */
  lemma SequentialArm(s: State, i: Instruction, pc: Word, n: nat, io: Byte -> Byte)
    requires ArmDefined(s, i) && !IsControl(i)
    ensures Arm(s, i, pc, n, io).result.Ok? ==> Arm(s, i, pc, n, io).result.value == (pc, n)
  {
  }

  /** `execute` of an instruction that is not a jump, call, return, `rst`, `pchl`
      or `hlt` moves the program counter past it and returns its cycles. */
  lemma ExecuteSequential(s: State, i: Instruction, io: Byte -> Byte)
    requires ExecuteDefined(s, i) && !IsControl(i) && !i.Hlt?
    ensures var e := Execute(s, i, io);
      e.result.Ok? ==> e.result.value == Some(Cycles(i)) && e.next.cpu.pc == s.cpu.pc + Size(i)
  {
    SequentialArm(s, i, Next(s, i), Cycles(i), io);
  }

  /** `hlt` stops with `None` and changes nothing, the program counter included. */
  lemma ExecuteHalt(s: State, io: Byte -> Byte)
    requires ExecuteDefined(s, Hlt)
    ensures Execute(s, Hlt, io) == Effect(Ok(None), s, None)
  {
  }

  /** No instruction changes the memory's size, its ROM ranges or (when
      write-protected) a ROM byte. */
  lemma ExecuteKeepsRom(s: State, i: Instruction, io: Byte -> Byte)
    requires ExecuteDefined(s, i)
    ensures Kept(s, Execute(s, i, io).next)
  {
  }

  /** `jmp` goes to its address and changes nothing else. */
  lemma ExecuteJump(s: State, addr: Word, io: Byte -> Byte)
    requires ExecuteDefined(s, Jmp(addr))
    ensures Execute(s, Jmp(addr), io) == Effect(Ok(Some(10)), s.(cpu := s.cpu.(pc := addr)), None)
  {
  }

  /** The arm of a conditional jump answers with its address when the flag
      test holds and with the address after it otherwise; the state is kept. */
  lemma ArmConditionalJump(s: State, i: Instruction, pc: Word, n: nat, io: Byte -> Byte)
    requires IsConditionalJump(i) && ArmDefined(s, i)
    ensures Arm(s, i, pc, n, io) == Step(Ok((JumpIf(i.addr, pc, Condition(s.cpu, i)), n)), s)
  {
  }

  /** `jnz` jumps exactly when Z is clear. */
  lemma ExecuteJumpIfNotZero(s: State, addr: Word, io: Byte -> Byte)
    requires ExecuteDefined(s, Jnz(addr))
    ensures Execute(s, Jnz(addr), io).next.cpu.pc == if !FlagOf(s.cpu, Arith.Z) then addr else s.cpu.pc + 3
  {
  }

  /** A conditional call needs a usable stack only when its test holds, and
      its arm is `call_test` with the instruction's condition. */
  lemma ArmConditionalCall(s: State, i: Instruction, pc: Word, n: nat, io: Byte -> Byte)
    requires IsConditionalCall(i) && ArmDefined(s, i)
    ensures Condition(s.cpu, i) ==> CallDefined(s)
    ensures Arm(s, i, pc, n, io) == CallIf(s, i.addr, pc, Condition(s.cpu, i))
  {
    if i.Cz? || i.Cnz? || i.Cm? || i.Cp? {
    } else {
    }
  }

  /** `call_test`: a call not taken costs 0 cycles and goes on at `pc`; a
      taken one costs 5, goes to its address and pushes `pc`. */
  lemma CallIfCycles(s: State, addr: Word, pc: Word, test: bool)
    requires test ==> CallDefined(s)
    ensures !test ==> CallIf(s, addr, pc, test) == Step(Ok((pc, 0)), s)
    ensures var st := CallIf(s, addr, pc, test);
      test && st.result.Ok? ==>
        && st.result.value == (addr, 5)
        && s.cpu.sp >= 2
        && st.next.cpu == s.cpu.(sp := s.cpu.sp - 2)
        && RamGet(st.next.ram, s.cpu.sp - 2) == Ok(pc % 0x100)
        && RamGet(st.next.ram, s.cpu.sp - 1) == Ok(pc / 0x100)
  {
    if test {
      CallStores(s, addr, pc);
    }
  }

  /** A conditional return needs a readable stack only when its test holds,
      and its arm is `ret_test` with the instruction's condition. */
  lemma ArmConditionalReturn(s: State, i: Instruction, pc: Word, n: nat, io: Byte -> Byte)
    requires IsConditionalReturn(i) && ArmDefined(s, i)
    ensures Condition(s.cpu, i) ==> StackReadable(s)
    ensures Arm(s, i, pc, n, io) == ReturnIf(s, pc, Condition(s.cpu, i))
  {
    if i.Rz? || i.Rnz? || i.Rm? || i.Rp? {
    } else {
    }
  }

  /** `ret_test`: a return not taken costs 0 cycles and goes on at `pc`; a
      taken one costs 5 and does what `ret` does. */
  lemma ReturnIfCycles(s: State, pc: Word, test: bool)
    requires test ==> StackReadable(s)
    ensures !test ==> ReturnIf(s, pc, test) == Step(Ok((pc, 0)), s)
    ensures var st := ReturnIf(s, pc, test);
      test && st.result.Ok? ==>
        && Return(s).result.Ok?
        && st == Step(Ok((Return(s).result.value, 5)), Return(s).next)
  {
  }

  /** `ret` goes to the address read from the stack, which moves up by two. */
  lemma ExecuteReturn(s: State, io: Byte -> Byte)
    requires ExecuteDefined(s, Ret)
    ensures var e := Execute(s, Ret, io);
      e.result.Ok? ==>
        && e.result.value == Some(10)
        && s.cpu.sp + 1 < |s.ram.mem|
        && e.next == s.(cpu := s.cpu.(sp := s.cpu.sp + 2, pc := Arith.ToU16(s.ram.mem[s.cpu.sp], s.ram.mem[s.cpu.sp + 1])))
  {
  }

  /** `call` goes to its address and pushes the address after itself. */
  lemma ArmCall(s: State, addr: Word, pc: Word, n: nat, io: Byte -> Byte)
    requires ArmDefined(s, Call(addr))
    ensures var st := Arm(s, Call(addr), pc, n, io);
      st.result.Ok? ==>
        && st.result.value == (addr, n)
        && s.cpu.sp >= 2
        && st.next.cpu == s.cpu.(sp := s.cpu.sp - 2)
        && RamGet(st.next.ram, s.cpu.sp - 2) == Ok(pc % 0x100)
        && RamGet(st.next.ram, s.cpu.sp - 1) == Ok(pc / 0x100)
  {
    CallStores(s, addr, pc);
  }

  /** `rst v` calls address `8 * v`, pushing the address after itself. */
  lemma ArmRestart(s: State, v: Byte, pc: Word, n: nat, io: Byte -> Byte)
    requires ArmDefined(s, Rst(v))
    ensures var st := Arm(s, Rst(v), pc, n, io);
      st.result.Ok? ==>
        && st.result.value == (8 * v, n)
        && s.cpu.sp >= 2
        && st.next.cpu == s.cpu.(sp := s.cpu.sp - 2)
        && RamGet(st.next.ram, s.cpu.sp - 2) == Ok(pc % 0x100)
        && RamGet(st.next.ram, s.cpu.sp - 1) == Ok(pc / 0x100)
  {
    CallStores(s, 8 * v, pc);
  }

  /** `out` hands A to the port handler and changes nothing but the program counter. */
  lemma ExecuteOut(s: State, port: Byte, io: Byte -> Byte)
    requires ExecuteDefined(s, Out(port))
    ensures Execute(s, Out(port), io) == Effect(Ok(Some(10)), s.(cpu := s.cpu.(pc := s.cpu.pc + 2)), Some((port, Get(s.cpu, A))))
  {
  }

  /** `in` loads A from the port handler. */
  lemma ExecuteIn(s: State, port: Byte, io: Byte -> Byte)
    requires ExecuteDefined(s, In(port))
    ensures Execute(s, In(port), io) == Effect(Ok(Some(10)), s.(cpu := Set(s.cpu, A, io(port)).(pc := s.cpu.pc + 2)), None)
  {
  }

  /** With interrupts disabled `process` reports 0 cycles and changes nothing. */
  lemma ProcessDisabled(s: State, i: Instruction, io: Byte -> Byte)
    requires !s.cpu.inte
    ensures ProcessDefined(s, i)
    ensures Process(s, i, io) == Effect(Ok(Some(0)), s, None)
  {
  }

  /** With interrupts enabled `process` executes the instruction as if it
      started `size` bytes before the program counter, so one that does not
      jump leaves the program counter where it was. */
  lemma ProcessEnabled(s: State, i: Instruction, io: Byte -> Byte)
    requires s.cpu.inte && s.cpu.pc >= Size(i) && !IsControl(i) && !i.Hlt?
    requires ExecuteDefined(Rewound(s, i), i)
    ensures ProcessDefined(s, i)
    ensures Process(s, i, io).result.Ok? ==> Process(s, i, io).next.cpu.pc == s.cpu.pc
  {
    ExecuteSequential(Rewound(s, i), i, io);
  }

  // ---------------------------------------------------------------- worked examples

  /** The CPU of the source's tests after `lxi sp, 0xff00` at address 0. */
  function TestCpu(): CpuView
  {
    NewCpu(0).(sp := 0xff00, pc := 3)
  }

  /** The tests' machine: 0x1000 bytes of RAM without ROM, reset, then
      `lxi sp, 0xff00`. */
  lemma TestSystem(io: Byte -> Byte)
    ensures var s0 := State(NewCpu(0), NewRam(0x1000, false));
      && ExecuteDefined(s0, Lxi(SP, 0, 0xff))
      && Execute(s0, Lxi(SP, 0, 0xff), io) == Effect(Ok(Some(10)), State(TestCpu(), NewRam(0x1000, false)), None)
  {
  }

  /** `mvi r, v` on a register sets it and moves past the instruction. */
  lemma ExecuteMoveImmediate(s: State, r: Register, v: Byte, io: Byte -> Byte)
    requires r != M && ExecuteDefined(s, Mvi(r, v))
    ensures Execute(s, Mvi(r, v), io) == Effect(Ok(Some(7)), s.(cpu := Set(s.cpu, r, v).(pc := s.cpu.pc + 2)), None)
  {
  }

  /** Page 13 of the programmer's manual: 197 - 98 = 99 with Cy clear, and
      12 - 15 = -3 with Cy set. */
  lemma SubtractPage13(io: Byte -> Byte)
    ensures var c := BinImmediate(Set(TestCpu(), A, 197), Arith.SubOp, 98);
      Get(c, A) == 99 && !FlagOf(c, Arith.Cy)
    ensures var c := BinImmediate(Set(TestCpu(), A, 12), Arith.SubOp, 15);
      Get(c, A) == 0x100 - 3 && FlagOf(c, Arith.Cy)
  {
    SubImmediateFlags(Set(TestCpu(), A, 197), 98);
    SubImmediateFlags(Set(TestCpu(), A, 12), 15);
  }
}
