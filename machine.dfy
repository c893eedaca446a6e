/** The CPU of `src/cpu_state.rs` and the effect of `System::execute` and
    `System::process` on a whole machine, as values. Every instruction helper
    of `System` is a function from the machine before to a `Step`: the result
    the helper returns and the machine after it, including the partial effect
    left behind when a later memory access fails (`?` returns early without
    undoing earlier writes). Where the source panics (`RegisterPair::split`
    on `SP`, an overflowing `u16` in debug builds) the function requires the
    inputs that do not panic. The classes of `CpuState` are proved against
    these functions. */
module Machine {
  import opened Bits
  import opened Wrappers
  import opened OpCode
  import opened Memory
  import Arith

  /** The eight registers `A, F, B, C, D, E, H, L` in slot order. */
  type Registers = r: seq<Byte> | |r| == 8 witness [0, 0, 0, 0, 0, 0, 0, 0]

  /** The contents of a `Cpu`. */
  datatype CpuView = CpuView(registers: Registers, sp: Word, pc: Word, inte: bool)

  /** The contents of a `System`. */
  datatype State = State(cpu: CpuView, ram: RamView)

  /** The result of a helper and the machine it leaves behind. */
  datatype Step<T> = Step(result: Result<T, MemoryError>, next: State)

  /** The result of `execute`: the cycles (`None` after `Hlt`), the machine
      after, and the `(port, value)` handed to `InOut::write` by `Out`. */
  datatype Effect = Effect(result: Result<Option<nat>, MemoryError>, next: State,
                           written: Option<(Byte, Byte)>)

  // ---------------------------------------------------------------- Cpu

  /** `Cpu::new`: registers cleared, the stack at 0xf000, interrupts disabled. */
  function NewCpu(pc: Word): CpuView
  {
    CpuView([0, 0, 0, 0, 0, 0, 0, 0], 0xf000, pc, false)
  }

  /** `Cpu::get`. */
  function Get(c: CpuView, r: Register): Byte
    requires r != M
  {
    c.registers[Index(r)]
  }

  /** `*Cpu::get_mut(r) = v`. */
  function Set(c: CpuView, r: Register, v: Byte): CpuView
    requires r != M
  {
    c.(registers := c.registers[Index(r) := v])
  }

  /** `Cpu::flags`. */
  function Flags(c: CpuView): Byte
  {
    Get(c, F)
  }

  /** `*Cpu::flags_mut() = f`. */
  function WithFlags(c: CpuView, f: Byte): CpuView
  {
    Set(c, F, f)
  }

  /** `Cpu::z`, `s`, `p`, `cy`, `ac`. */
  function FlagOf(c: CpuView, flag: Arith.Flag): bool
  {
    Arith.IsSet(Flags(c), flag)
  }

  /** `Cpu::get_rp`: the high register of the pair shifted left 8, or-ed with the low one. */
  function GetPair(c: CpuView, rp: RegisterPair): Word
    requires rp != SP
  {
    var (h, l) := Split(rp);
    Arith.ToU16(Get(c, l), Get(c, h))
  }

  /** `Cpu::psw`. */
  function Psw(c: CpuView): Word
  {
    Arith.ToU16(Flags(c), Get(c, A))
  }

  /** `System::get_rp`: `SP` reads the stack pointer, the other pairs their registers. */
  function PairValue(c: CpuView, rp: RegisterPair): Word
  {
    if rp == SP then c.sp else GetPair(c, rp)
  }

  /** A and F replaced. */
  function WithAccFlags(c: CpuView, a: Byte, f: Byte): CpuView
  {
    Set(WithFlags(c, f), A, a)
  }

  // ---------------------------------------------------------------- register-only helpers

  /** `bin_i`: A and the flags from `O::run(a, byte)`. */
  function BinImmediate(c: CpuView, op: Arith.BinaryOp, byte: Byte): CpuView
  {
    var (a, cy, ac) := Arith.Run(op, Get(c, A), byte);
    WithAccFlags(c, a, Arith.UpdateFlagsWithCarries(Flags(c), a, cy, ac))
  }

  /** `bin_i_cy`: as `bin_i`, with Cy as carry-in. */
  function BinImmediateCarry(c: CpuView, op: Arith.BinaryOp, byte: Byte): CpuView
  {
    var (a, cy, ac) := Arith.RunWithCarry(op, Get(c, A), byte, FlagOf(c, Arith.Cy));
    WithAccFlags(c, a, Arith.UpdateFlagsWithCarries(Flags(c), a, cy, ac))
  }

  /** `op_i`: A from the bitwise operator, the flags with Cy cleared. */
  function LogicImmediate(c: CpuView, op: Arith.BitwiseOp, byte: Byte): CpuView
  {
    var a := Arith.RunBitwise(op, byte, Get(c, A));
    WithAccFlags(c, a, Arith.UpdateFlagsWithCarry(Flags(c), a, false))
  }

  /** `cpi`: the flags of `A - byte`; A is kept. */
  function Compare(c: CpuView, byte: Byte): CpuView
  {
    var (f, cy, ac) := Arith.Run(Arith.SubOp, Get(c, A), byte);
    WithFlags(c, Arith.UpdateFlagsWithCarries(Flags(c), f, cy, ac))
  }

  /** `inx` on a pair panics when its high register overflows, on `SP` at 0xffff. */
  predicate IncrementDefined(c: CpuView, rp: RegisterPair)
  {
    if rp == SP then c.sp < 0xffff
    else !(Get(c, Split(rp).1) == 0xff && Get(c, Split(rp).0) == 0xff)
  }

  /** `inx`: the low register wraps to 0 and carries into the high one. */
  function IncrementPair(c: CpuView, rp: RegisterPair): CpuView
    requires IncrementDefined(c, rp)
  {
    if rp == SP then c.(sp := c.sp + 1)
    else
      var (h, l) := Split(rp);
      if Get(c, l) == 0xff then Set(Set(c, l, 0), h, Get(c, h) + 1)
      else Set(c, l, Get(c, l) + 1)
  }

  /** `dcx`: the low register wraps to 0xff and borrows from the high one,
      which wraps; `SP` panics at 0. */
  function DecrementPair(c: CpuView, rp: RegisterPair): CpuView
    requires rp == SP ==> c.sp > 0
  {
    if rp == SP then c.(sp := c.sp - 1)
    else
      var (h, l) := Split(rp);
      if Get(c, l) == 0 then Set(Set(c, l, 0xff), h, Arith.WrappingSub(Get(c, h), 1))
      else Set(c, l, Get(c, l) - 1)
  }

  /** `dad`: HL plus the pair, Cy from the 16-bit carry. */
  function AddPair(c: CpuView, rp: RegisterPair): CpuView
  {
    var (val, cy) := Arith.AddU16(PairValue(c, rp), GetPair(c, HL));
    var (h, l) := Arith.ToU8(val);
    Set(Set(WithFlags(c, Arith.Toggle(Flags(c), Arith.Cy, cy)), H, h), L, l)
  }

  /** `lxi`: `SP` from the two bytes, or high := `hb`, low := `lb`. */
  function LoadPair(c: CpuView, rp: RegisterPair, lb: Byte, hb: Byte): CpuView
  {
    if rp == SP then c.(sp := Arith.ToU16(lb, hb))
    else
      var (h, l) := Split(rp);
      Set(Set(c, h, hb), l, lb)
  }

  /** `xchg`: DE and HL swap. */
  function SwapDEHL(c: CpuView): CpuView
  {
    var d, e := Get(c, D), Get(c, E);
    Set(Set(Set(Set(c, D, Get(c, H)), E, Get(c, L)), H, d), L, e)
  }

  /** `pchl`: `(H << 8) + L`. */
  function HLToPC(c: CpuView): Word
  {
    Get(c, H) * 0x100 + Get(c, L)
  }

  /** The instructions that touch neither memory nor the program counter. */
  predicate RegisterOnly(i: Instruction)
  {
    i.Nop? || i.Out? || i.Cma? || i.Cpi? || i.Inx? || i.Dcx? || i.Dad? || i.Lxi? || i.Xchg?
    || i.Ani? || i.Ori? || i.Xri? || i.In? || i.Adi? || i.Sui? || i.Aci? || i.Sbi? || i.Stc?
    || i.Cmc? || i.Daa? || i.Rlc? || i.Rrc? || i.Ral? || i.Rar? || i.Sphl? || i.Ei? || i.Di?
  }

  /** The arms of `execute` for the register-only instructions; `In` reads
      the port through `io`. */
  function Compute(c: CpuView, i: Instruction, io: Byte -> Byte): CpuView
    requires i.Inx? ==> IncrementDefined(c, i.pair)
    requires i.Dcx? && i.pair == SP ==> c.sp > 0
  {
    if i.Cma? then Set(c, A, Arith.Complement(Get(c, A)))
    else if i.Cpi? then Compare(c, i.byte)
    else if i.Inx? then IncrementPair(c, i.pair)
    else if i.Dcx? then DecrementPair(c, i.pair)
    else if i.Dad? then AddPair(c, i.pair)
    else if i.Lxi? then LoadPair(c, i.pair, i.low, i.high)
    else if i.Xchg? then SwapDEHL(c)
    else if i.Ani? then LogicImmediate(c, Arith.AndOp, i.byte)
    else if i.Ori? then LogicImmediate(c, Arith.OrOp, i.byte)
    else if i.Xri? then LogicImmediate(c, Arith.XorOp, i.byte)
    else if i.In? then Set(c, A, io(i.byte))
    else if i.Adi? then BinImmediate(c, Arith.AddOp, i.byte)
    else if i.Sui? then BinImmediate(c, Arith.SubOp, i.byte)
    else if i.Aci? then BinImmediateCarry(c, Arith.AddOp, i.byte)
    else if i.Sbi? then BinImmediateCarry(c, Arith.SubOp, i.byte)
    else if i.Stc? then WithFlags(c, Arith.SetFlag(Flags(c), Arith.Cy))
    else if i.Cmc? then WithFlags(c, Arith.Toggle(Flags(c), Arith.Cy, !FlagOf(c, Arith.Cy)))
    else if i.Daa? then var (a, f) := Arith.Daa(Get(c, A), Flags(c)); WithAccFlags(c, a, f)
    else if i.Rlc? then var (a, f) := Arith.Rlc(Get(c, A), Flags(c)); WithAccFlags(c, a, f)
    else if i.Rrc? then var (a, f) := Arith.Rrc(Get(c, A), Flags(c)); WithAccFlags(c, a, f)
    else if i.Ral? then var (a, f) := Arith.Ral(Get(c, A), Flags(c)); WithAccFlags(c, a, f)
    else if i.Rar? then var (a, f) := Arith.Rar(Get(c, A), Flags(c)); WithAccFlags(c, a, f)
    else if i.Sphl? then c.(sp := GetPair(c, HL))
    else if i.Ei? then c.(inte := true)
    else if i.Di? then c.(inte := false)
    else c  // Nop, Out and the instructions of the other arms
  }

  // ---------------------------------------------------------------- memory helpers

  /** The machine keeps its size, ROM ranges and ROM bytes. */
  predicate Kept(s0: State, s1: State)
  {
    RomKept(s0.ram, s1.ram)
  }

  /** `*self.ram.get_mut(addr)? = v`. */
  function StoreByte(s: State, addr: Word, v: Byte): (r: Step<()>)
    ensures Kept(s, r.next)
    ensures r.result.Err? ==> r.next == s
    ensures r.result.Ok? ==> r.next.cpu == s.cpu && RamGet(r.next.ram, addr) == Ok(v)
  {
    match RamStore(s.ram, addr, v)
    case Err(e) => Step(Err(e), s)
    case Ok(ram) => Step(Ok(()), s.(ram := ram))
  }

  /** `System::get` (and `System::read`): `M` reads the byte addressed by HL. */
  function Load(s: State, r: Register): Result<Byte, MemoryError>
  {
    if r == M then RamGet(s.ram, GetPair(s.cpu, HL)) else Ok(Get(s.cpu, r))
  }

  /** `*System::write(r)? = v` (and `System::get_mut`): `M` writes the byte addressed by HL. */
  function Store(s: State, r: Register, v: Byte): (st: Step<()>)
    ensures Kept(s, st.next)
  {
    if r == M then StoreByte(s, GetPair(s.cpu, HL), v)
    else Step(Ok(()), s.(cpu := Set(s.cpu, r, v)))
  }

  /** `push`: low byte at `sp - 2`, high byte at `sp - 1`, then `sp -= 2`. */
  function PushPair(s: State, rp: RegisterPair): (st: Step<()>)
    requires s.cpu.sp >= 2
    ensures Kept(s, st.next)
  {
    var (h, l) := Arith.ToU8(PairValue(s.cpu, rp));
    var s1 := StoreByte(s, s.cpu.sp - 2, l);
    if s1.result.Err? then s1
    else
      var s2 := StoreByte(s1.next, s.cpu.sp - 1, h);
      if s2.result.Err? then s2
      else Step(Ok(()), s2.next.(cpu := s2.next.cpu.(sp := s.cpu.sp - 2)))
  }

  /** Reading two bytes at `addr` and `addr + 1` panics when `addr + 1` overflows. */
  predicate TwoBytesReadable(s: State, addr: Word)
  {
    !(addr == 0xffff && |s.ram.mem| > 0xffff)
  }

  /** `pop` and `ret` panic on the `u16` overflow of `sp + 1` or `sp += 2`. */
  predicate StackReadable(s: State)
  {
    !(s.cpu.sp >= 0xfffe && |s.ram.mem| > 0xffff)
  }

  /** `pop`: low register from `sp`, high register from `sp + 1`, then `sp += 2`. */
  function PopPair(s: State, rp: RegisterPair): (st: Step<()>)
    requires rp != SP && StackReadable(s)
    ensures st.next.ram == s.ram
  {
    var (h, l) := Split(rp);
    match RamGet(s.ram, s.cpu.sp)
    case Err(e) => Step(Err(e), s)
    case Ok(lv) =>
      var c1 := Set(s.cpu, l, lv);
      match RamGet(s.ram, s.cpu.sp + 1)
      case Err(e) => Step(Err(e), s.(cpu := c1))
      case Ok(hv) => Step(Ok(()), s.(cpu := Set(c1, h, hv).(sp := s.cpu.sp + 2)))
  }

  /** `call` panics on `sp - 1` at 0, and on `sp - 2` at 1 once the first store succeeded. */
  predicate CallDefined(s: State)
  {
    s.cpu.sp >= 2 || (s.cpu.sp == 1 && RamGetMut(s.ram, 0).Err?)
  }

  /** `call`: the return address's high byte at `sp - 1`, low byte at `sp - 2`,
      then `sp -= 2`; the target is returned. */
  function CallAt(s: State, addr: Word, pc: Word): (st: Step<Word>)
    requires CallDefined(s)
    ensures Kept(s, st.next)
    ensures st.result.Ok? ==> st.result.value == addr
  {
    var (h, l) := Arith.ToU8(pc);
    var s1 := StoreByte(s, s.cpu.sp - 1, h);
    if s1.result.Err? then Step(Err(s1.result.error), s1.next)
    else
      var s2 := StoreByte(s1.next, s.cpu.sp - 2, l);
      if s2.result.Err? then Step(Err(s2.result.error), s2.next)
      else Step(Ok(addr), s2.next.(cpu := s2.next.cpu.(sp := s.cpu.sp - 2)))
  }

  /** `ret`: the address made of the bytes at `sp` and `sp + 1`, then `sp += 2`. */
  function Return(s: State): (st: Step<Word>)
    requires StackReadable(s)
    ensures st.next.ram == s.ram
  {
    match RamGet(s.ram, s.cpu.sp)
    case Err(e) => Step(Err(e), s)
    case Ok(l) =>
      match RamGet(s.ram, s.cpu.sp + 1)
      case Err(e) => Step(Err(e), s)
      case Ok(h) => Step(Ok(Arith.ToU16(l, h)), s.(cpu := s.cpu.(sp := s.cpu.sp + 2)))
  }

  /** `call_test`: a taken call costs 5 cycles, one not taken 0. */
  function CallIf(s: State, addr: Word, pc: Word, test: bool): (st: Step<(Word, nat)>)
    requires test ==> CallDefined(s)
    ensures Kept(s, st.next)
  {
    if test then
      var st := CallAt(s, addr, pc);
      match st.result
      case Err(e) => Step(Err(e), st.next)
      case Ok(target) => Step(Ok((target, 5)), st.next)
    else Step(Ok((pc, 0)), s)
  }

  /** `ret_test`: a taken return costs 5 cycles, one not taken 0. */
  function ReturnIf(s: State, pc: Word, test: bool): (st: Step<(Word, nat)>)
    requires test ==> StackReadable(s)
    ensures st.next.ram == s.ram
  {
    if test then
      var st := Return(s);
      match st.result
      case Err(e) => Step(Err(e), st.next)
      case Ok(target) => Step(Ok((target, 5)), st.next)
    else Step(Ok((pc, 0)), s)
  }

  /** `jmp_test`. */
  function JumpIf(addr: Word, pc: Word, test: bool): Word
  {
    if test then addr else pc
  }

  /** `incdec`: the register (or the byte at HL, which must be writable) run
      through `O::run(v, 1)`; S, Z, P and AC follow, Cy is kept. */
  function IncDec(s: State, op: Arith.BinaryOp, r: Register): (st: Step<()>)
    ensures Kept(s, st.next)
  {
    if r == M then
      match RamGetMut(s.ram, GetPair(s.cpu, HL))
      case Err(e) => Step(Err(e), s)
      case Ok(i) =>
        var (v, _, ac) := Arith.Run(op, s.ram.mem[i], 1);
        var ram := RamStore(s.ram, GetPair(s.cpu, HL), v).value;
        Step(Ok(()), State(WithFlags(s.cpu, Arith.UpdateFlagsWithAc(Flags(s.cpu), v, ac)), ram))
    else
      var (v, _, ac) := Arith.Run(op, Get(s.cpu, r), 1);
      var c1 := Set(s.cpu, r, v);
      Step(Ok(()), s.(cpu := WithFlags(c1, Arith.UpdateFlagsWithAc(Flags(c1), v, ac))))
  }

  /** `bin_r`: `bin_i` on the register's value. */
  function BinRegister(s: State, op: Arith.BinaryOp, r: Register): (st: Step<()>)
    ensures st.next.ram == s.ram
  {
    match Load(s, r)
    case Err(e) => Step(Err(e), s)
    case Ok(v) => Step(Ok(()), s.(cpu := BinImmediate(s.cpu, op, v)))
  }

  /** `bin_r_cy`: `bin_i_cy` on the register's value. */
  function BinRegisterCarry(s: State, op: Arith.BinaryOp, r: Register): (st: Step<()>)
    ensures st.next.ram == s.ram
  {
    match Load(s, r)
    case Err(e) => Step(Err(e), s)
    case Ok(v) => Step(Ok(()), s.(cpu := BinImmediateCarry(s.cpu, op, v)))
  }

  /** `op_r`: `op_i` on the register's value. */
  function LogicRegister(s: State, op: Arith.BitwiseOp, r: Register): (st: Step<()>)
    ensures st.next.ram == s.ram
  {
    match Load(s, r)
    case Err(e) => Step(Err(e), s)
    case Ok(v) => Step(Ok(()), s.(cpu := LogicImmediate(s.cpu, op, v)))
  }

  /** `cmp`: `cpi` on the register's value. */
  function CompareRegister(s: State, r: Register): (st: Step<()>)
    ensures st.next.ram == s.ram
  {
    match Load(s, r)
    case Err(e) => Step(Err(e), s)
    case Ok(v) => Step(Ok(()), s.(cpu := Compare(s.cpu, v)))
  }

  /** `lda` and `ldax`: A from memory. */
  function LoadAcc(s: State, addr: Word): (st: Step<()>)
    ensures st.next.ram == s.ram
  {
    match RamGet(s.ram, addr)
    case Err(e) => Step(Err(e), s)
    case Ok(v) => Step(Ok(()), s.(cpu := Set(s.cpu, A, v)))
  }

  /** `mov`: the source is read first, then the destination written. */
  function Move(s: State, dst: Register, src: Register): (st: Step<()>)
    ensures Kept(s, st.next)
  {
    match Load(s, src)
    case Err(e) => Step(Err(e), s)
    case Ok(v) => Store(s, dst, v)
  }

  /** `lhld`: L from `addr`, H from `addr + 1`. */
  function LoadHL(s: State, addr: Word): (st: Step<()>)
    requires TwoBytesReadable(s, addr)
    ensures st.next.ram == s.ram
  {
    match RamGet(s.ram, addr)
    case Err(e) => Step(Err(e), s)
    case Ok(l) =>
      match RamGet(s.ram, addr + 1)
      case Err(e) => Step(Err(e), s)
      case Ok(h) => Step(Ok(()), s.(cpu := Set(Set(s.cpu, L, l), H, h)))
  }

  /** `shld` panics on `addr + 1` once the store at 0xffff succeeded. */
  predicate StoreHLDefined(s: State, addr: Word)
  {
    !(addr == 0xffff && RamGetMut(s.ram, 0xffff).Ok?)
  }

  /** `shld`: L to `addr`, H to `addr + 1`. */
  function StoreHL(s: State, addr: Word): (st: Step<()>)
    requires StoreHLDefined(s, addr)
    ensures Kept(s, st.next)
  {
    var s1 := StoreByte(s, addr, Get(s.cpu, L));
    if s1.result.Err? then s1
    else StoreByte(s1.next, addr + 1, Get(s.cpu, H))
  }

  /** `xthl`: the two stack bytes and L, H exchange places. */
  function SwapStackHL(s: State): (st: Step<()>)
    requires TwoBytesReadable(s, s.cpu.sp)
    ensures Kept(s, st.next)
  {
    match RamGet(s.ram, s.cpu.sp)
    case Err(e) => Step(Err(e), s)
    case Ok(lo) =>
      match RamGet(s.ram, s.cpu.sp + 1)
      case Err(e) => Step(Err(e), s)
      case Ok(hi) =>
        var s1 := StoreByte(s, s.cpu.sp, Get(s.cpu, L));
        if s1.result.Err? then s1
        else
          var s2 := StoreByte(s1.next, s.cpu.sp + 1, Get(s.cpu, H));
          if s2.result.Err? then s2
          else Step(Ok(()), s2.next.(cpu := Set(Set(s2.next.cpu, L, lo), H, hi)))
  }

  /** A helper's outcome followed by the move to `pc` with `cycles`. */
  function Then(st: Step<()>, pc: Word, cycles: nat): Step<(Word, nat)>
  {
    match st.result
    case Err(e) => Step(Err(e), st.next)
    case Ok(_) => Step(Ok((pc, cycles)), st.next)
  }

  /** A call or return's target with the instruction's cycles. */
  function Jumped(st: Step<Word>, cycles: nat): Step<(Word, nat)>
  {
    match st.result
    case Err(e) => Step(Err(e), st.next)
    case Ok(target) => Step(Ok((target, cycles)), st.next)
  }

  /** The arms of `execute` for the stack and the `HL` transfers,
      then (`_`) the next group; `pc` is the address after the instruction and
      `n` its cycles. */
  function StackArm(s: State, i: Instruction, pc: Word, n: nat, io: Byte -> Byte): (st: Step<(Word, nat)>)
    requires ArmDefined(s, i)
    ensures Kept(s, st.next)
    ensures st.result.Ok? ==> st.result.value == (pc, n)
  {
    if i.Push? then Then(PushPair(s, i.pair), pc, n)
    else if i.Pop? then Then(PopPair(s, i.pair), pc, n)
    else if i.Xthl? then Then(SwapStackHL(s), pc, n)
    else if i.Lhld? then Then(LoadHL(s, i.addr), pc, n)
    else if i.Shld? then Then(StoreHL(s, i.addr), pc, n)
    else DirectArm(s, i, pc, n, io)
  }

  /** The arms for the loads and stores of the accumulator. */
  function DirectArm(s: State, i: Instruction, pc: Word, n: nat, io: Byte -> Byte): (st: Step<(Word, nat)>)
    requires ArmDefined(s, i)
    ensures Kept(s, st.next)
    ensures st.result.Ok? ==> st.result.value == (pc, n)
  {
    if i.Lda? then Then(LoadAcc(s, i.addr), pc, n)
    else if i.Ldax? then Then(LoadAcc(s, PairValue(s.cpu, i.pair)), pc, n)
    else if i.Sta? then Then(StoreByte(s, i.addr, Get(s.cpu, A)), pc, n)
    else if i.Stax? then Then(StoreByte(s, PairValue(s.cpu, i.pair), Get(s.cpu, A)), pc, n)
    else MoveArm(s, i, pc, n, io)
  }

  /** The arms for the register-or-memory moves and increments. */
  function MoveArm(s: State, i: Instruction, pc: Word, n: nat, io: Byte -> Byte): (st: Step<(Word, nat)>)
    requires ArmDefined(s, i)
    ensures Kept(s, st.next)
    ensures st.result.Ok? ==> st.result.value == (pc, n)
  {
    if i.Inr? then Then(IncDec(s, Arith.AddOp, i.reg), pc, n)
    else if i.Dcr? then Then(IncDec(s, Arith.SubOp, i.reg), pc, n)
    else if i.Mvi? then Then(Store(s, i.dst, i.byte), pc, n)
    else if i.Mov? then Then(Move(s, i.dst, i.src), pc, n)
    else AluArm(s, i, pc, n, io)
  }

  /** The arms for the arithmetic and logic on a register or memory operand,
      then (`_`) the register-only instructions. */
  function AluArm(s: State, i: Instruction, pc: Word, n: nat, io: Byte -> Byte): (st: Step<(Word, nat)>)
    requires ArmDefined(s, i)
    ensures st.next.ram == s.ram
    ensures st.result.Ok? ==> st.result.value == (pc, n)
  {
    if i.Ana? then Then(LogicRegister(s, Arith.AndOp, i.reg), pc, n)
    else if i.Xra? then Then(LogicRegister(s, Arith.XorOp, i.reg), pc, n)
    else if i.Ora? then Then(LogicRegister(s, Arith.OrOp, i.reg), pc, n)
    else if i.Add? then Then(BinRegister(s, Arith.AddOp, i.reg), pc, n)
    else if i.Sub? then Then(BinRegister(s, Arith.SubOp, i.reg), pc, n)
    else if i.Adc? then Then(BinRegisterCarry(s, Arith.AddOp, i.reg), pc, n)
    else if i.Sbb? then Then(BinRegisterCarry(s, Arith.SubOp, i.reg), pc, n)
    else if i.Cmp? then Then(CompareRegister(s, i.reg), pc, n)
    else Step(Ok((pc, n)), s.(cpu := Compute(s.cpu, i, io)))
  }

  // ---------------------------------------------------------------- control flow

  /** The instructions that choose the next program counter themselves. */
  predicate IsControl(i: Instruction)
  {
    i.Call? || IsConditionalCall(i) || i.Rst? || i.Ret? || IsConditionalReturn(i)
    || i.Jmp? || IsConditionalJump(i) || i.Pchl?
  }

  predicate IsConditionalCall(i: Instruction)
  {
    i.Cz? || i.Cnz? || i.Cm? || i.Cp? || i.Cpe? || i.Cpo? || i.Cc? || i.Cnc?
  }

  predicate IsConditionalJump(i: Instruction)
  {
    i.Jz? || i.Jnz? || i.Jm? || i.Jp? || i.Jpe? || i.Jpo? || i.Jc? || i.Jnc?
  }

  predicate IsConditionalReturn(i: Instruction)
  {
    i.Rz? || i.Rnz? || i.Rm? || i.Rp? || i.Rpe? || i.Rpo? || i.Rc? || i.Rnc?
  }

  /** The test of a conditional call, jump or return, as `execute` passes it
      to `call_test`, `jmp_test` and `ret_test` (true for the other instructions). */
  function Condition(c: CpuView, i: Instruction): bool
  {
    if i.Cz? || i.Jz? || i.Rz? then FlagOf(c, Arith.Z)
    else if i.Cnz? || i.Jnz? || i.Rnz? then !FlagOf(c, Arith.Z)
    else if i.Cm? || i.Jm? || i.Rm? then FlagOf(c, Arith.S)
    else if i.Cp? || i.Jp? || i.Rp? then !FlagOf(c, Arith.S)
    else if i.Cpe? || i.Jpe? || i.Rpe? then FlagOf(c, Arith.P)
    else if i.Cpo? || i.Jpo? || i.Rpo? then !FlagOf(c, Arith.P)
    else if i.Cc? || i.Jc? || i.Rc? then FlagOf(c, Arith.Cy)
    else if i.Cnc? || i.Jnc? || i.Rnc? then !FlagOf(c, Arith.Cy)
    else true
  }

  /** The arms of `execute` that call and return, then the jumps and the
      other groups; `pc` is the address after the instruction and `n` its cycles.
      The eight conditional calls (jumps, returns) share one arm, which hands
      the instruction's `Condition` to `call_test` (`jmp_test`, `ret_test`).
      The result is the next program counter and the cycles. */
  function Arm(s: State, i: Instruction, pc: Word, n: nat, io: Byte -> Byte): (st: Step<(Word, nat)>)
    requires ArmDefined(s, i)
    ensures Kept(s, st.next)
  {
    if i.Call? then Jumped(CallAt(s, i.addr, pc), n)
    else if IsConditionalCall(i) then CallIf(s, i.addr, pc, Condition(s.cpu, i))
    else if i.Rst? then Jumped(CallAt(s, 8 * i.byte, pc), n)
    else if i.Ret? then Jumped(Return(s), n)
    else if IsConditionalReturn(i) then ReturnIf(s, pc, Condition(s.cpu, i))
    else JumpArm(s, i, pc, n, io)
  }

  /** The arms of `execute` that jump without touching the stack. */
  function JumpArm(s: State, i: Instruction, pc: Word, n: nat, io: Byte -> Byte): (st: Step<(Word, nat)>)
    requires ArmDefined(s, i)
    ensures Kept(s, st.next)
  {
    if i.Jmp? then Step(Ok((i.addr, n)), s)
    else if IsConditionalJump(i) then Step(Ok((JumpIf(i.addr, pc, Condition(s.cpu, i)), n)), s)
    else if i.Pchl? then Step(Ok((HLToPC(s.cpu), n)), s)
    else StackArm(s, i, pc, n, io)
  }

  // ---------------------------------------------------------------- execute

  /** The inputs on which `execute` does not panic. */
  predicate ExecuteDefined(s: State, i: Instruction)
  {
    s.cpu.pc + Size(i) <= 0xffff && ArmDefined(s, i)
  }

  /** The inputs on which the arm of `execute` for `i` does not panic. */
  predicate ArmDefined(s: State, i: Instruction)
  {
    if i.Call? || i.Rst? then CallDefined(s)
    else if IsConditionalCall(i) then Condition(s.cpu, i) ==> CallDefined(s)
    else if i.Ret? then StackReadable(s)
    else if IsConditionalReturn(i) then Condition(s.cpu, i) ==> StackReadable(s)
    else if i.Push? then s.cpu.sp >= 2
    else if i.Pop? then i.pair != SP && StackReadable(s)
    else if i.Xthl? then TwoBytesReadable(s, s.cpu.sp)
    else if i.Lhld? then TwoBytesReadable(s, i.addr)
    else if i.Shld? then StoreHLDefined(s, i.addr)
    else if i.Inx? then IncrementDefined(s.cpu, i.pair)
    else if i.Dcx? then i.pair == SP ==> s.cpu.sp > 0
    else true
  }

  /** `System::execute`: `Hlt` stops with `None`; a failing arm returns its
      error with the program counter unchanged; otherwise the program counter
      moves to the arm's target or past the instruction and the cycles are
      returned. */
  function Execute(s: State, i: Instruction, io: Byte -> Byte): (e: Effect)
    requires ExecuteDefined(s, i)
  {
    if i.Hlt? then Effect(Ok(None), s, None)
    else Run(s, i, Next(s, i), Cycles(i), io)
  }

  /** The address just past `i` when it is fetched at the program counter. */
  function Next(s: State, i: Instruction): (pc: Word)
    requires s.cpu.pc + Size(i) <= 0xffff
    ensures s.cpu.pc < pc <= s.cpu.pc + 3
  {
    s.cpu.pc + Size(i)
  }

  /** The rest of `execute` once the address after the instruction (`pc`)
      and its cycles (`n`) are known. */
  function Run(s: State, i: Instruction, pc: Word, n: nat, io: Byte -> Byte): (e: Effect)
    requires ArmDefined(s, i)
    ensures Kept(s, e.next)
  {
    var st := Arm(s, i, pc, n, io);
    var written := if i.Out? then Some((i.byte, Get(s.cpu, A))) else None;
    match st.result
    case Err(err) => Effect(Err(err), st.next, written)
    case Ok(r) => Effect(Ok(Some(r.1)), st.next.(cpu := st.next.cpu.(pc := r.0)), written)
  }

  /** `process` panics when the instruction is longer than the program counter. */
  predicate ProcessDefined(s: State, i: Instruction)
  {
    s.cpu.inte ==> s.cpu.pc >= Size(i) && ExecuteDefined(Rewound(s, i), i)
  }

  /** The machine with its program counter moved back over `i`. */
  function Rewound(s: State, i: Instruction): (t: State)
    requires s.cpu.pc >= Size(i)
    ensures t.cpu.pc + Size(i) == s.cpu.pc && t.ram == s.ram
  {
    s.(cpu := s.cpu.(pc := s.cpu.pc - Size(i)))
  }

  /** `System::process`: with interrupts enabled, the instruction is executed
      as if it had been fetched just before the program counter; otherwise
      nothing happens. */
  function Process(s: State, i: Instruction, io: Byte -> Byte): Effect
    requires ProcessDefined(s, i)
  {
    if s.cpu.inte then Execute(Rewound(s, i), i, io)
    else Effect(Ok(Some(0)), s, None)
  }
}
