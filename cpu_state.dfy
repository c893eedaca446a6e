/** The mutable machine of `src/cpu_state.rs`: `Cpu` with its register array,
    `Ram` with its byte buffer and ROM ranges, and `System`, whose `execute`
    updates both in place. Every method is proved against the value-level
    model (`Machine`, `Memory`): the object's `View()` after the call is the
    function of its `View()` before, and the returned result is the
    function's result. */
module CpuState {
  import opened Bits
  import opened Wrappers
  import opened OpCode
  import opened Memory
  import Machine
  import MachineProps
  import Arith

  /** `Cpu`: eight registers `A, F, B, C, D, E, H, L`, the stack pointer,
      the program counter and the interrupt-enable flag. */
  class Cpu {
    const registers: array<Byte>
    var sp: Word
    var pc: Word
    var inte: bool

    ghost predicate Valid()
    {
      registers.Length == 8
    }

    function View(): Machine.CpuView
      requires Valid()
      reads this, registers
    {
      Machine.CpuView(registers[..], sp, pc, inte)
    }

    /** `Cpu::new`. */
    constructor (pc: Word)
      ensures Valid() && fresh(registers)
      ensures View() == Machine.NewCpu(pc)
    {
      registers := new Byte[8](_ => 0);
      sp := 0xf000;
      this.pc := pc;
      inte := false;
      new;
      assert registers[..] == [0, 0, 0, 0, 0, 0, 0, 0];
    }

    /** `Cpu::get`: the register's slot; `M` has none (the source panics). */
    function Get(r: Register): (v: Byte)
      requires Valid() && r != M
      reads this, registers
      ensures v == Machine.Get(View(), r)
    {
      registers[Index(r)]
    }

    /** The program counter's assignment `self.cpu.pc = ...`. */
    method Jump(target: Word)
      requires Valid()
      modifies this
      ensures Valid() && View() == old(View()).(pc := target)
    {
      pc := target;
    }

    /** `*Cpu::get_mut(r) = v`. */
    method SetRegister(r: Register, v: Byte)
      requires Valid() && r != M
      modifies registers
      ensures View() == Machine.Set(old(View()), r, v)
    {
      registers[Index(r)] := v;
    }

    /** `Cpu::flags`. */
    function Flags(): (f: Byte)
      requires Valid()
      reads this, registers
      ensures f == Machine.Flags(View())
    {
      Get(F)
    }

    /** `Cpu::psw`: `to_u16(flags, a)`. */
    function Psw(): (w: Word)
      requires Valid()
      reads this, registers
      ensures w == Machine.Psw(View())
      ensures Arith.ToU8(w) == (Get(A), Flags())
    {
      Arith.ToU8OfToU16(Flags(), Get(A));
      Arith.ToU16(Flags(), Get(A))
    }

    /** `Cpu::z`, `s`, `p`, `cy`, `ac`: `(flags & (1 << bit)) != 0`. */
    function IsFlag(flag: Arith.Flag): (b: bool)
      requires Valid()
      reads this, registers
      ensures b == Machine.FlagOf(View(), flag)
    {
      Arith.IsSetIsAnd(Flags(), flag);
      And(Flags(), Arith.Mask(flag)) != 0
    }

    /** `Cpu::set`: `flags |= 1 << bit`. */
    method Set(flag: Arith.Flag)
      requires Valid()
      modifies registers
      ensures View() == Machine.WithFlags(old(View()), Arith.SetFlag(old(Flags()), flag))
    {
      Arith.SetFlagIsOr(Flags(), flag);
      SetRegister(F, Or(Flags(), Arith.Mask(flag)));
    }

    /** `Cpu::clear`: `flags &= !(1 << bit)`. */
    method Clear(flag: Arith.Flag)
      requires Valid()
      modifies registers
      ensures View() == Machine.WithFlags(old(View()), Arith.ClearFlag(old(Flags()), flag))
    {
      Arith.ClearFlagIsAndNot(Flags(), flag);
      SetRegister(F, And(Flags(), Not(Arith.Mask(flag))));
    }

    /** `Cpu::toggle`. */
    method Toggle(flag: Arith.Flag, value: bool)
      requires Valid()
      modifies registers
      ensures View() == Machine.WithFlags(old(View()), Arith.Toggle(old(Flags()), flag, value))
    {
      if value {
        Set(flag);
      } else {
        Clear(flag);
      }
    }

    /** `Cpu::clear_all`. */
    method ClearAll()
      requires Valid()
      modifies registers
      ensures View() == Machine.WithFlags(old(View()), 0)
      ensures forall flag :: !IsFlag(flag)
    {
      SetRegister(F, 0);
    }

    /** `Cpu::update_flags`: S from the sign, Z from zero, P from the parity. */
    method UpdateFlags(byte: Byte)
      requires Valid()
      modifies registers
      ensures View() == Machine.WithFlags(old(View()), Arith.UpdateFlags(old(Flags()), byte))
    {
      Toggle(Arith.S, Arith.Signed(byte) < 0);
      Toggle(Arith.Z, byte == 0);
      Toggle(Arith.P, CountOnes(byte) % 2 == 0);
    }

    /** `Cpu::update_flags_with_carry`. */
    method UpdateFlagsWithCarry(byte: Byte, cy: bool)
      requires Valid()
      modifies registers
      ensures View() == Machine.WithFlags(old(View()), Arith.UpdateFlagsWithCarry(old(Flags()), byte, cy))
    {
      UpdateFlags(byte);
      Toggle(Arith.Cy, cy);
    }

    /** `Cpu::update_flags_with_carries`. */
    method UpdateFlagsWithCarries(byte: Byte, cy: bool, ac: bool)
      requires Valid()
      modifies registers
      ensures View() == Machine.WithFlags(old(View()), Arith.UpdateFlagsWithCarries(old(Flags()), byte, cy, ac))
    {
      UpdateFlags(byte);
      Toggle(Arith.Cy, cy);
      Toggle(Arith.Ac, ac);
    }

    /** `Cpu::update_flags_with_ac`. */
    method UpdateFlagsWithAc(byte: Byte, ac: bool)
      requires Valid()
      modifies registers
      ensures View() == Machine.WithFlags(old(View()), Arith.UpdateFlagsWithAc(old(Flags()), byte, ac))
    {
      UpdateFlags(byte);
      Toggle(Arith.Ac, ac);
    }

    /** `Cpu::get_rp`: `to_u16(low, high)` of the pair's registers. */
    function GetRp(rp: RegisterPair): (w: Word)
      requires Valid() && rp != SP
      reads this, registers
      ensures w == Machine.GetPair(View(), rp)
      ensures Arith.ToU8(w) == (Get(Split(rp).0), Get(Split(rp).1))
    {
      var (h, l) := Split(rp);
      Arith.ToU8OfToU16(Get(l), Get(h));
      Arith.ToU16(Get(l), Get(h))
    }
  }

  /** `Ram`: the byte buffer, the registered ROM ranges (start, length) and
      whether ROM may be written. */
  class Ram {
    const ram: array<Byte>
    var romRanges: seq<Range>
    var allowRomWrite: bool

    function View(): RamView
      reads this, ram
    {
      RamView(ram[..], romRanges, allowRomWrite)
    }

    /** `Ram::new`: `ramSize` zero bytes, no ROM. */
    constructor (ramSize: nat, allowRomWrite: bool)
      ensures fresh(ram)
      ensures View() == NewRam(ramSize, allowRomWrite)
    {
      ram := new Byte[ramSize](_ => 0);
      romRanges := [];
      this.allowRomWrite := allowRomWrite;
    }

    /** `Ram::get`: the byte, or `OutOfBoundRead` past the end. */
    function Get(addr: Word): (r: Result<Byte, MemoryError>)
      reads this, ram
      ensures r == RamGet(View(), addr)
    {
      if addr < ram.Length then Ok(ram[addr]) else Err(OutOfBoundRead(addr))
    }

    /** `Ram::get_slice`: the bytes from `addr` to the end, or
        `OutOfBoundRead` when `addr` is past the end. */
    function GetSlice(addr: Word): (r: Result<seq<Byte>, MemoryError>)
      reads this, ram
      ensures r == RamGetSlice(View(), addr)
    {
      if addr <= ram.Length then Ok(ram[addr..]) else Err(OutOfBoundRead(addr))
    }

    /** `Ram::get_mut`: scans the ROM ranges and refuses an address inside
        one (unless ROM writes are allowed), then checks the bound. The slot
        handed out is the index into `ram`. */
    method GetMut(addr: Word) returns (r: Result<nat, MemoryError>)
      ensures r == RamGetMut(View(), addr)
    {
      var k := 0;
      while k < |romRanges|
        invariant k <= |romRanges|
        invariant !allowRomWrite ==>
          forall j | 0 <= j < k :: !(romRanges[j].0 <= addr < romRanges[j].0 + romRanges[j].1)
      {
        var (sr, length) := romRanges[k];
        if !allowRomWrite && addr >= sr && addr < sr + length {
          return Err(ReadOnlyWrite(addr));
        }
        k := k + 1;
      }
      if addr < ram.Length {
        return Ok(addr);
      }
      return Err(OutOfBoundRead(addr));
    }

    /** `Ram::register_rom`: refuses a section that passes the end of the
        buffer, then one that meets a registered range (the first such
        range is reported); otherwise records the range and copies the
        bytes in. A refused call changes nothing. */
    method RegisterRom(rom: seq<Byte>, offset: nat) returns (r: Result<(), MemoryError>)
      modifies this, ram
      ensures var expected := Memory.RegisterRom(old(View()), rom, offset);
        && (r.Ok? <==> expected.Ok?)
        && (r.Err? ==> r.error == expected.error && View() == old(View()))
        && (r.Ok? ==> View() == expected.value)
    {
      var s := offset;
      var e := s + |rom|;
      if e > ram.Length {
        return Err(TooLongRomSection(offset, |rom|, ram.Length));
      }
      var k := 0;
      while k < |romRanges|
        invariant k <= |romRanges|
        invariant forall j | 0 <= j < k :: !Overlaps(romRanges[j], s, e)
      {
        var (sr, length) := romRanges[k];
        var er := sr + length;
        if e > sr && er > s {
          assert FirstOverlap(romRanges, s, e) == k;
          return Err(OverlappingRomSections(sr, length, offset, e - s));
        }
        k := k + 1;
      }
      assert FirstOverlap(romRanges, s, e) == |romRanges|;
      ghost var before := ram[..];
      romRanges := romRanges + [(s, e - s)];
      var i := 0;
      while i < |rom|
        invariant i <= |rom|
        invariant romRanges == old(romRanges) + [(s, e - s)] && allowRomWrite == old(allowRomWrite)
        invariant forall a | 0 <= a < ram.Length ::
          ram[a] == if s <= a < s + i then rom[a - s] else before[a]
      {
        ram[s + i] := rom[i];
        i := i + 1;
      }
      RegisterRomResult(old(View()), rom, offset);
      ghost var expected := Memory.RegisterRom(old(View()), rom, offset).value;
      assert ram[..] == expected.mem;
      return Ok(());
    }
  }

  /** `System`: a `Cpu` and the `Ram` it runs on. */
  class System {
    const cpu: Cpu
    const ram: Ram

    /** The register array and the memory buffer are two distinct arrays. */
    ghost predicate Valid()
    {
      cpu.Valid() && cpu.registers != ram.ram
    }

    function View(): Machine.State
      requires Valid()
      reads cpu, cpu.registers, ram, ram.ram
    {
      Machine.State(cpu.View(), ram.View())
    }

    /** `System::new`: a fresh CPU starting at `pc` over the given memory. */
    constructor (ram: Ram, pc: Word)
      ensures Valid() && this.ram == ram && fresh(cpu) && fresh(cpu.registers)
      ensures View() == Machine.State(Machine.NewCpu(pc), ram.View())
    {
      cpu := new Cpu(pc);
      this.ram := ram;
    }

    /** `System::next_instruction`: the instruction decoded at the program
        counter, which then lies wholly inside the memory. */
    function NextInstruction(): (r: Result<Instruction, OpCodeError>)
      requires Valid()
      reads cpu, ram, ram.ram
      ensures r == ReadAt(ram.ram[..], cpu.pc)
      ensures r.Ok? ==> cpu.pc + Size(r.value) <= ram.ram.Length
    {
      var r := ReadAt(ram.ram[..], cpu.pc);
      if r.Ok? then ReadAtSize(ram.ram[..], cpu.pc); r else r
    }

    // ------------------------------------------------------------ accessors

    /** `System::get_rp`: `SP` is the stack pointer, the other pairs their registers. */
    function GetRp(rp: RegisterPair): (w: Word)
      requires Valid()
      reads cpu, cpu.registers
      ensures w == Machine.PairValue(cpu.View(), rp)
    {
      if rp == SP then cpu.sp else cpu.GetRp(rp)
    }

    /** `System::get` (and `System::read`): `M` is the byte addressed by HL. */
    function Get(reg: Register): (r: Result<Byte, MemoryError>)
      requires Valid()
      reads cpu, cpu.registers, ram, ram.ram
      ensures r == Machine.Load(View(), reg)
    {
      if reg == M then ram.Get(cpu.GetRp(HL)) else Ok(cpu.Get(reg))
    }

    /** `*self.ram.get_mut(addr)? = v`. */
    method StoreByte(addr: Word, v: Byte) returns (r: Result<(), MemoryError>)
      requires Valid()
      modifies ram.ram
      ensures var st := Machine.StoreByte(old(View()), addr, v); r == st.result && View() == st.next
    {
      var slot := ram.GetMut(addr);
      if slot.Err? {
        return Err(slot.error);
      }
      ram.ram[slot.value] := v;
      return Ok(());
    }

    /** `*self.write(dst)? = v` (and `*self.get_mut(dst)? = v`). */
    method Write(dst: Register, v: Byte) returns (r: Result<(), MemoryError>)
      requires Valid()
      modifies cpu.registers, ram.ram
      ensures var st := Machine.Store(old(View()), dst, v); r == st.result && View() == st.next
    {
      if dst == M {
        r := StoreByte(cpu.GetRp(HL), v);
      } else {
        cpu.SetRegister(dst, v);
        r := Ok(());
      }
    }

    // ------------------------------------------------------------ stack

    /** `push`. */
    method Push(rp: RegisterPair) returns (r: Result<(), MemoryError>)
      requires Valid() && cpu.sp >= 2
      modifies cpu, ram.ram
      ensures var st := Machine.PushPair(old(View()), rp); r == st.result && View() == st.next
    {
      var (h, l) := Arith.ToU8(GetRp(rp));
      r := StoreByte(cpu.sp - 2, l);
      if r.Err? {
        return;
      }
      r := StoreByte(cpu.sp - 1, h);
      if r.Err? {
        return;
      }
      cpu.sp := cpu.sp - 2;
    }

    /** `pop`. */
    method Pop(rp: RegisterPair) returns (r: Result<(), MemoryError>)
      requires Valid() && rp != SP && Machine.StackReadable(View())
      modifies cpu, cpu.registers
      ensures var st := Machine.PopPair(old(View()), rp); r == st.result && View() == st.next
    {
      var (h, l) := Split(rp);
      var lv := ram.Get(cpu.sp);
      if lv.Err? {
        return Err(lv.error);
      }
      cpu.SetRegister(l, lv.value);
      var hv := ram.Get(cpu.sp + 1);
      if hv.Err? {
        return Err(hv.error);
      }
      cpu.SetRegister(h, hv.value);
      cpu.sp := cpu.sp + 2;
      return Ok(());
    }

    /** `call`: the return address pushed high byte first; the target is returned. */
    method CallAt(addr: Word, pc: Word) returns (r: Result<Word, MemoryError>)
      requires Valid() && Machine.CallDefined(View())
      modifies cpu, ram.ram
      ensures var st := Machine.CallAt(old(View()), addr, pc); r == st.result && View() == st.next
    {
      var (h, l) := Arith.ToU8(pc);
      var r1 := StoreByte(cpu.sp - 1, h);
      if r1.Err? {
        return Err(r1.error);
      }
      var r2 := StoreByte(cpu.sp - 2, l);
      if r2.Err? {
        return Err(r2.error);
      }
      cpu.sp := cpu.sp - 2;
      return Ok(addr);
    }

    /** `ret`. */
    method Ret() returns (r: Result<Word, MemoryError>)
      requires Valid() && Machine.StackReadable(View())
      modifies cpu
      ensures var st := Machine.Return(old(View())); r == st.result && View() == st.next
    {
      var l := ram.Get(cpu.sp);
      if l.Err? {
        return Err(l.error);
      }
      var h := ram.Get(cpu.sp + 1);
      if h.Err? {
        return Err(h.error);
      }
      cpu.sp := cpu.sp + 2;
      return Ok(Arith.ToU16(l.value, h.value));
    }

    /** `call_test`. */
    method CallTest(addr: Word, pc: Word, test: bool) returns (r: Result<(Word, nat), MemoryError>)
      requires Valid() && (test ==> Machine.CallDefined(View()))
      modifies cpu, ram.ram
      ensures var st := Machine.CallIf(old(View()), addr, pc, test); r == st.result && View() == st.next
    {
      if test {
        var target := CallAt(addr, pc);
        if target.Err? {
          return Err(target.error);
        }
        return Ok((target.value, 5));
      }
      return Ok((pc, 0));
    }

    /** `ret_test`. */
    method RetTest(pc: Word, test: bool) returns (r: Result<(Word, nat), MemoryError>)
      requires Valid() && (test ==> Machine.StackReadable(View()))
      modifies cpu
      ensures var st := Machine.ReturnIf(old(View()), pc, test); r == st.result && View() == st.next
    {
      if test {
        var target := Ret();
        if target.Err? {
          return Err(target.error);
        }
        return Ok((target.value, 5));
      }
      return Ok((pc, 0));
    }

    /** `xthl`. */
    method Xthl() returns (r: Result<(), MemoryError>)
      requires Valid() && Machine.TwoBytesReadable(View(), cpu.sp)
      modifies cpu.registers, ram.ram
      ensures var st := Machine.SwapStackHL(old(View())); r == st.result && View() == st.next
    {
      var lo := ram.Get(cpu.sp);
      if lo.Err? {
        return Err(lo.error);
      }
      var hi := ram.Get(cpu.sp + 1);
      if hi.Err? {
        return Err(hi.error);
      }
      r := StoreByte(cpu.sp, cpu.Get(L));
      if r.Err? {
        return;
      }
      r := StoreByte(cpu.sp + 1, cpu.Get(H));
      if r.Err? {
        return;
      }
      cpu.SetRegister(L, lo.value);
      cpu.SetRegister(H, hi.value);
    }

    // ------------------------------------------------------------ memory transfers

    /** `lda` and `ldax`: A from memory. */
    method LoadAcc(addr: Word) returns (r: Result<(), MemoryError>)
      requires Valid()
      modifies cpu.registers
      ensures var st := Machine.LoadAcc(old(View()), addr); r == st.result && View() == st.next
    {
      var v := ram.Get(addr);
      if v.Err? {
        return Err(v.error);
      }
      cpu.SetRegister(A, v.value);
      return Ok(());
    }

    /** `lhld`. */
    method Lhld(addr: Word) returns (r: Result<(), MemoryError>)
      requires Valid() && Machine.TwoBytesReadable(View(), addr)
      modifies cpu.registers
      ensures var st := Machine.LoadHL(old(View()), addr); r == st.result && View() == st.next
    {
      var l := ram.Get(addr);
      if l.Err? {
        return Err(l.error);
      }
      var h := ram.Get(addr + 1);
      if h.Err? {
        return Err(h.error);
      }
      cpu.SetRegister(L, l.value);
      cpu.SetRegister(H, h.value);
      return Ok(());
    }

    /** `shld`. */
    method Shld(addr: Word) returns (r: Result<(), MemoryError>)
      requires Valid() && Machine.StoreHLDefined(View(), addr)
      modifies ram.ram
      ensures var st := Machine.StoreHL(old(View()), addr); r == st.result && View() == st.next
    {
      r := StoreByte(addr, cpu.Get(L));
      if r.Err? {
        return;
      }
      r := StoreByte(addr + 1, cpu.Get(H));
    }

    /** `mov`: the source is read, then the destination written. */
    method Mov(dst: Register, src: Register) returns (r: Result<(), MemoryError>)
      requires Valid()
      modifies cpu.registers, ram.ram
      ensures var st := Machine.Move(old(View()), dst, src); r == st.result && View() == st.next
    {
      var v := Get(src);
      if v.Err? {
        return Err(v.error);
      }
      r := Write(dst, v.value);
    }

    /** `incdec`: the register or the byte at HL through `O::run(v, 1)`. */
    method IncDec(op: Arith.BinaryOp, reg: Register) returns (r: Result<(), MemoryError>)
      requires Valid()
      modifies cpu.registers, ram.ram
      ensures var st := Machine.IncDec(old(View()), op, reg); r == st.result && View() == st.next
    {
      if reg == M {
        var slot := ram.GetMut(cpu.GetRp(HL));
        if slot.Err? {
          return Err(slot.error);
        }
        var (val, _, ac) := Arith.Run(op, ram.ram[slot.value], 1);
        ram.ram[slot.value] := val;
        cpu.UpdateFlagsWithAc(val, ac);
      } else {
        var (val, _, ac) := Arith.Run(op, cpu.Get(reg), 1);
        cpu.SetRegister(reg, val);
        cpu.UpdateFlagsWithAc(val, ac);
      }
      return Ok(());
    }

    // ------------------------------------------------------------ accumulator arithmetic

    /** `bin_i`: A and the flags from `O::run(a, byte)`. */
    method BinI(op: Arith.BinaryOp, byte: Byte)
      requires Valid()
      modifies cpu.registers
      ensures cpu.View() == Machine.BinImmediate(old(cpu.View()), op, byte)
    {
      var (a, cy, ac) := Arith.Run(op, cpu.Get(A), byte);
      cpu.UpdateFlagsWithCarries(a, cy, ac);
      cpu.SetRegister(A, a);
    }

    /** `bin_i_cy`: as `bin_i`, with Cy as carry-in. */
    method BinICy(op: Arith.BinaryOp, byte: Byte)
      requires Valid()
      modifies cpu.registers
      ensures cpu.View() == Machine.BinImmediateCarry(old(cpu.View()), op, byte)
    {
      var (a, cy, ac) := Arith.RunWithCarry(op, cpu.Get(A), byte, cpu.IsFlag(Arith.Cy));
      cpu.UpdateFlagsWithCarries(a, cy, ac);
      cpu.SetRegister(A, a);
    }

    /** `op_i`: A from the bitwise operator, the flags with Cy cleared. */
    method OpI(op: Arith.BitwiseOp, byte: Byte)
      requires Valid()
      modifies cpu.registers
      ensures cpu.View() == Machine.LogicImmediate(old(cpu.View()), op, byte)
    {
      var a := Arith.RunBitwise(op, byte, cpu.Get(A));
      cpu.UpdateFlagsWithCarry(a, false);
      cpu.SetRegister(A, a);
    }

    /** `cpi`: the flags of `A - byte`. */
    method Cpi(byte: Byte)
      requires Valid()
      modifies cpu.registers
      ensures cpu.View() == Machine.Compare(old(cpu.View()), byte)
    {
      var (f, cy, ac) := Arith.Run(Arith.SubOp, cpu.Get(A), byte);
      cpu.UpdateFlagsWithCarries(f, cy, ac);
    }

    /** `bin_r`. */
    method BinR(op: Arith.BinaryOp, reg: Register) returns (r: Result<(), MemoryError>)
      requires Valid()
      modifies cpu.registers
      ensures var st := Machine.BinRegister(old(View()), op, reg); r == st.result && View() == st.next
    {
      ghost var s0 := View();
      var v := Get(reg);
      if v.Err? {
        return Err(v.error);
      }
      BinI(op, v.value);
      assert View() == s0.(cpu := Machine.BinImmediate(s0.cpu, op, v.value));
      return Ok(());
    }

    /** `bin_r_cy`. */
    method BinRCy(op: Arith.BinaryOp, reg: Register) returns (r: Result<(), MemoryError>)
      requires Valid()
      modifies cpu.registers
      ensures var st := Machine.BinRegisterCarry(old(View()), op, reg); r == st.result && View() == st.next
    {
      ghost var s0 := View();
      var v := Get(reg);
      if v.Err? {
        return Err(v.error);
      }
      BinICy(op, v.value);
      assert View() == s0.(cpu := Machine.BinImmediateCarry(s0.cpu, op, v.value));
      return Ok(());
    }

    /** `op_r`. */
    method OpR(op: Arith.BitwiseOp, reg: Register) returns (r: Result<(), MemoryError>)
      requires Valid()
      modifies cpu.registers
      ensures var st := Machine.LogicRegister(old(View()), op, reg); r == st.result && View() == st.next
    {
      ghost var s0 := View();
      var v := Get(reg);
      if v.Err? {
        return Err(v.error);
      }
      OpI(op, v.value);
      assert View() == s0.(cpu := Machine.LogicImmediate(s0.cpu, op, v.value));
      return Ok(());
    }

    /** `cmp`. */
    method Cmp(reg: Register) returns (r: Result<(), MemoryError>)
      requires Valid()
      modifies cpu.registers
      ensures var st := Machine.CompareRegister(old(View()), reg); r == st.result && View() == st.next
    {
      ghost var s0 := View();
      var v := Get(reg);
      if v.Err? {
        return Err(v.error);
      }
      Cpi(v.value);
      assert View() == s0.(cpu := Machine.Compare(s0.cpu, v.value));
      return Ok(());
    }

    /** `daa`. */
    method Daa()
      requires Valid()
      modifies cpu.registers
      ensures var (a, f) := Arith.Daa(old(cpu.Get(A)), old(cpu.Flags()));
        cpu.View() == Machine.WithAccFlags(old(cpu.View()), a, f)
    {
      var a := cpu.Get(A);
      if a % 0x10 <= 9 && !cpu.IsFlag(Arith.Ac) {
        assert cpu.View().registers == cpu.View().registers[Index(F) := cpu.Flags()][Index(A) := a];
        return;
      }
      var (a1, cy1, ac1) := Arith.Run(Arith.AddOp, a, 6);
      if a1 / 0x10 <= 9 && !cpu.IsFlag(Arith.Cy) {
        cpu.UpdateFlagsWithCarries(a1, cy1, ac1);
        cpu.SetRegister(A, a1);
        return;
      }
      var (a2, cy2, ac2) := Arith.Run(Arith.AddOp, a1, 0x60);
      cpu.UpdateFlagsWithCarries(a2, cy2, ac2);
      cpu.SetRegister(A, a2);
    }

    /** `rlc`: bit 7 goes to Cy and to bit 0. */
    method Rlc()
      requires Valid()
      modifies cpu.registers
      ensures var (a, f) := Arith.Rlc(old(cpu.Get(A)), old(cpu.Flags()));
        cpu.View() == Machine.WithAccFlags(old(cpu.View()), a, f)
    {
      var a := cpu.Get(A);
      var nextCy := a >= 0x80;
      var shifted := 2 * (a as int);
      var a' := if nextCy then shifted % 0x100 + 1 else shifted % 0x100;
      cpu.Toggle(Arith.Cy, nextCy);
      cpu.SetRegister(A, a');
    }

    /** `rrc`: bit 0 goes to Cy and to bit 7. */
    method Rrc()
      requires Valid()
      modifies cpu.registers
      ensures var (a, f) := Arith.Rrc(old(cpu.Get(A)), old(cpu.Flags()));
        cpu.View() == Machine.WithAccFlags(old(cpu.View()), a, f)
    {
      var a := cpu.Get(A);
      cpu.Toggle(Arith.Cy, a % 2 == 1);
      cpu.SetRegister(A, a / 2 + (a % 2) * 0x80);
    }

    /** `ral`: the old Cy enters bit 0, bit 7 becomes Cy. */
    method Ral()
      requires Valid()
      modifies cpu.registers
      ensures var (a, f) := Arith.Ral(old(cpu.Get(A)), old(cpu.Flags()));
        cpu.View() == Machine.WithAccFlags(old(cpu.View()), a, f)
    {
      var a := cpu.Get(A);
      var nextCy := a >= 0x80;
      var shifted := 2 * (a as int);
      var a' := if cpu.IsFlag(Arith.Cy) then shifted % 0x100 + 1 else shifted % 0x100;
      cpu.Toggle(Arith.Cy, nextCy);
      cpu.SetRegister(A, a');
    }

    /** `rar`: the old Cy enters bit 7, bit 0 becomes Cy. */
    method Rar()
      requires Valid()
      modifies cpu.registers
      ensures var (a, f) := Arith.Rar(old(cpu.Get(A)), old(cpu.Flags()));
        cpu.View() == Machine.WithAccFlags(old(cpu.View()), a, f)
    {
      var a := cpu.Get(A);
      var nextCy := a % 2 == 1;
      var a' := if cpu.IsFlag(Arith.Cy) then a / 2 + 0x80 else a / 2;
      cpu.Toggle(Arith.Cy, nextCy);
      cpu.SetRegister(A, a');
    }

    // ------------------------------------------------------------ register pairs

    /** `inx`: the low register wraps and carries into the high one. */
    method Inx(rp: RegisterPair)
      requires Valid() && Machine.IncrementDefined(cpu.View(), rp)
      modifies cpu, cpu.registers
      ensures cpu.View() == Machine.IncrementPair(old(cpu.View()), rp)
    {
      if rp == SP {
        cpu.sp := cpu.sp + 1;
      } else {
        var (h, l) := Split(rp);
        if cpu.Get(l) == 0xff {
          cpu.SetRegister(l, 0);
          cpu.SetRegister(h, cpu.Get(h) + 1);
        } else {
          cpu.SetRegister(l, cpu.Get(l) + 1);
        }
      }
    }

    /** `dcx`: the low register wraps and borrows from the high one, which wraps. */
    method Dcx(rp: RegisterPair)
      requires Valid() && (rp == SP ==> cpu.sp > 0)
      modifies cpu, cpu.registers
      ensures cpu.View() == Machine.DecrementPair(old(cpu.View()), rp)
    {
      if rp == SP {
        cpu.sp := cpu.sp - 1;
      } else {
        var (h, l) := Split(rp);
        if cpu.Get(l) == 0 {
          cpu.SetRegister(l, 0xff);
          cpu.SetRegister(h, Arith.WrappingSub(cpu.Get(h), 1));
        } else {
          cpu.SetRegister(l, cpu.Get(l) - 1);
        }
      }
    }

    /** `dad`: HL plus the pair, Cy from the 16-bit carry. */
    method Dad(rp: RegisterPair)
      requires Valid()
      modifies cpu.registers
      ensures cpu.View() == Machine.AddPair(old(cpu.View()), rp)
    {
      var toAdd := GetRp(rp);
      var toAddTo := GetRp(HL);
      var (val, cy) := Arith.AddU16(toAdd, toAddTo);
      var (h, l) := Arith.ToU8(val);
      cpu.Toggle(Arith.Cy, cy);
      cpu.SetRegister(H, h);
      cpu.SetRegister(L, l);
    }

    /** `lxi`. */
    method Lxi(rp: RegisterPair, lb: Byte, hb: Byte)
      requires Valid()
      modifies cpu, cpu.registers
      ensures cpu.View() == Machine.LoadPair(old(cpu.View()), rp, lb, hb)
    {
      if rp == SP {
        cpu.sp := Arith.ToU16(lb, hb);
      } else {
        var (h, l) := Split(rp);
        cpu.SetRegister(h, hb);
        cpu.SetRegister(l, lb);
      }
    }

    /** `xchg`. */
    method Xchg()
      requires Valid()
      modifies cpu.registers
      ensures cpu.View() == Machine.SwapDEHL(old(cpu.View()))
    {
      var d := cpu.Get(D);
      var e := cpu.Get(E);
      cpu.SetRegister(D, cpu.Get(H));
      cpu.SetRegister(E, cpu.Get(L));
      cpu.SetRegister(H, d);
      cpu.SetRegister(L, e);
    }

    /** `pchl`: `(H << 8) + L`. */
    function Pchl(): (w: Word)
      requires Valid()
      reads cpu, cpu.registers
      ensures w == Machine.HLToPC(cpu.View())
      ensures Arith.ToU8(w) == (cpu.Get(H), cpu.Get(L))
    {
      cpu.Get(H) * 0x100 + cpu.Get(L)
    }

    // ------------------------------------------------------------ dispatch

    /** The register-only arms of `execute`. */
    method ComputeArm(i: Instruction, io: Byte -> Byte)
      requires Valid()
      requires i.Inx? ==> Machine.IncrementDefined(cpu.View(), i.pair)
      requires i.Dcx? && i.pair == SP ==> cpu.sp > 0
      modifies cpu, cpu.registers
      ensures cpu.View() == Machine.Compute(old(cpu.View()), i, io)
    {
      if i.Cma? {
        cpu.SetRegister(A, Not(cpu.Get(A)));
      } else if i.Cpi? {
        Cpi(i.byte);
      } else if i.Inx? {
        Inx(i.pair);
      } else if i.Dcx? {
        Dcx(i.pair);
      } else if i.Dad? {
        Dad(i.pair);
      } else if i.Lxi? {
        Lxi(i.pair, i.low, i.high);
      } else if i.Xchg? {
        Xchg();
      } else if i.Ani? {
        OpI(Arith.AndOp, i.byte);
      } else if i.Ori? {
        OpI(Arith.OrOp, i.byte);
      } else if i.Xri? {
        OpI(Arith.XorOp, i.byte);
      } else if i.In? {
        cpu.SetRegister(A, io(i.byte));
      } else if i.Adi? {
        BinI(Arith.AddOp, i.byte);
      } else if i.Sui? {
        BinI(Arith.SubOp, i.byte);
      } else if i.Aci? {
        BinICy(Arith.AddOp, i.byte);
      } else if i.Sbi? {
        BinICy(Arith.SubOp, i.byte);
      } else if i.Stc? {
        cpu.Set(Arith.Cy);
      } else if i.Cmc? {
        cpu.Toggle(Arith.Cy, !cpu.IsFlag(Arith.Cy));
      } else if i.Daa? {
        Daa();
      } else if i.Rlc? {
        Rlc();
      } else if i.Rrc? {
        Rrc();
      } else if i.Ral? {
        Ral();
      } else if i.Rar? {
        Rar();
      } else if i.Sphl? {
        cpu.sp := GetRp(HL);
      } else if i.Ei? {
        cpu.inte := true;
      } else if i.Di? {
        cpu.inte := false;
      }
    }

    /** A helper's outcome, then the move to `pc` with `cycles` (the `?` of an arm). */
    static function Then(r: Result<(), MemoryError>, pc: Word, cycles: nat): (t: Result<(Word, nat), MemoryError>)
      ensures t.Ok? <==> r.Ok?
      ensures r.Err? ==> t.error == r.error
      ensures t.Ok? ==> t.value == (pc, cycles)
    {
      if r.Err? then Err(r.error) else Ok((pc, cycles))
    }

    /** The arms for the arithmetic and logic on a register or memory
        operand, then the register-only arms. */
    method AluArm(i: Instruction, pc: Word, n: nat, io: Byte -> Byte) returns (r: Result<(Word, nat), MemoryError>)
      requires Valid() && Machine.ArmDefined(View(), i)
      modifies cpu, cpu.registers
      ensures var st := Machine.AluArm(old(View()), i, pc, n, io); r == st.result && View() == st.next
    {
      var res: Result<(), MemoryError>;
      if i.Ana? {
        res := OpR(Arith.AndOp, i.reg);
      } else if i.Xra? {
        res := OpR(Arith.XorOp, i.reg);
      } else if i.Ora? {
        res := OpR(Arith.OrOp, i.reg);
      } else if i.Add? {
        res := BinR(Arith.AddOp, i.reg);
      } else if i.Sub? {
        res := BinR(Arith.SubOp, i.reg);
      } else if i.Adc? {
        res := BinRCy(Arith.AddOp, i.reg);
      } else if i.Sbb? {
        res := BinRCy(Arith.SubOp, i.reg);
      } else if i.Cmp? {
        res := Cmp(i.reg);
      } else {
        ComputeArm(i, io);
        res := Ok(());
      }
      r := Then(res, pc, n);
    }

    /** The arms for the register-or-memory moves and increments. */
    method MoveArm(i: Instruction, pc: Word, n: nat, io: Byte -> Byte) returns (r: Result<(Word, nat), MemoryError>)
      requires Valid() && Machine.ArmDefined(View(), i)
      modifies cpu, cpu.registers, ram.ram
      ensures var st := Machine.MoveArm(old(View()), i, pc, n, io); r == st.result && View() == st.next
    {
      ghost var s0 := View();
      var res: Result<(), MemoryError>;
      if i.Inr? {
        res := IncDec(Arith.AddOp, i.reg);
      } else if i.Dcr? {
        res := IncDec(Arith.SubOp, i.reg);
      } else if i.Mvi? {
        res := Write(i.dst, i.byte);
      } else if i.Mov? {
        res := Mov(i.dst, i.src);
      } else {
        assert Machine.MoveArm(s0, i, pc, n, io) == Machine.AluArm(s0, i, pc, n, io);
        r := AluArm(i, pc, n, io);
        return;
      }
      r := Then(res, pc, n);
    }

    /** The arms for the loads and stores of the accumulator. */
    method DirectArm(i: Instruction, pc: Word, n: nat, io: Byte -> Byte) returns (r: Result<(Word, nat), MemoryError>)
      requires Valid() && Machine.ArmDefined(View(), i)
      modifies cpu, cpu.registers, ram.ram
      ensures var st := Machine.DirectArm(old(View()), i, pc, n, io); r == st.result && View() == st.next
    {
      ghost var s0 := View();
      var res: Result<(), MemoryError>;
      if i.Lda? {
        res := LoadAcc(i.addr);
      } else if i.Ldax? {
        res := LoadAcc(GetRp(i.pair));
      } else if i.Sta? {
        res := StoreByte(i.addr, cpu.Get(A));
      } else if i.Stax? {
        res := StoreByte(GetRp(i.pair), cpu.Get(A));
      } else {
        assert Machine.DirectArm(s0, i, pc, n, io) == Machine.MoveArm(s0, i, pc, n, io);
        r := MoveArm(i, pc, n, io);
        return;
      }
      r := Then(res, pc, n);
    }

    /** The arms for the stack and the HL transfers. */
    method StackArm(i: Instruction, pc: Word, n: nat, io: Byte -> Byte) returns (r: Result<(Word, nat), MemoryError>)
      requires Valid() && Machine.ArmDefined(View(), i)
      modifies cpu, cpu.registers, ram.ram
      ensures var st := Machine.StackArm(old(View()), i, pc, n, io); r == st.result && View() == st.next
    {
      ghost var s0 := View();
      var res: Result<(), MemoryError>;
      if i.Push? {
        res := Push(i.pair);
      } else if i.Pop? {
        res := Pop(i.pair);
      } else if i.Xthl? {
        res := Xthl();
      } else if i.Lhld? {
        res := Lhld(i.addr);
      } else if i.Shld? {
        res := Shld(i.addr);
      } else {
        assert Machine.StackArm(s0, i, pc, n, io) == Machine.DirectArm(s0, i, pc, n, io);
        r := DirectArm(i, pc, n, io);
        return;
      }
      r := Then(res, pc, n);
    }

    /** The flag test a conditional call, jump or return hands to
        `call_test`, `jmp_test` or `ret_test`: `self.cpu.z()`, `!self.cpu.z()`, ... */
    function Condition(i: Instruction): (b: bool)
      requires Valid()
      reads cpu, cpu.registers
      ensures b == Machine.Condition(cpu.View(), i)
    {
      if i.Cz? || i.Jz? || i.Rz? then cpu.IsFlag(Arith.Z)
      else if i.Cnz? || i.Jnz? || i.Rnz? then !cpu.IsFlag(Arith.Z)
      else if i.Cm? || i.Jm? || i.Rm? then cpu.IsFlag(Arith.S)
      else if i.Cp? || i.Jp? || i.Rp? then !cpu.IsFlag(Arith.S)
      else if i.Cpe? || i.Jpe? || i.Rpe? then cpu.IsFlag(Arith.P)
      else if i.Cpo? || i.Jpo? || i.Rpo? then !cpu.IsFlag(Arith.P)
      else if i.Cc? || i.Jc? || i.Rc? then cpu.IsFlag(Arith.Cy)
      else if i.Cnc? || i.Jnc? || i.Rnc? then !cpu.IsFlag(Arith.Cy)
      else true
    }

    /** The arms that call and return, then the jumps. */
    method Arm(i: Instruction, pc: Word, n: nat, io: Byte -> Byte) returns (r: Result<(Word, nat), MemoryError>)
      requires Valid() && Machine.ArmDefined(View(), i)
      modifies cpu, cpu.registers, ram.ram
      ensures var st := Machine.Arm(old(View()), i, pc, n, io); r == st.result && View() == st.next
    {
      ghost var s0 := View();
      if i.Call? {
        assert Machine.Arm(s0, i, pc, n, io) == Machine.Jumped(Machine.CallAt(s0, i.addr, pc), n);
        var target := CallAt(i.addr, pc);
        r := if target.Err? then Err(target.error) else Ok((target.value, n));
      } else if Machine.IsConditionalCall(i) {
        r := ConditionalCall(i, pc, n, io);
      } else if i.Rst? {
        assert Machine.Arm(s0, i, pc, n, io) == Machine.Jumped(Machine.CallAt(s0, 8 * i.byte, pc), n);
        var target := CallAt(8 * i.byte, pc);
        r := if target.Err? then Err(target.error) else Ok((target.value, n));
      } else if i.Ret? {
        assert Machine.Arm(s0, i, pc, n, io) == Machine.Jumped(Machine.Return(s0), n);
        var target := Ret();
        r := if target.Err? then Err(target.error) else Ok((target.value, n));
      } else if Machine.IsConditionalReturn(i) {
        r := ConditionalReturn(i, pc, n, io);
      } else {
        assert Machine.Arm(s0, i, pc, n, io) == Machine.JumpArm(s0, i, pc, n, io);
        r := JumpArm(i, pc, n, io);
      }
    }

    /** The arm of `cz`, `cnz`, ...: `call_test` with the flag test. */
    method ConditionalCall(i: Instruction, pc: Word, n: nat, io: Byte -> Byte) returns (r: Result<(Word, nat), MemoryError>)
      requires Valid() && Machine.ArmDefined(View(), i) && Machine.IsConditionalCall(i)
      modifies cpu, cpu.registers, ram.ram
      ensures var st := Machine.Arm(old(View()), i, pc, n, io); r == st.result && View() == st.next
    {
      ghost var s0 := View();
      assert Machine.Arm(s0, i, pc, n, io) == Machine.CallIf(s0, i.addr, pc, Machine.Condition(s0.cpu, i));
      r := CallTest(i.addr, pc, Condition(i));
    }

    /** The arm of `rz`, `rnz`, ...: `ret_test` with the flag test. */
    method ConditionalReturn(i: Instruction, pc: Word, n: nat, io: Byte -> Byte) returns (r: Result<(Word, nat), MemoryError>)
      requires Valid() && Machine.ArmDefined(View(), i) && Machine.IsConditionalReturn(i)
      modifies cpu, cpu.registers, ram.ram
      ensures var st := Machine.Arm(old(View()), i, pc, n, io); r == st.result && View() == st.next
    {
      ghost var s0 := View();
      MachineProps.ArmConditionalReturn(s0, i, pc, n, io);
      r := RetTest(pc, Condition(i));
    }

    /** The arms that jump, then the other groups. */
    method JumpArm(i: Instruction, pc: Word, n: nat, io: Byte -> Byte) returns (r: Result<(Word, nat), MemoryError>)
      requires Valid() && Machine.ArmDefined(View(), i)
      modifies cpu, cpu.registers, ram.ram
      ensures var st := Machine.JumpArm(old(View()), i, pc, n, io); r == st.result && View() == st.next
    {
      ghost var s0 := View();
      if i.Jmp? {
        r := Ok((i.addr, n));
        assert Machine.JumpArm(s0, i, pc, n, io) == Machine.Step(r, s0);
      } else if Machine.IsConditionalJump(i) {
        r := ConditionalJump(i, pc, n);
      } else if i.Pchl? {
        r := Ok((Pchl(), n));
        assert Machine.JumpArm(s0, i, pc, n, io) == Machine.Step(r, s0);
      } else {
        assert Machine.JumpArm(s0, i, pc, n, io) == Machine.StackArm(s0, i, pc, n, io);
        r := StackArm(i, pc, n, io);
      }
    }

    /** The arm of `jz`, `jnz`, ...: `jmp_test` with the flag test. */
    function ConditionalJump(i: Instruction, pc: Word, n: nat): (r: Result<(Word, nat), MemoryError>)
      requires Valid() && Machine.IsConditionalJump(i)
      reads cpu, cpu.registers
      ensures r == Ok((if Machine.Condition(cpu.View(), i) then i.addr else pc, n))
    {
      Ok((Machine.JumpIf(i.addr, pc, Condition(i)), n))
    }

    /** `System::execute`: `Hlt` returns `None` and changes nothing; an arm
        that fails returns its error and leaves the program counter; otherwise
        the program counter moves to the arm's target (past the instruction
        for the sequential ones) and the cycles are returned. `Out` hands
        `(port, A)` to the output device: it is returned as `written`. */
    method Execute(i: Instruction, io: Byte -> Byte) returns (r: Result<Option<nat>, MemoryError>, written: Option<(Byte, Byte)>)
      requires Valid() && Machine.ExecuteDefined(View(), i)
      modifies cpu, cpu.registers, ram.ram
      ensures var e := Machine.Execute(old(View()), i, io);
        r == e.result && View() == e.next && written == e.written
    {
      if i.Hlt? {
        return Ok(None), None;
      }
      var pc := cpu.pc + Size(i);
      assert pc == Machine.Next(View(), i);
      r, written := Run(i, pc, Cycles(i), io);
    }

    /** The rest of `execute`: the arm, then the move of the program counter. */
    method Run(i: Instruction, pc: Word, n: nat, io: Byte -> Byte) returns (r: Result<Option<nat>, MemoryError>, written: Option<(Byte, Byte)>)
      requires Valid() && Machine.ArmDefined(View(), i)
      modifies cpu, cpu.registers, ram.ram
      ensures var e := Machine.Run(old(View()), i, pc, n, io);
        r == e.result && View() == e.next && written == e.written
    {
      ghost var s0 := View();
      written := if i.Out? then Some((i.byte, cpu.Get(A))) else None;
      var st := Arm(i, pc, n, io);
      ghost var ms := Machine.Arm(s0, i, pc, n, io);
      if st.Err? {
        return Err(st.error), written;
      }
      cpu.Jump(st.value.0);
      assert View() == ms.next.(cpu := ms.next.cpu.(pc := st.value.0));
      r := Ok(Some(st.value.1));
    }

    /** `System::process`: with interrupts enabled, the program counter steps
        back over the instruction, which is then executed. */
    method Process(i: Instruction, io: Byte -> Byte) returns (r: Result<Option<nat>, MemoryError>, written: Option<(Byte, Byte)>)
      requires Valid() && Machine.ProcessDefined(View(), i)
      modifies cpu, cpu.registers, ram.ram
      ensures var e := Machine.Process(old(View()), i, io);
        r == e.result && View() == e.next && written == e.written
    {
      if cpu.inte {
        ghost var s0 := View();
        cpu.Jump(cpu.pc - Size(i));
        assert View() == Machine.Rewound(s0, i);
        r, written := Execute(i, io);
      } else {
        r, written := Ok(Some(0)), None;
      }
    }
  }
}
