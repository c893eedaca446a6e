/** The mutable prototype machine of `core/src/cpu_state.rs`: `Cpu` with its
    seven-register array, `Ram` with its fixed 0x2000-byte array above
    `ram_offset`, and `System`, whose `execute_instruction` updates both in
    place and reads the ROM below the offset. Every method is proved against
    `CoreMachine`: the object's `View()` after the call is the function of its
    `View()` before, and the returned result is the function's result. */
module CoreCpuState {
  import opened Bits
  import opened Wrappers
  import opened CoreMachine
  import Arith

  /** `Cpu`: seven registers, the stack pointer, the result byte the flags
      are read from, and the carry and auxiliary carry. */
  class Cpu {
    const registers: array<Byte>
    var sp: Word
    var conditionFlag: Byte
    var cy: bool
    var ac: bool

    ghost predicate Valid()
    {
      registers.Length == 7
    }

    function View(): CpuView
      requires Valid()
      reads this, registers
    {
      CpuView(registers[..], sp, conditionFlag, cy, ac)
    }

    /** `Cpu::default()`: everything zero. */
    constructor ()
      ensures Valid() && fresh(registers)
      ensures View() == CpuView([0, 0, 0, 0, 0, 0, 0], 0, 0, false, false)
    {
      registers := new Byte[7](_ => 0);
      sp := 0;
      conditionFlag := 0;
      cy := false;
      ac := false;
      new;
      assert registers[..] == [0, 0, 0, 0, 0, 0, 0];
    }

    /** `Cpu::get`: the register's slot (`M` has none; the source asserts). */
    function Get(r: Register): (v: Byte)
      requires Valid() && r != M
      reads this, registers
      ensures v == CoreMachine.Get(View(), r)
    {
      registers[Slot(r)]
    }

    /** `*Cpu::get_mut(r) = v`. */
    method Set(r: Register, v: Byte)
      requires Valid() && r != M
      modifies registers
      ensures View() == SetReg(old(View()), r, v)
    {
      registers[Slot(r)] := v;
    }
  }

  /** `Ram`: the array and the address of its first byte. */
  class Ram {
    const ram: array<Byte>
    const ramOffset: Word

    ghost predicate Valid()
    {
      ram.Length == RamSize
    }

    /** The zeroed RAM at `ram_offset` that `run_game` builds. */
    constructor (ramOffset: Word)
      ensures Valid() && fresh(ram) && this.ramOffset == ramOffset
      ensures forall k :: 0 <= k < RamSize ==> ram[k] == 0
    {
      ram := new Byte[RamSize](_ => 0);
      this.ramOffset := ramOffset;
    }

    /** `Ram::get`: the byte at `addr - ram_offset`, or `OutOfBoundRead(addr)`
        past the array. */
    function Get(addr: Word): (r: Result<Byte, MemoryError>)
      requires Valid() && addr >= ramOffset
      reads this, ram
      ensures r.Ok? <==> addr < ramOffset + RamSize
      ensures r.Ok? ==> r.value == ram[addr - ramOffset]
      ensures r.Err? ==> r.error == OutOfBoundRead(addr)
    {
      var k := RamSlot(ramOffset, addr);
      if k.Err? then Err(k.error) else Ok(ram[k.value])
    }

    /** `Ram::get_mut`: the slot it borrows, or `OutOfBoundRead(addr)`. */
    function GetMut(addr: Word): (r: Result<nat, MemoryError>)
      requires Valid() && addr >= ramOffset
      reads this
      ensures r == RamSlot(ramOffset, addr)
      ensures r.Ok? ==> r.value < ram.Length
    {
      RamSlot(ramOffset, addr)
    }
  }

  /** `System`: the CPU, the RAM and the ROM it borrows. */
  class System {
    const cpu: Cpu
    const ram: Ram
    const rom: seq<Byte>

    /** The register array and the RAM array are two distinct arrays. */
    ghost predicate Valid()
    {
      cpu.Valid() && ram.Valid() && cpu.registers != ram.ram
    }

    function View(): State
      requires Valid()
      reads cpu, cpu.registers, ram, ram.ram
    {
      State(cpu.View(), ram.ram[..], ram.ramOffset, rom)
    }

    /** The system `run_game` starts: a default CPU and a zeroed RAM at
        0x2000 over the given ROM. */
    constructor (rom: seq<Byte>)
      ensures Valid() && fresh(cpu) && fresh(cpu.registers) && fresh(ram) && fresh(ram.ram)
      ensures View() == State(CpuView([0, 0, 0, 0, 0, 0, 0], 0, 0, false, false), seq(RamSize, _ => 0), 0x2000, rom)
    {
      cpu := new Cpu();
      ram := new Ram(0x2000);
      this.rom := rom;
      new;
      assert ram.ram[..] == seq(RamSize, _ => 0);
    }

    // ------------------------------------------------------------ memory

    /** `System::get`: the RAM at or above the offset, the ROM below it. */
    function Get(addr: Word): (r: Result<Byte, MemoryError>)
      requires Valid()
      reads cpu, cpu.registers, ram, ram.ram
      ensures r == SystemGet(View(), addr)
    {
      if addr >= ram.ramOffset then ram.Get(addr)
      else if addr < |rom| then Ok(rom[addr])
      else Err(OutOfBoundReadRom(addr))
    }

    /** `*self.ram.get_mut(addr)? = v`. */
    method Store(addr: Word, v: Byte) returns (r: Result<(), MemoryError>)
      requires Valid() && addr >= ram.ramOffset
      modifies ram.ram
      ensures var st := RamStore(old(View()), addr, v); r == st.result && View() == st.next
    {
      var slot := ram.GetMut(addr);
      if slot.Err? {
        return Err(slot.error);
      }
      ram.ram[slot.value] := v;
      return Ok(());
    }

    /** `get_rp`. */
    function GetRp(rp: RegisterPair): (w: Word)
      requires Valid() && rp != SP
      reads cpu, cpu.registers
      ensures w == CoreMachine.GetRp(cpu.View(), rp)
    {
      var (h, l) := Split(rp);
      Arith.ToU16(cpu.Get(l), cpu.Get(h))
    }

    /** `read(src)`. */
    function Read(src: Register): (r: Result<Byte, MemoryError>)
      requires Valid()
      reads cpu, cpu.registers, ram, ram.ram
      ensures r == CoreMachine.Read(View(), src)
    {
      if src == M then Get(GetRp(HL)) else Ok(cpu.Get(src))
    }

    /** `*self.write(dst)? = v`: `mvi`. */
    method Write(dst: Register, v: Byte) returns (r: Result<(), MemoryError>)
      requires Valid() && WriteDefined(View(), dst)
      modifies cpu.registers, ram.ram
      ensures var st := CoreMachine.Write(old(View()), dst, v); r == st.result && View() == st.next
    {
      if dst == M {
        r := Store(GetRp(HL), v);
      } else {
        cpu.Set(dst, v);
        r := Ok(());
      }
    }

    /** `mov`: read the source, then write the destination. */
    method Mov(dst: Register, src: Register) returns (r: Result<(), MemoryError>)
      requires Valid() && MovDefined(View(), dst, src)
      modifies cpu.registers, ram.ram
      ensures var st := Move(old(View()), dst, src); r == st.result && View() == st.next
    {
      var v := Read(src);
      if v.Err? {
        return Err(v.error);
      }
      r := Write(dst, v.value);
    }

    // ------------------------------------------------------------ flags

    /** `z`. */
    predicate IsZero()
      requires Valid()
      reads cpu, cpu.registers
      ensures IsZero() <==> CoreMachine.Z(cpu.View())
    {
      cpu.conditionFlag == 0
    }

    /** `s`: the result byte as an `i8` is negative, that is, its bit 7 is set. */
    predicate IsNegative()
      requires Valid()
      reads cpu, cpu.registers
      ensures IsNegative() <==> Bit(cpu.conditionFlag, 7) == 1
    {
      SignIsBit7(cpu.View());
      AsI8(cpu.conditionFlag) < 0
    }

    /** `p`: the result byte is even. */
    predicate IsEven()
      requires Valid()
      reads cpu, cpu.registers
      ensures IsEven() <==> Bit(cpu.conditionFlag, 0) == 0
    {
      ParityIsBit0(cpu.View());
      cpu.conditionFlag % 2 == 0
    }

    // ------------------------------------------------------------ helpers

    /** `push`. */
    method Push(rp: RegisterPair) returns (r: Result<(), MemoryError>)
      requires Valid() && PushDefined(View(), rp)
      modifies cpu, ram.ram
      ensures var st := PushPair(old(View()), rp); r == st.result && View() == st.next
    {
      var (h, l) := Arith.ToU8(GetRp(rp));
      r := Store(cpu.sp - 2, l);
      if r.Err? {
        return;
      }
      r := Store(cpu.sp - 1, h);
      if r.Err? {
        return;
      }
      cpu.sp := cpu.sp - 2;
    }

    /** `cpi`. */
    method Cpi(byte: Byte)
      requires Valid()
      modifies cpu
      ensures Valid() && cpu.View() == CompareImmediate(old(cpu.View()), byte)
    {
      var (cf, cy, ac) := SubU8(cpu.Get(A), byte);
      cpu.conditionFlag := cf;
      cpu.cy := cy;
      cpu.ac := ac;
    }

    /** `ret`. */
    method Ret() returns (r: Result<Word, MemoryError>)
      requires Valid() && RetDefined(View())
      modifies cpu
      ensures var st := Return(old(View())); r == st.result && View() == st.next
    {
      var l := ram.Get(cpu.sp);
      if l.Err? {
        return Err(l.error);
      }
      var h := ram.Get(cpu.sp + 1);
      if h.Err? {
        return Err(h.error);
      }
      cpu.sp := cpu.sp + 2;
      return Ok(Arith.ToU16(l.value, h.value));
    }

    /** `dcr`. */
    method Dcr(reg: Register)
      requires Valid() && reg != M
      modifies cpu, cpu.registers
      ensures Valid() && cpu.View() == Decrement(old(cpu.View()), reg)
    {
      var (val, _, ac) := SubU8(cpu.Get(reg), 1);
      cpu.Set(reg, val);
      cpu.conditionFlag := val;
      cpu.ac := ac;
    }

    /** `inx`. */
    method Inx(rp: RegisterPair)
      requires Valid() && InxDefined(cpu.View(), rp)
      modifies cpu.registers
      ensures Valid() && cpu.View() == Increment(old(cpu.View()), rp)
    {
      var (h, l) := Split(rp);
      if cpu.Get(l) == 255 {
        cpu.Set(l, 0);
        cpu.Set(h, cpu.Get(h) + 1);
      } else {
        cpu.Set(l, cpu.Get(l) + 1);
      }
    }

    /** `lda` (and `ldax`, at the pair's address). */
    method Lda(addr: Word) returns (r: Result<(), MemoryError>)
      requires Valid()
      modifies cpu.registers
      ensures var st := LoadA(old(View()), addr); r == st.result && View() == st.next
    {
      var v := Get(addr);
      if v.Err? {
        return Err(v.error);
      }
      cpu.Set(A, v.value);
      return Ok(());
    }

    /** `dad`, as intended: `HL` takes the 16-bit sum of the pair and `HL`. */
    method Dad(rp: RegisterPair)
      requires Valid() && rp != SP
      modifies cpu, cpu.registers
      ensures Valid() && cpu.View() == DoubleAdd(old(cpu.View()), rp)
    {
      var (val, cy) := Arith.AddU16(GetRp(rp), GetRp(HL));
      var (h, l) := Arith.ToU8(val);
      cpu.cy := cy;
      cpu.Set(H, h);
      cpu.Set(L, l);
    }

    /** `lxi`. */
    method Lxi(rp: RegisterPair, lb: Byte, hb: Byte)
      requires Valid()
      modifies cpu, cpu.registers
      ensures Valid() && cpu.View() == LoadImmediate(old(cpu.View()), rp, lb, hb)
    {
      if rp == SP {
        cpu.sp := Arith.ToU16(lb, hb);
      } else {
        var (h, l) := Split(rp);
        cpu.Set(h, hb);
        cpu.Set(l, lb);
      }
    }

    /** `call`. */
    method Call(addr: Word, pc: Word) returns (r: Result<Word, MemoryError>)
      requires Valid() && CallDefined(View())
      modifies cpu, ram.ram
      ensures var st := CallAt(old(View()), addr, pc); r == st.result && View() == st.next
    {
      var (h, l) := Arith.ToU8(pc);
      var r1 := Store(cpu.sp - 1, h);
      if r1.Err? {
        return Err(r1.error);
      }
      var r2 := Store(cpu.sp - 2, l);
      if r2.Err? {
        return Err(r2.error);
      }
      cpu.sp := cpu.sp - 2;
      return Ok(addr);
    }

    // ------------------------------------------------------------ execute_instruction

    /** `execute_instruction(instruction, pc)`, with `instruction.cycles()`
        passed in as `cycles`: the next program counter. */
    method ExecuteInstruction(i: Instruction, pc: Word, cycles: nat) returns (r: Result<Word, MemoryError>)
      requires Valid() && ExecuteDefined(View(), i, pc, cycles)
      modifies cpu, cpu.registers, ram.ram
      ensures var st := Execute(old(View()), i, pc, cycles); r == st.result && View() == st.next
    {
      var next := pc + cycles;
      if i.Nop? {
        r := Ok(next);
      } else if i.Jnz? {
        r := Ok(if !IsZero() then i.addr else next);
      } else if i.Push? {
        var res := Push(i.pair);
        r := if res.Err? then Err(res.error) else Ok(next);
      } else if i.Cpi? {
        Cpi(i.byte);
        r := Ok(next);
      } else if i.Ret? {
        r := Ret();
      } else {
        r := DataArm(i, next);
      }
    }

    /** The arms of `execute_instruction` that neither jump nor use the
        stack: they answer `next` unless a memory access fails. */
    method DataArm(i: Instruction, next: Word) returns (r: Result<Word, MemoryError>)
      requires Valid() && ArmDefined(View(), i)
      modifies cpu, cpu.registers, ram.ram
      ensures var st := CoreMachine.DataArm(old(View()), i, next); r == st.result && View() == st.next
    {
      if i.Dcr? {
        Dcr(i.reg);
        r := Ok(next);
      } else if i.Inx? {
        Inx(i.pair);
        r := Ok(next);
      } else if i.Ldax? {
        var res := Lda(GetRp(i.pair));
        r := if res.Err? then Err(res.error) else Ok(next);
      } else if i.Lda? {
        var res := Lda(i.addr);
        r := if res.Err? then Err(res.error) else Ok(next);
      } else if i.Dad? {
        Dad(i.pair);
        r := Ok(next);
      } else if i.Lxi? {
        Lxi(i.pair, i.low, i.high);
        r := Ok(next);
      } else if i.Jmp? {
        r := Ok(i.addr);
      } else if i.Call? {
        r := Call(i.addr, next);
      } else if i.Mvi? {
        var res := Write(i.dst, i.byte);
        r := if res.Err? then Err(res.error) else Ok(next);
      } else if i.Mov? {
        var res := Mov(i.dst, i.src);
        r := if res.Err? then Err(res.error) else Ok(next);
      } else {
        r := Ok(next);
      }
    }
  }
}
