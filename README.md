# emu8080 in Dafny

A model of the core of `emu8080`, an Intel 8080 emulator written in Rust
that runs Space Invaders in a browser. The model covers four parts of the
program:

- **the instruction decoder** (`src/op_code.rs`): op codes become
  `Instruction`s, with each instruction's size and cycle count;
- **the emulator proper** (`src/cpu_state.rs`): the CPU with its eight
  registers and flags byte, the RAM with its write-protected ROM sections,
  and `System::execute`, which runs one instruction;
- **the earlier prototype** (`core/src/cpu_state.rs`): a seven-register CPU
  with a separate result byte for its flags, a memory split into ROM and RAM,
  and `execute_instruction` for the fifteen instructions it implements;
- **the browser front end's emulator logic** (`src/wasm.rs`): the Space
  Invaders I/O ports with the cabinet's shift register, and
  `bitmap_to_rgba`, which turns the one-bit video memory into the rotated
  RGBA image the canvas draws. The starting input bits and the keyboard
  bindings that `space_invaders` installs (`src/wasm.rs:294-324`) belong to
  the browser set-up around these ports; the model states them as extras
  (`Wasm.StartingInputs`, `Wasm.KeyBit`, `Wasm.KeyBits`,
  `Wasm.KeyPressRelease`), on top of the port operations they call.

Every part has two levels, as the Rust code has them:

- **Values.** Datatypes and functions say what each operation computes:
  - `OpCode` for the decoder;
  - `Arith` for the 8-bit helpers and flags;
  - `Memory` for `Ram`;
  - `Machine` for `System`;
  - `CoreMachine` for the prototype;
  - the `Ports` functions in `Wasm`.
- **State.** Classes with the Rust structs' fields carry out the operations
  in place:
  - `CpuState.Cpu`, `CpuState.Ram` and `CpuState.System`;
  - `CoreCpuState.Cpu`, `CoreCpuState.Ram` and `CoreCpuState.System`;
  - `Wasm.SpaceInvadersPorts`.

  Each method is proved to leave exactly the state the value-level function
  gives. `Wasm.BitmapToRgba` keeps the source's nested loops over an array
  and is proved against the reference image `Wasm.Rgba`.

Properties are stated as lemmas (modules `MachineProps` and
`CoreMachineProps`, and inside `OpCode`, `Arith`, `Memory` and `Wasm`):

- round trips: `push`/`pop`, `call`/`ret`, `to_u8`/`to_u16`, the rotates,
  and setting and clearing an input bit;
- the flags each arithmetic instruction leaves;
- the ROM write protection and the memory map;
- where the program counter goes after each kind of instruction;
- the shift-register window;
- the pixel layout of the rotated screen;
- the test cases of the Rust test modules, as concrete lemmas.

Rust panics (`unwrap` on a bad index, `u16` overflow in debug builds, a
`Register::M` passed where a CPU register is required) become preconditions
of the members whose code can panic. The `InOut` device is the oracle
`io: Byte -> Byte` for reads. Writes are returned from `Execute` as an
optional `(port, value)` pair.

## Model

| member | source | states |
|---|---|---|
| OpCode.Index | src/op_code.rs:4-15 | every register but `M` has a slot below 8 in the register file |
| OpCode.Split | src/op_code.rs:26-37 | `PSW`, `B`, `D` and `H` split into a high register at an even slot and the low register in the next slot; `SP` panics (excluded by the precondition) |
| OpCode.ReadAt | src/op_code.rs:133-156 | `read_at` fails with `EndOfDataInstr` exactly when `pc` is past the data and with `EndOfDataParam` exactly when the op code's arguments run past the end; `WrongInstruction` never happens |
| OpCode.ReadAtSize | src/op_code.rs:133-156 | a decoded instruction's `size` is the argument size of its op code and the instruction fits inside the data |
| OpCode.Cycles | src/op_code.rs:158-230 | every instruction takes 4, 5, 7, 10, 11, 13, 16, 17 or 18 cycles |
| OpCode.Size | src/op_code.rs:232-315 | every instruction is 1, 2 or 3 bytes long |
| OpCode.TwoArgOpCode | src/op_code.rs:317-349 | a three-byte instruction's address is `arg2 * 256 + arg1` (little-endian); `lxi` keeps the low and high bytes in order |
| OpCode.TwoArgSize | src/op_code.rs:317-349 | every op code with argument size 3 decodes to an instruction of size 3 |
| OpCode.OneArgOpCode | src/op_code.rs:351-374 | every op code with argument size 2 decodes to an instruction of size 2 |
| OpCode.NoArgIsOneByte | src/op_code.rs:376-580 | every op code decodes without arguments to a one-byte instruction |
| OpCode.OpCodeToArgSize | src/op_code.rs:583-832 | every op code has argument size 1, 2 or 3, so `WrongInstruction` is never returned |
| OpCode.UnlistedDecoding | src/op_code.rs:829 | the twelve op codes without an arm (0x08, 0x10, …, 0xfd) take the wildcard arms: size 1 and `Nop` |
| OpCode.UnlistedIsNop | src/op_code.rs:133-156 | `read_at` on an unlisted op code answers the one-byte `Nop` |
| OpCode.RegisterField | src/op_code.rs:420-483 | each 3-bit register field names the register whose code it is (B, C, D, E, H, L, M, A) |
| OpCode.MovDecoding | src/op_code.rs:420-483 | op code `0x40 + 8 * dst + src` is the one-byte `Mov(dst, src)` for every pair but `M, M` |
| OpCode.HltDecoding | src/op_code.rs:474 | op code 0x76 (where `mov m, m` would be) is the one-byte `Hlt` |
| OpCode.MovCycles | src/op_code.rs:208-223 | `mov` takes 7 cycles when either operand is memory and 5 otherwise |
| Arith.ToU16IsShiftOr | src/cpu_state.rs:43-45 | `to_u16(l, h)` is `(h << 8) \| l` |
| Arith.ToU8IsShiftAnd | src/cpu_state.rs:52-56 | `to_u8(x)` is `(x >> 8, x & 0xff)` |
| Arith.ToU8OfToU16 | src/cpu_state.rs:43-56 | splitting a joined word gives back its two bytes |
| Arith.ToU16OfToU8 | src/cpu_state.rs:43-56 | joining the two halves of a word gives back the word |
| Arith.AddU16 | src/cpu_state.rs:47-50 | `add_u16` is the sum modulo 2^16, with a carry exactly when the true sum exceeds 0xffff |
| Arith.WrappingSub | src/cpu_state.rs:803-809 | `wrapping_sub` is the difference, plus 0x100 when it would be negative |
| Arith.Signed | src/cpu_state.rs:116-120 | `byte as i8` is negative exactly when bit 7 is set |
| Arith.RunWithCarry | src/cpu_state.rs:795-809 | the adder and subtractor give the sum or difference with the carry-in, modulo 256; the auxiliary carry comes from the low nibbles of `a` and `b` (of `a` and `!b` for the subtractor) |
| Arith.AddCarry | src/cpu_state.rs:795-801 | the adder's carry (`out < a`) is set exactly when the true sum exceeds a byte, except when `b` plus the carry-in is 0x100 |
| Arith.SubBorrow | src/cpu_state.rs:803-809 | the subtractor's borrow (`out > a`) is set exactly when `a` is below `b` plus the carry-in, except when that is 0x100 |
| Arith.SubUndoesAdd | src/cpu_state.rs:795-809 | subtracting what was added, with the same carry-in, gives `a` back |
| Arith.SubExamples | src/cpu_state.rs:828-843 | 197 − 98 is 99 without borrow and 12 − 15 is 253 with borrow |
| Arith.LowNibbleIsMask | src/cpu_state.rs:798 | `x % 16` is `0x0f & x` |
| Arith.LowNibbleOfComplement | src/cpu_state.rs:806 | the low nibble of `!x` is `0x0f & !x` |
| Arith.ComplementNibble | src/cpu_state.rs:806 | the low nibble of `!b` is 15 minus that of `b` |
| Arith.RunBitwiseBits | src/cpu_state.rs:767-784 | bit `i` of `&`, `\|` and `^` is the AND, OR and XOR of bit `i` of the operands |
| Arith.IsSetIsAnd | src/cpu_state.rs:96-114 | a flag reads as set exactly when `flags & (1 << flag)` is non-zero |
| Arith.SetFlagIsOr | src/cpu_state.rs:146-148 | `set` is `flags \|= 1 << flag` |
| Arith.ClearFlagIsAndNot | src/cpu_state.rs:150-152 | `clear` is `flags &= !(1 << flag)` |
| Arith.FlagBits | src/cpu_state.rs:146-152 | `set` and `clear` change only the flag's own bit, to 1 or to 0 |
| Arith.ToggleBits | src/cpu_state.rs:138-144 | `toggle(flag, value)` sets the flag's bit to `value` and keeps every other bit |
| Arith.ToggleIsSet | src/cpu_state.rs:138-144 | after `toggle(flag, value)` the flag reads `value` and every other flag reads as before |
| Arith.ToggleSame | src/cpu_state.rs:138-144 | toggling a flag to the value it has changes nothing |
| Arith.UpdateFlagsBits | src/cpu_state.rs:116-120 | `update_flags` sets `S` for a negative byte, `Z` for zero and `P` for even parity, and keeps `Cy` and `Ac` |
| Arith.UpdateFlagsOtherBits | src/cpu_state.rs:116-120 | `update_flags` keeps every bit but those of `S`, `Z` and `P` |
| Arith.UpdateFlagsWithCarriesBits | src/cpu_state.rs:127-131 | `update_flags_with_carries` also sets `Cy` and `Ac` to the given values |
| Arith.UpdateFlagsWithCarriesOtherBits | src/cpu_state.rs:127-131 | `update_flags_with_carries` keeps the three unused bits 1, 3 and 5 |
| Arith.UpdateFlagsWithCarryBits | src/cpu_state.rs:122-125 | `update_flags_with_carry(byte, false)` clears `Cy`, keeps `Ac` and sets `Z` for zero |
| Arith.RotateBits | src/cpu_state.rs:481-507 | `rlc` and `ral` move every bit up by one, `rrc` and `rar` down by one; the bit shifted out goes to `Cy`; the bit shifted in is the one shifted out (`rlc`, `rrc`) or the old carry (`ral`, `rar`) |
| Arith.RarUndoesRal | src/cpu_state.rs:481-507 | `rar` after `ral` restores the accumulator and the flags |
| Arith.RrcUndoesRlc | src/cpu_state.rs:572-576 | `rrc` after `rlc` restores the accumulator |
| Arith.AddLowBytes | src/cpu_state.rs:846-879 | the first step of the manual's BCD example: 0x85 + 0x36 is 0xbb, leaving flags 0x84 |
| Arith.DaaLowBytes | src/cpu_state.rs:846-879 | `daa` turns 0xbb with flags 0x84 into 0x21 with flags 0x05 |
| Arith.AddHighBytes | src/cpu_state.rs:846-879 | 0x29 + 0x49 with the carry set is 0x73 with the auxiliary carry, leaving flags 0x10 |
| Arith.DaaHighBytes | src/cpu_state.rs:846-879 | `daa` turns 0x73 with flags 0x10 into 0x79 with the flags cleared |
| Arith.AddDouble | src/cpu_state.rs:882-896 | 0x88 + 0x88 is 0x10 with both carries, leaving flags 0x11 |
| Arith.DaaAfterDouble | src/cpu_state.rs:882-896 | `daa` turns 0x10 with flags 0x11 into 0x76 with the flags cleared |
| Arith.Complement | src/cpu_state.rs:334 | `cma` stores `!a` |
| Memory.RamGetMut | src/cpu_state.rs:237-248 | a slot granted for writing is the address itself, inside the RAM |
| Memory.RamStore | src/cpu_state.rs:237-248 | a successful store through `get_mut` leaves the byte readable at its address, changes no other byte and keeps every ROM byte |
| Memory.FirstOverlap | src/cpu_state.rs:206-217 | the ROM section `register_rom` reports is the first registered one that overlaps the new one |
| Memory.NewRamValid | src/cpu_state.rs:187-193 | a new RAM has the requested size, no ROM section, and reads 0 everywhere |
| Memory.RegisterRomResult | src/cpu_state.rs:195-221 | `register_rom` fails with `TooLongRomSection` exactly when the ROM does not fit, and with `OverlappingRomSections` (naming the first overlapping section) exactly when it fits but overlaps; otherwise it appends the section, copies the ROM in and changes nothing else |
| Memory.RamGetMutResult | src/cpu_state.rs:237-248 | `get_mut` refuses addresses inside a ROM section when ROM writes are off (`ReadOnlyWrite`), then addresses past the end (`OutOfBoundRead`), and grants every other address |
| Memory.RamGetResult | src/cpu_state.rs:223-235 | `get` succeeds exactly below the RAM size and `get_slice` up to it; the slice at `addr` is the rest of the RAM |
| Memory.RomBoundaries | src/cpu_state.rs:898-932 | the `rom_boundaries` test: sections (50, 10) and (60, 20) in 100 bytes refuse writes to 50-79 and grant 0-49 and 80-99; 100 is out of bounds |
| Memory.TwoSections | src/cpu_state.rs:898-932 | any RAM with those two sections answers the `rom_boundaries` test as it expects |
| Memory.RomOverlap | src/cpu_state.rs:933-942 | the `rom_overlap` test: a section at 55 of length 20 overlaps (50, 10) and is refused with `OverlappingRomSections(50, 10, 55, 20)` |
| Machine.StoreByte | src/cpu_state.rs:543-546 | storing through `get_mut` keeps every ROM byte; on failure nothing changes; on success the CPU is kept and the byte reads back |
| Machine.Store | src/cpu_state.rs:735-740 | a store to a register or to `M` never changes a ROM byte |
| Machine.PushPair | src/cpu_state.rs:422-428 | `push` never changes a ROM byte |
| Machine.PopPair | src/cpu_state.rs:430-436 | `pop` leaves memory unchanged |
| Machine.CallAt | src/cpu_state.rs:661-668 | `call` never changes a ROM byte and answers its target |
| Machine.Return | src/cpu_state.rs:584-589 | `ret` leaves memory unchanged |
| Machine.CallIf | src/cpu_state.rs:406-412 | a conditional call never changes a ROM byte |
| Machine.ReturnIf | src/cpu_state.rs:414-420 | a conditional return leaves memory unchanged |
| Machine.IncDec | src/cpu_state.rs:623-629 | `inr` and `dcr` never change a ROM byte |
| Machine.BinRegister | src/cpu_state.rs:559-565 | register arithmetic leaves memory unchanged |
| Machine.BinRegisterCarry | src/cpu_state.rs:452-455 | register arithmetic with carry leaves memory unchanged |
| Machine.LogicRegister | src/cpu_state.rs:548-551 | register logic leaves memory unchanged |
| Machine.CompareRegister | src/cpu_state.rs:567-570 | `cmp` leaves memory unchanged |
| Machine.LoadAcc | src/cpu_state.rs:631-639 | `lda` and `ldax` leave memory unchanged |
| Machine.Move | src/cpu_state.rs:675-678 | `mov` never changes a ROM byte |
| Machine.LoadHL | src/cpu_state.rs:509-515 | `lhld` leaves memory unchanged |
| Machine.StoreHL | src/cpu_state.rs:517-521 | `shld` never changes a ROM byte |
| Machine.SwapStackHL | src/cpu_state.rs:689-697 | `xthl` never changes a ROM byte |
| Machine.StackArm | src/cpu_state.rs:335-336 | the stack arms (`push`, `pop`, `xthl`) keep the ROM and, when they succeed, answer the address after the instruction with its cycles |
| Machine.DirectArm | src/cpu_state.rs:343-372 | the direct-address arms keep the ROM and, when they succeed, answer the address after the instruction with its cycles |
| Machine.MoveArm | src/cpu_state.rs:340-347 | the `mov`, `mvi`, `inr` and `dcr` arms keep the ROM and, when they succeed, answer the address after the instruction with its cycles |
| Machine.AluArm | src/cpu_state.rs:352-369 | the register and immediate ALU arms leave memory unchanged and, when they succeed, answer the address after the instruction with its cycles |
| Machine.Arm | src/cpu_state.rs:301-383 | no arm of `execute` changes a ROM byte |
| Machine.JumpArm | src/cpu_state.rs:314-383 | no jump, sequential or restart arm changes a ROM byte |
| Machine.Run | src/cpu_state.rs:297-387 | running an arm and moving the program counter never changes a ROM byte |
| Machine.Next | src/cpu_state.rs:299 | the address after the instruction lies one to three bytes past the program counter |
| Machine.Rewound | src/cpu_state.rs:391 | `pc -= size()`: the program counter lies `size` bytes before the old one, and memory is kept |
| MachineProps.LoadPairValue | src/cpu_state.rs:651-659 | `lxi` leaves the pair (or `sp`) reading `hb * 256 + lb` |
| MachineProps.IncrementPairValue | src/cpu_state.rs:591-605 | `inx` is defined exactly when the pair is below 0xffff (a higher byte would overflow) and adds one to it |
| MachineProps.DecrementPairValue | src/cpu_state.rs:607-621 | `dcx` subtracts one from the pair modulo 2^16 |
| MachineProps.DecrementUndoesIncrement | src/cpu_state.rs:591-621 | `dcx` after `inx` gives back the CPU |
| MachineProps.AddPairValue | src/cpu_state.rs:641-649 | `dad` leaves `HL` holding the 16-bit sum, sets `Cy` exactly when it wrapped, and keeps every other flag |
| MachineProps.SwapDEHLSwaps | src/cpu_state.rs:680-687 | `xchg` swaps `DE` and `HL`, and twice changes nothing |
| MachineProps.PswIsPair | src/cpu_state.rs:76-78 | `psw` is the `PSW` pair: `A` above the flags |
| MachineProps.AddImmediateFlags | src/cpu_state.rs:438-443 | `adi` leaves the sum modulo 256, sets `Cy` exactly on overflow and `Z` exactly for a zero result |
| MachineProps.SubImmediateFlags | src/cpu_state.rs:438-443 | `sui` leaves the difference modulo 256, sets `Cy` exactly on a borrow and `Z` exactly when the operands are equal |
| MachineProps.CompareFlags | src/cpu_state.rs:578-582 | `cpi` keeps `A`, sets `Z` exactly when `A` equals the byte and `Cy` exactly when `A` is smaller |
| MachineProps.LogicImmediateFlags | src/cpu_state.rs:553-557 | `ani`, `ori` and `xri` store the bitwise result, clear `Cy`, keep `Ac` and set `Z` for zero |
| MachineProps.AndSelf | src/cpu_state.rs:553-557 | `ana a` keeps `A` and clears `Cy` |
| MachineProps.PushStores | src/cpu_state.rs:422-428 | a successful `push` lowers `sp` by 2 and stores the pair's low byte at `sp - 2` and high byte at `sp - 1` |
| MachineProps.PushThenPop | src/cpu_state.rs:422-436 | `pop` after `push` into the same pair restores the CPU |
| MachineProps.CallStores | src/cpu_state.rs:661-668 | a successful `call` lowers `sp` by 2 and stores the return address little-endian below the old `sp` |
| MachineProps.CallThenReturn | src/cpu_state.rs:584-589 | `ret` after `call` answers the return address and restores the CPU |
| MachineProps.IncDecFlags | src/cpu_state.rs:623-629 | `O::run(v, 1)` gives `v ± 1` modulo 256; S, Z and P follow it, AC comes from the low nibble, `Cy` is kept |
| MachineProps.IncDecRegister | src/cpu_state.rs:623-629 | `inr r`/`dcr r` step the register by one modulo 256, leave the flags byte `IncDecFlags` describes, and keep the memory and every other register |
| MachineProps.IncDecMemory | src/cpu_state.rs:623-629 | `inr m`/`dcr m` step the byte at HL with those flags and keep every other byte and register; a protected or missing byte is the `get_mut` error and changes nothing |
| MachineProps.MoveCopies | src/cpu_state.rs:675-678 | `mov` fails exactly when the source read or the destination write fails, then changes nothing; otherwise the destination (`M` included) reads what the source read and nothing else changes |
| MachineProps.LoadAccLoads | src/cpu_state.rs:631-639 | `lda`/`ldax` succeed exactly inside the memory, then `A` holds the byte there and no other register changes; otherwise `OutOfBoundRead` and nothing changes |
| MachineProps.LoadHLLoads | src/cpu_state.rs:509-515 | `lhld` succeeds exactly when `addr + 1` is inside the memory, then HL is the little-endian word there; otherwise nothing changes |
| MachineProps.StoreHLStores | src/cpu_state.rs:517-521 | `shld` keeps the CPU and, on success, leaves `L` at the address and `H` after it |
| MachineProps.StoreThenLoadHL | src/cpu_state.rs:509-521 | `lhld` at the address of a successful `shld` gives HL back and changes nothing |
| MachineProps.SwapStackHLSwaps | src/cpu_state.rs:689-697 | a successful `xthl` leaves `L`, `H` at `sp`, `sp + 1`, loads the old stack bytes into `L`, `H`, and changes nothing else |
| MachineProps.SwapStackHLTwice | src/cpu_state.rs:689-697 | two successful `xthl` in a row give back the machine |
| MachineProps.SequentialArm | src/cpu_state.rs:301-383 | every arm that is not a jump, call, return, restart or `pchl` answers the address after the instruction with its cycles |
| MachineProps.ExecuteSequential | src/cpu_state.rs:297-387 | those instructions, when they succeed, return their cycles and move `pc` past themselves |
| MachineProps.ExecuteHalt | src/cpu_state.rs:383 | `hlt` returns `None` and changes nothing |
| MachineProps.ExecuteKeepsRom | src/cpu_state.rs:297-387 | no instruction changes a ROM byte |
| MachineProps.ExecuteJump | src/cpu_state.rs:314 | `jmp` moves `pc` to its address in 10 cycles and changes nothing else |
| MachineProps.ArmConditionalJump | src/cpu_state.rs:315-322 | a conditional jump goes to its address when its condition holds and past itself otherwise, changing nothing |
| MachineProps.ExecuteJumpIfNotZero | src/cpu_state.rs:316 | `jnz` goes to its address exactly when `Z` is clear |
| MachineProps.ArmConditionalCall | src/cpu_state.rs:305-312 | a conditional call is `call_test` with its flag condition |
| MachineProps.CallIfCycles | src/cpu_state.rs:406-412 | `call_test` adds 5 cycles and calls when the test holds, and otherwise answers `(pc, 0)` and changes nothing |
| MachineProps.ArmConditionalReturn | src/cpu_state.rs:325-332 | a conditional return is `ret_test` with its flag condition |
| MachineProps.ReturnIfCycles | src/cpu_state.rs:414-420 | `ret_test` returns and adds 5 cycles when the test holds, and otherwise answers `(pc, 0)` and changes nothing |
| MachineProps.ExecuteReturn | src/cpu_state.rs:324 | `ret` pops `pc` from the stack in 10 cycles |
| MachineProps.ArmCall | src/cpu_state.rs:304 | `call` goes to its address and pushes the return address |
| MachineProps.ArmRestart | src/cpu_state.rs:382 | `rst v` goes to `8 * v` and pushes the return address |
| MachineProps.ExecuteOut | src/cpu_state.rs:358 | `out port` hands `(port, A)` to the device and changes only `pc` |
| MachineProps.ExecuteIn | src/cpu_state.rs:359 | `in port` loads the device's byte into `A` |
| MachineProps.ProcessDisabled | src/cpu_state.rs:389-396 | with interrupts off, `process` returns `Some(0)` and changes nothing |
| MachineProps.ProcessEnabled | src/cpu_state.rs:389-396 | with interrupts on, `process` steps `pc` back over the instruction and runs it, so a sequential instruction leaves `pc` where it was |
| MachineProps.TestSystem | src/cpu_state.rs:819-825 | the test fixture: a 0x1000-byte RAM, `pc` 0, and `lxi sp, 0xff00` taking 10 cycles |
| MachineProps.ExecuteMoveImmediate | src/cpu_state.rs:346 | `mvi r, v` stores `v` in 7 cycles |
| MachineProps.SubtractPage13 | src/cpu_state.rs:828-843 | the `overflow_sub_page_13` test: `sui 98` from 197 gives 99 without carry, `sui 15` from 12 gives 253 with carry |
| CpuState.Cpu.constructor | src/cpu_state.rs:59-66 | `Cpu::new(pc)`: zero registers, `sp` 0xf000, interrupts off |
| CpuState.Cpu.Get | src/cpu_state.rs:164-169 | reads the register's slot |
| CpuState.Cpu.Jump | src/cpu_state.rs:385 | sets `pc` and nothing else |
| CpuState.Cpu.SetRegister | src/cpu_state.rs:171-177 | writes the register's slot and nothing else |
| CpuState.Cpu.Flags | src/cpu_state.rs:88-90 | the flags are register `F` |
| CpuState.Cpu.Psw | src/cpu_state.rs:76-78 | `psw` joins `A` (high) and the flags (low) |
| CpuState.Cpu.IsFlag | src/cpu_state.rs:96-114 | `z`, `s`, `p`, `cy` and `ac` read their flag bit |
| CpuState.Cpu.Set | src/cpu_state.rs:146-148 | `set` changes the flags byte as `SetFlag` does, and nothing else |
| CpuState.Cpu.Clear | src/cpu_state.rs:150-152 | `clear` changes the flags byte as `ClearFlag` does, and nothing else |
| CpuState.Cpu.Toggle | src/cpu_state.rs:138-144 | `toggle` sets or clears the flag |
| CpuState.Cpu.ClearAll | src/cpu_state.rs:154-156 | `clear_all` zeroes the flags, so every flag reads clear |
| CpuState.Cpu.UpdateFlags | src/cpu_state.rs:116-120 | the three toggles of `update_flags` give `Arith.UpdateFlags` |
| CpuState.Cpu.UpdateFlagsWithCarry | src/cpu_state.rs:122-125 | gives `Arith.UpdateFlagsWithCarry` |
| CpuState.Cpu.UpdateFlagsWithCarries | src/cpu_state.rs:127-131 | gives `Arith.UpdateFlagsWithCarries` |
| CpuState.Cpu.UpdateFlagsWithAc | src/cpu_state.rs:133-136 | gives `Arith.UpdateFlagsWithAc` |
| CpuState.Cpu.GetRp | src/cpu_state.rs:158-162 | `get_rp` joins the pair's two registers, high first |
| CpuState.Ram.constructor | src/cpu_state.rs:187-193 | `Ram::new` is `NewRam` |
| CpuState.Ram.Get | src/cpu_state.rs:223-228 | `get` is `RamGet` |
| CpuState.Ram.GetSlice | src/cpu_state.rs:230-235 | `get_slice` is `RamGetSlice` |
| CpuState.Ram.GetMut | src/cpu_state.rs:237-248 | the loop over the ROM sections answers `RamGetMut` |
| CpuState.Ram.RegisterRom | src/cpu_state.rs:195-221 | the overlap loop and the copy give `Memory.RegisterRom`; on failure nothing changes |
| CpuState.System.constructor | src/cpu_state.rs:266-271 | `System::new(ram, pc)` pairs a new CPU with the RAM |
| CpuState.System.NextInstruction | src/cpu_state.rs:293-295 | decodes at `pc` in the RAM; a decoded instruction fits in the RAM |
| CpuState.System.GetRp | src/cpu_state.rs:717-722 | `SP` reads the stack pointer and the other pairs their registers |
| CpuState.System.Get | src/cpu_state.rs:728-733 | `M` reads memory at `HL` and other registers read the CPU |
| CpuState.System.StoreByte | src/cpu_state.rs:543-546 | `*self.ram.get_mut(addr)? = v` as `Machine.StoreByte` |
| CpuState.System.Write | src/cpu_state.rs:735-740 | a store through `get_mut(reg)` as `Machine.Store` |
| CpuState.System.Push | src/cpu_state.rs:422-428 | as `Machine.PushPair`, including the low byte stored before the high byte's store fails |
| CpuState.System.Pop | src/cpu_state.rs:430-436 | as `Machine.PopPair` |
| CpuState.System.CallAt | src/cpu_state.rs:661-668 | as `Machine.CallAt` |
| CpuState.System.Ret | src/cpu_state.rs:584-589 | as `Machine.Return` |
| CpuState.System.CallTest | src/cpu_state.rs:406-412 | as `Machine.CallIf` |
| CpuState.System.RetTest | src/cpu_state.rs:414-420 | as `Machine.ReturnIf` |
| CpuState.System.Xthl | src/cpu_state.rs:689-697 | as `Machine.SwapStackHL`: on success HL and the word at `sp` trade places and nothing else changes (`MachineProps.SwapStackHLSwaps`) |
| CpuState.System.LoadAcc | src/cpu_state.rs:631-639 | as `Machine.LoadAcc`: `A` takes the byte at the address, or the read fails and nothing changes (`MachineProps.LoadAccLoads`) |
| CpuState.System.Lhld | src/cpu_state.rs:509-515 | as `Machine.LoadHL`: `L` and `H` take the two bytes at the address (`MachineProps.LoadHLLoads`) |
| CpuState.System.Shld | src/cpu_state.rs:517-521 | as `Machine.StoreHL`: `L` and `H` go to the address and the byte after it, and `lhld` there reads HL back (`MachineProps.StoreHLStores`, `MachineProps.StoreThenLoadHL`) |
| CpuState.System.Mov | src/cpu_state.rs:675-678 | as `Machine.Move`: the destination, `M` included, reads what the source read, and nothing else changes (`MachineProps.MoveCopies`) |
| CpuState.System.IncDec | src/cpu_state.rs:623-629 | as `Machine.IncDec`: the register or byte at HL steps by one modulo 256, `Cy` is kept and S, Z, P and AC follow the result (`MachineProps.IncDecRegister` with `MachineProps.IncDecFlags`, `MachineProps.IncDecMemory`) |
| CpuState.System.BinI | src/cpu_state.rs:438-443 | as `Machine.BinImmediate` |
| CpuState.System.BinICy | src/cpu_state.rs:445-450 | as `Machine.BinImmediateCarry` |
| CpuState.System.OpI | src/cpu_state.rs:553-557 | as `Machine.LogicImmediate` |
| CpuState.System.Cpi | src/cpu_state.rs:578-582 | as `Machine.Compare` |
| CpuState.System.BinR | src/cpu_state.rs:559-565 | as `Machine.BinRegister` |
| CpuState.System.BinRCy | src/cpu_state.rs:452-455 | as `Machine.BinRegisterCarry` |
| CpuState.System.OpR | src/cpu_state.rs:548-551 | as `Machine.LogicRegister` |
| CpuState.System.Cmp | src/cpu_state.rs:567-570 | as `Machine.CompareRegister` |
| CpuState.System.Daa | src/cpu_state.rs:462-479 | stores `Arith.Daa`'s accumulator and flags |
| CpuState.System.Rlc | src/cpu_state.rs:489-495 | stores `Arith.Rlc`'s accumulator and flags |
| CpuState.System.Rrc | src/cpu_state.rs:572-576 | stores `Arith.Rrc`'s accumulator and flags |
| CpuState.System.Ral | src/cpu_state.rs:481-487 | stores `Arith.Ral`'s accumulator and flags |
| CpuState.System.Rar | src/cpu_state.rs:497-507 | stores `Arith.Rar`'s accumulator and flags |
| CpuState.System.Inx | src/cpu_state.rs:591-605 | as `Machine.IncrementPair` |
| CpuState.System.Dcx | src/cpu_state.rs:607-621 | as `Machine.DecrementPair` |
| CpuState.System.Dad | src/cpu_state.rs:641-649 | as `Machine.AddPair` |
| CpuState.System.Lxi | src/cpu_state.rs:651-659 | as `Machine.LoadPair` |
| CpuState.System.Xchg | src/cpu_state.rs:680-687 | as `Machine.SwapDEHL` |
| CpuState.System.Pchl | src/cpu_state.rs:527-531 | `(H << 8) + L` |
| CpuState.System.ComputeArm | src/cpu_state.rs:334-381 | the arms that touch only the CPU, as `Machine.Compute` |
| CpuState.System.AluArm | src/cpu_state.rs:352-369 | as `Machine.AluArm` |
| CpuState.System.MoveArm | src/cpu_state.rs:340-347 | as `Machine.MoveArm` |
| CpuState.System.DirectArm | src/cpu_state.rs:343-372 | as `Machine.DirectArm` |
| CpuState.System.StackArm | src/cpu_state.rs:335-336 | as `Machine.StackArm` |
| CpuState.System.Condition | src/cpu_state.rs:305-332 | the flag test of each conditional instruction |
| CpuState.System.Arm | src/cpu_state.rs:301-383 | the `match` of `execute`, as `Machine.Arm` |
| CpuState.System.ConditionalCall | src/cpu_state.rs:305-312 | as `Machine.Arm` on the conditional calls |
| CpuState.System.ConditionalReturn | src/cpu_state.rs:325-332 | as `Machine.Arm` on the conditional returns |
| CpuState.System.JumpArm | src/cpu_state.rs:314-383 | as `Machine.JumpArm` |
| CpuState.System.ConditionalJump | src/cpu_state.rs:398-404 | `jmp_test`: the address when the condition holds and `pc` otherwise |
| CpuState.System.Execute | src/cpu_state.rs:297-387 | `execute` as `Machine.Execute`, with the `Out` write reported |
| CpuState.System.Run | src/cpu_state.rs:299-387 | the arm and the update of `pc`, as `Machine.Run` |
| CpuState.System.Process | src/cpu_state.rs:389-396 | `process` as `Machine.Process` |
| CoreMachine.Slot | core/src/cpu_state.rs:17-24 | every register but `M` has one of the seven slots |
| CoreMachine.AddU8 | core/src/cpu_state.rs:30-33 | `add_u8` is the sum modulo 256 with a carry exactly on overflow; its `ac` is `a < 8 && out >= 8` |
| CoreMachine.SubU8 | core/src/cpu_state.rs:40-43 | `sub_u8` is the difference modulo 256; its `cy` (`out < a`) holds exactly when `0 < b <= a`, and its `ac` is `out < 8 && a >= 8` |
| CoreMachine.SubU8UndoesAddU8 | core/src/cpu_state.rs:30-43 | `sub_u8` undoes `add_u8` |
| CoreMachine.AsI8 | core/src/cpu_state.rs:281-283 | `x as i8` lies in −128..127 and equals `x` modulo 256 |
| CoreMachine.SignIsBit7 | core/src/cpu_state.rs:281-283 | `s` holds exactly when bit 7 of the result byte is set |
| CoreMachine.ParityIsBit0 | core/src/cpu_state.rs:285-287 | `p` holds exactly when bit 0 of the result byte is clear |
| CoreMachine.RamSlot | core/src/cpu_state.rs:82-86 | an address at or above `ram_offset` maps to slot `addr - ram_offset` when that is inside the RAM, and fails with `OutOfBoundRead` otherwise |
| CoreMachine.RamStore | core/src/cpu_state.rs:82-86 | a RAM store keeps the CPU, the offset and the ROM, and on failure changes nothing |
| CoreMachine.MemoryMap | core/src/cpu_state.rs:266-275 | `get` reads the RAM from `ram_offset` up, the ROM below it, and fails past either with the matching error |
| CoreMachine.GetAfterStore | core/src/cpu_state.rs:242-275 | a stored byte reads back and every other address reads as before |
| CoreMachine.PushPair | core/src/cpu_state.rs:151-157 | `push` keeps the offset and the ROM |
| CoreMachine.CompareImmediate | core/src/cpu_state.rs:159-165 | `cpi` keeps the registers, makes `z` hold exactly when `A` equals the byte, and sets `cy` exactly when `0 < byte <= A` |
| CoreMachine.Return | core/src/cpu_state.rs:167-172 | `ret` leaves the RAM unchanged |
| CoreMachine.LoadA | core/src/cpu_state.rs:193-201 | `lda` and `ldax` leave the RAM unchanged; what `A` receives is `CoreMachineProps.LoadALoads` |
| CoreMachine.DadAsWrittenAddsTwice | core/src/cpu_state.rs:203-211 | `dad` as written turns `HL = 1, BC = 1` into `HL = 3` |
| CoreMachine.CallAt | core/src/cpu_state.rs:223-230 | `call` keeps the offset and the ROM |
| CoreMachine.Write | core/src/cpu_state.rs:242-249 | `write` keeps the offset and the ROM |
| CoreMachine.Move | core/src/cpu_state.rs:237-240 | `mov` keeps the system well formed |
| CoreMachine.Execute | core/src/cpu_state.rs:123-149 | `execute_instruction` keeps the system well formed; `dad` runs corrected (see the Findings) |
| CoreMachine.DataArm | core/src/cpu_state.rs:132-145 | the data arms keep the system well formed; `dad` runs corrected (see the Findings) |
| CoreMachineProps.PushStores | core/src/cpu_state.rs:151-157 | `push` lowers `sp` by 2, stores the pair's low byte at `sp - 2` and high byte at `sp - 1`, and changes no other RAM byte |
| CoreMachineProps.ReturnReads | core/src/cpu_state.rs:167-172 | `ret` pops the little-endian word at `sp` and adds 2 to `sp`; a stack pointer at or past the RAM's end answers `OutOfBoundRead` of the byte it missed and changes nothing |
| CoreMachineProps.PushThenReturn | core/src/cpu_state.rs:151-172 | `ret` after `push` answers the pushed pair and restores `sp` |
| CoreMachineProps.CallThenReturn | core/src/cpu_state.rs:223-230 | `call` answers its target; `ret` afterwards answers the return address and restores the CPU |
| CoreMachineProps.LoadImmediateLoads | core/src/cpu_state.rs:213-221 | `lxi` loads the word into `sp` or the pair and changes no other register |
| CoreMachineProps.IncrementAddsOne | core/src/cpu_state.rs:182-191 | `inx` adds one to the pair and changes no other register or flag |
| CoreMachineProps.DoubleAddSums | core/src/cpu_state.rs:203-211 | `dad` as intended leaves the 16-bit sum in `HL`, sets `cy` exactly when it wrapped, and keeps the rest |
| CoreMachineProps.CompareFlags | core/src/cpu_state.rs:159-165 | after `cpi`, `z` means `A == byte`, `s` is bit 7 and `p` the clear bit 0 of `A - byte` |
| CoreMachineProps.DecrementFlags | core/src/cpu_state.rs:174-180 | `dcr` lowers the register by one (0 wraps to 255), sets `z` exactly when it held 1, and keeps `cy`, `sp` and the other registers |
| CoreMachineProps.WriteThenRead | core/src/cpu_state.rs:242-258 | what `write(dst)` stores, `read(dst)` reads back |
| CoreMachineProps.MoveCopies | core/src/cpu_state.rs:237-240 | after `mov`, the destination holds what the source held |
| CoreMachineProps.LoadALoads | core/src/cpu_state.rs:193-201 | `lda`/`ldax` succeed exactly where the memory map has a byte; `A` then holds the RAM or ROM byte there and nothing else changes; otherwise the map's error comes back and nothing changes |
| CoreMachineProps.ExecuteJumpIfNotZero | core/src/cpu_state.rs:127-131 | `jnz` goes to its address exactly when the result byte is non-zero, and to `pc + cycles` otherwise |
| CoreMachineProps.ExecuteControl | core/src/cpu_state.rs:123-149 | `jmp` goes to its address, `call` to its target, `ret` to the popped address |
| CoreMachineProps.ExecuteSequential | core/src/cpu_state.rs:123-149 | every other implemented instruction answers `pc + cycles` |
| CoreMachineProps.ExecuteKeepsRom | core/src/cpu_state.rs:123-149 | no instruction changes the ROM or the RAM offset |
| CoreCpuState.Cpu.constructor | core/src/cpu_state.rs:17-24 | `Cpu::default()`: all zero |
| CoreCpuState.Cpu.Get | core/src/cpu_state.rs:57-60 | reads the register's slot |
| CoreCpuState.Cpu.Set | core/src/cpu_state.rs:62-65 | writes the register's slot |
| CoreCpuState.Ram.constructor | core/src/cpu_state.rs:109-112 | a zeroed RAM at the given offset |
| CoreCpuState.Ram.Get | core/src/cpu_state.rs:75-80 | reads `addr - ram_offset`; fails with `OutOfBoundRead` past the end |
| CoreCpuState.Ram.GetMut | core/src/cpu_state.rs:82-86 | the slot `RamSlot` gives |
| CoreCpuState.System.constructor | core/src/cpu_state.rs:107-115 | the system `run_game` builds: default CPU, zeroed RAM at 0x2000, the ROM |
| CoreCpuState.System.Get | core/src/cpu_state.rs:266-275 | as `SystemGet` |
| CoreCpuState.System.Store | core/src/cpu_state.rs:82-86 | as `RamStore` |
| CoreCpuState.System.GetRp | core/src/cpu_state.rs:260-264 | as `CoreMachine.GetRp` |
| CoreCpuState.System.Read | core/src/cpu_state.rs:251-258 | as `CoreMachine.Read` |
| CoreCpuState.System.Write | core/src/cpu_state.rs:242-249 | as `CoreMachine.Write` |
| CoreCpuState.System.Mov | core/src/cpu_state.rs:237-240 | as `CoreMachine.Move` |
| CoreCpuState.System.IsZero | core/src/cpu_state.rs:277-279 | `z` |
| CoreCpuState.System.IsNegative | core/src/cpu_state.rs:281-283 | `s` holds exactly when bit 7 of the result byte is set |
| CoreCpuState.System.IsEven | core/src/cpu_state.rs:285-287 | `p` holds exactly when bit 0 of the result byte is clear |
| CoreCpuState.System.Push | core/src/cpu_state.rs:151-157 | as `CoreMachine.PushPair` |
| CoreCpuState.System.Cpi | core/src/cpu_state.rs:159-165 | as `CompareImmediate` |
| CoreCpuState.System.Ret | core/src/cpu_state.rs:167-172 | as `CoreMachine.Return` |
| CoreCpuState.System.Dcr | core/src/cpu_state.rs:174-180 | as `Decrement` |
| CoreCpuState.System.Inx | core/src/cpu_state.rs:182-191 | as `Increment` |
| CoreCpuState.System.Lda | core/src/cpu_state.rs:193-201 | as `LoadA`: `A` takes the byte the memory map gives at the address, or the map's error comes back and nothing changes (`CoreMachineProps.LoadALoads`) |
| CoreCpuState.System.Dad | core/src/cpu_state.rs:203-211 | as `DoubleAdd`, the intended `dad` |
| CoreCpuState.System.Lxi | core/src/cpu_state.rs:213-221 | as `LoadImmediate` |
| CoreCpuState.System.Call | core/src/cpu_state.rs:223-230 | as `CoreMachine.CallAt` |
| CoreCpuState.System.ExecuteInstruction | core/src/cpu_state.rs:123-149 | `execute_instruction` as `CoreMachine.Execute`, with the corrected `dad` |
| CoreCpuState.System.DataArm | core/src/cpu_state.rs:132-145 | as `CoreMachine.DataArm`, with the corrected `dad` (see the Findings) |
| Wasm.PixelIndexInRange | src/wasm.rs:366-374 | every pixel index lies inside the `w * h * 8` pixels, and its three colour bytes inside the buffer |
| Wasm.PixelIndexInjective | src/wasm.rs:366-374 | two different bits of the bitmap never land on the same pixel |
| Wasm.PixelSource | src/wasm.rs:366-374 | every pixel of the image is the landing place of a bit of the bitmap |
| Wasm.PixelSourceOfIndex | src/wasm.rs:366-374 | the pixel a bit lands on leads back to that bit, so the rotation is a bijection |
| Wasm.MaskedBit | src/wasm.rs:369 | `(byte & (1 << bit)) >> bit` is bit `bit` of `byte` |
| Wasm.Rgba | src/wasm.rs:359-380 | the reference image has `w * h * 8 * 4` bytes |
| Wasm.BitmapToRgba | src/wasm.rs:359-380 | the buffer has `w * h * 8 * 4` bytes, every alpha byte is 255, the pixel of every bit is white when the bit is set and black otherwise, and the whole buffer is `Rgba` |
| Wasm.DrawByte | src/wasm.rs:366-376 | the loop over the bits of one byte draws its eight pixels and keeps the alpha bytes and every pixel drawn before |
| Wasm.DrawPixel | src/wasm.rs:369-374 | drawing one bit's pixel extends what the bit loop has drawn |
| Wasm.KeepsOtherPixels | src/wasm.rs:371-373 | writing one pixel's colour bytes keeps the alpha bytes and every other pixel |
| Wasm.DrawnIsRgba | src/wasm.rs:359-380 | a buffer with the drawn pixels and opaque alpha is the reference image |
| Wasm.WritePort | src/wasm.rs:71-80 | port 4 shifts the value into the register's high byte and moves its old high byte down; any other port stores the value |
| Wasm.AndSeven | src/wasm.rs:85 | `x & 0x07` is `x` modulo 8 |
| Wasm.ShiftRegisterWindow | src/wasm.rs:71-90 | after two writes to port 4 and an offset `k` on port 2, the register holds the two bytes and port 3 reads its 8 bits starting at bit `k` |
| Wasm.ShiftRegisterUnshifted | src/wasm.rs:71-90 | with offset 0, port 3 reads the byte written first |
| Wasm.WriteKeepsReads | src/wasm.rs:71-90 | a write changes no read except that of port 3, and only through ports 2 or 4 |
| Wasm.SetInputBits | src/wasm.rs:60-62 | `set_input_bit` sets exactly the one bit of the one port |
| Wasm.ClearInputBits | src/wasm.rs:65-67 | `clear_input_bit` clears exactly the one bit of the one port |
| Wasm.ClearUndoesSet | src/wasm.rs:60-67 | clearing a bit that was clear before it was set gives back the ports |
| Wasm.SetUndoesClear | src/wasm.rs:60-67 | setting a bit that was set before it was cleared gives back the ports |
| Wasm.StartingInputs | src/wasm.rs:294-297 | the four starting `set_input_bit` calls set bits 1 to 3 of port 0 and bit 3 of port 1, and change nothing else |
| Wasm.KeyBit | src/wasm.rs:301-309 | every bound key drives a bit of the port |
| Wasm.KeyBits | src/wasm.rs:301-323 | a pressed key's bit reads set and a released key's clear; no other bit, port 0 or the shift register changes; unbound keys change nothing |
| Wasm.KeyPressRelease | src/wasm.rs:301-323 | pressing and then releasing a key whose bit was clear gives back the ports |
| Wasm.SpaceInvadersPorts.constructor | src/wasm.rs:52-57 | `default()`: all ports and the shift register zero |
| Wasm.SpaceInvadersPorts.SetInputBit | src/wasm.rs:60-62 | as `SetInput`, on the input array only |
| Wasm.SpaceInvadersPorts.ClearInputBit | src/wasm.rs:65-67 | as `ClearInput`, on the input array only |
| Wasm.SpaceInvadersPorts.Write | src/wasm.rs:71-80 | as `WritePort` |
| Wasm.SpaceInvadersPorts.Read | src/wasm.rs:82-90 | as `ReadPort` |

## Left out

- Browser plumbing (canvas, animation frames, the game loop and its stop flag), the command-line drivers, the disassembler, `dump_state` and `run_game`'s print-and-execute loop: they are I/O around the modelled operations.
- `src/in_out.rs`, `src/util.rs` and `src/lib.rs` are not part of this model; the `InOut` device becomes the function `io` for reads and the returned `written` pair for writes.
- `CpuTestPorts` (`src/wasm.rs:93-96` onward) is left out: its `write` only logs to the browser console.
- The `Mutex` and `AtomicU16` of `SpaceInvadersPorts` become plain fields: the model is single-threaded.
- Panics become preconditions. These include `unwrap`s, indexing past an array, `RegisterPair::SP.split()`, `Register::M` given to `Cpu::get`, and `u16` overflow or underflow in debug builds (`sp - 2`, `pc + size`, `inx` on 0xffff). The model does not say what a release build would compute there.
- Wasm.BitmapToRgba: the `usize` products `w * h * 8 * 4` are unbounded integers; the model does not capture an overflow of the allocation size.
- Wasm.BitmapToRgba: the inner loop over the eight bits is the separate method `DrawByte`, called from the loop over `x`. The `Vec<u8>` is an `array<Byte>` allocated at its final size with alpha 255.
- `core/src/op_code.rs` is not part of this model. The prototype's `Register` slot order (`B, C, D, E, H, L, A` in slots 0 to 6) and `RegisterPair` split are assumed, and its `cycles()` is a parameter of `CoreMachine.Execute`.
- The prototype's `sub_u16` and `Ram`'s `Copy`/`Debug` derivations are not used by `execute_instruction` and are left out.
- The prototype's `run_game` loop and `System::disassembly` are left out, since they print and loop forever; the system it builds is `CoreCpuState.System.constructor`.
- Machine.PushPair, Machine.CallAt, Machine.IncDec, Machine.Move, Machine.StoreHL, Machine.SwapStackHL, Machine.CallIf, Machine.Arm, Machine.JumpArm and Machine.Run state only the ROM protection in their own contract. What they compute is stated by lemmas of `MachineProps`: `PushPair` by `PushStores`, `CallAt` by `CallStores`, `IncDec` by `IncDecRegister`, `IncDecFlags` and `IncDecMemory`, `Move` by `MoveCopies`, `StoreHL` by `StoreHLStores` and `StoreThenLoadHL`, `SwapStackHL` by `SwapStackHLSwaps`, `CallIf` by `CallIfCycles`, and `Arm`, `JumpArm` and `Run` by `SequentialArm`, `ArmConditionalJump`, `ArmConditionalCall`, `ArmConditionalReturn`, `ArmCall`, `ArmRestart` and the `Execute…` lemmas.
- Machine.LoadAcc and Machine.LoadHL state only that memory is kept in their own contract; what they load is stated by `MachineProps.LoadAccLoads` and `MachineProps.LoadHLLoads`.
- CoreMachine.DataArm, CoreMachine.Execute, CoreCpuState.System.Dad, CoreCpuState.System.DataArm and CoreCpuState.System.ExecuteInstruction run the corrected `dad`: `HL` becomes the 16-bit sum. The source adds the sum's bytes onto `H` and `L` (`+=`), and that code is modelled only by `CoreMachine.DadAsWritten` (see the Findings). Its overflow panic when a register would pass 255 is not modelled.

## Findings

| source | as written | input that shows it | evidently intended | confidence | as-written member | corrected member |
|---|---|---|---|---|---|---|
| core/src/cpu_state.rs:203-211 | `dad` adds the high and low bytes of the sum onto `H` and `L` (`+=`) instead of storing them | `HL = 1`, `BC = 1`: `dad b` leaves `HL = 3` | `HL` becomes the 16-bit sum `BC + HL` (as `src/cpu_state.rs:641-649` does) | high, not executed | CoreMachine.DadAsWrittenAddsTwice | CoreMachineProps.DoubleAddSums |
