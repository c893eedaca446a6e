/** The value-level arithmetic of `src/cpu_state.rs`: byte/word packing
    (`to_u16`, `to_u8`, `add_u16`), the adder and subtractor (`AddOp`,
    `SubOp`), the bitwise operators (`And`, `Or`, `Xor`), the flag bits of the
    `F` register, and the accumulator operations (rotates and DAA) as functions
    of `A` and `F`. */
module Arith {
  import opened Bits

  /** `to_u16`: the word whose high byte is `h` and low byte `l`. */
  function ToU16(l: Byte, h: Byte): Word
  {
    h * 0x100 + l
  }

  /** `to_u16` is written `((h as u16) << 8) | (l as u16)`. */
  lemma ToU16IsShiftOr(l: Byte, h: Byte)
    ensures ToU16(l, h) == Or16(h * 0x100, l)
  {
    OrHighLow(h, l);
  }

  /** `to_u8`: the (high, low) bytes of a word. */
  function ToU8(x: Word): (Byte, Byte)
  {
    (x / 0x100, x % 0x100)
  }

  /** `to_u8` is written `((x >> 8) as u8, (x & 0xff) as u8)`. */
  lemma ToU8IsShiftAnd(x: Word)
    ensures ToU8(x).1 == And16(x, 0xff)
  {
    AndLowByte(x);
  }

  lemma ToU8OfToU16(l: Byte, h: Byte)
    ensures ToU8(ToU16(l, h)) == (h, l)
  {
  }

  lemma ToU16OfToU8(x: Word)
    ensures ToU16(ToU8(x).1, ToU8(x).0) == x
  {
  }

  /** `add_u16`: the wrapping sum and whether it wrapped (`out < a`). */
  function AddU16(a: Word, b: Word): (r: (Word, bool))
    ensures r.0 == (a + b) % 0x1_0000
    ensures r.1 <==> a + b > 0xffff
  {
    var out := (a + b) % 0x1_0000;
    (out, out < a)
  }

  /** `u8::wrapping_add`. */
  function WrappingAdd(a: Byte, b: Byte): Byte
  {
    (a + b) % 0x100
  }

  /** `u8::wrapping_sub` (Dafny's `%` is never negative). */
  function WrappingSub(a: Byte, b: Byte): (r: Byte)
    ensures r == if a >= b then a - b else a - b + 0x100
  {
    (a - b) % 0x100
  }

  /** The carry-in `if cy { 1 } else { 0 }`. */
  function CarryIn(cy: bool): (c: Byte)
    ensures c < 2
  {
    if cy then 1 else 0
  }

  /** `x as i8`: the two's-complement reading of a byte. */
  function Signed(x: Byte): (v: int)
    ensures -0x80 <= v < 0x80
    ensures v < 0 <==> x >= 0x80
  {
    if x >= 0x80 then x - 0x100 else x
  }

  /** The two implementations of the `BinarytOp` trait. */
  datatype BinaryOp = AddOp | SubOp

  /** `BinarytOp::run_with_carry`: the wrapped result, the carry flag
      (`out < a` for the adder, `out > a` for the subtractor) and the
      auxiliary carry, from the low nibbles of `a` and `b` (of `a` and `!b`
      for the subtractor) without the carry-in. */
  function RunWithCarry(op: BinaryOp, a: Byte, b: Byte, cy: bool): (r: (Byte, bool, bool))
    ensures op == AddOp ==> r.0 == (a + b + CarryIn(cy)) % 0x100
    ensures op == SubOp ==> r.0 == (a - b - CarryIn(cy)) % 0x100
    ensures op == AddOp ==> (r.2 <==> a % 0x10 + b % 0x10 > 0x0f)
    ensures op == SubOp ==> (r.2 <==> a % 0x10 > b % 0x10)
  {
    match op
    case AddOp =>
      var out := WrappingAdd(WrappingAdd(a, b), CarryIn(cy));
      (out, out < a, LowNibble(a) + LowNibble(b) > 0x0f)
    case SubOp =>
      var out := WrappingSub(WrappingSub(a, b), CarryIn(cy));
      ComplementNibble(b);
      (out, out > a, LowNibble(a) + LowNibble(0xff - b) > 0x0f)
  }

  /** `0x0f & x`. */
  function LowNibble(x: Byte): Byte
  {
    x % 0x10
  }

  /** The nibble masks of `run_with_carry` as the source writes them:
      `0x0f & a`, and `0x0f & !b` in the subtractor. */
  lemma LowNibbleIsMask(x: Byte)
    ensures LowNibble(x) == And(0x0f, x)
  {
    AndLowNibble(x);
  }

  lemma LowNibbleOfComplement(x: Byte)
    ensures LowNibble(Complement(x)) == And(0x0f, Not(x))
  {
    LowNibbleIsMask(Complement(x));
  }

  /** The low nibble of `!b` is `0x0f` minus that of `b`. */
  lemma ComplementNibble(b: Byte)
    ensures LowNibble(0xff - b) == 0x0f - b % 0x10
  {
    assert 0xff - b == 0x10 * (0x0f - b / 0x10) + (0x0f - b % 0x10);
  }

  /** `BinarytOp::run`: no carry-in. */
  function Run(op: BinaryOp, a: Byte, b: Byte): (Byte, bool, bool)
  {
    RunWithCarry(op, a, b, false)
  }

  /** The adder reports a carry exactly when the true sum exceeds a byte, except
      when `b` plus the carry-in is 0x100: the result then equals `a` and
      `out < a` misses the carry. */
  lemma AddCarry(a: Byte, b: Byte, cy: bool)
    ensures RunWithCarry(AddOp, a, b, cy).1
      <==> a + b + CarryIn(cy) > 0xff && b + CarryIn(cy) != 0x100
  {
  }

  /** The subtractor reports a borrow exactly when the true difference is
      negative, except when `b` plus the carry-in is 0x100 (`out == a`). */
  lemma SubBorrow(a: Byte, b: Byte, cy: bool)
    ensures RunWithCarry(SubOp, a, b, cy).1
      <==> a < b + CarryIn(cy) && b + CarryIn(cy) != 0x100
  {
  }

  /** Subtracting what was added, with the same carry-in, gives `a` back. */
  lemma SubUndoesAdd(a: Byte, b: Byte, cy: bool)
    ensures RunWithCarry(SubOp, RunWithCarry(AddOp, a, b, cy).0, b, cy).0 == a
  {
    var sum := RunWithCarry(AddOp, a, b, cy).0;
    var c := CarryIn(cy);
    if a + b + c < 0x100 {
      assert sum == a + b + c;
    } else {
      assert sum == a + b + c - 0x100;
    }
    assert RunWithCarry(SubOp, sum, b, cy).0 == (sum - b - c) % 0x100;
  }

  /** Page 13 of the 8080 programmer's manual: 197 - 98 is 99 with no borrow,
      12 - 15 is 253 (-3) with a borrow. */
  lemma SubExamples()
    ensures Run(SubOp, 197, 98).0 == 99 && !Run(SubOp, 197, 98).1
    ensures Run(SubOp, 12, 15).0 == 253 && Run(SubOp, 12, 15).1
  {
  }

  /** The three implementations of the `BitwiseOp` trait. */
  datatype BitwiseOp = AndOp | OrOp | XorOp

  /** `BitwiseOp::run`: `lhs & rhs`, `lhs | rhs` or `lhs ^ rhs`. */
  function RunBitwise(op: BitwiseOp, lhs: Byte, rhs: Byte): Byte
  {
    match op
    case AndOp => And(lhs, rhs)
    case OrOp => Or(lhs, rhs)
    case XorOp => Xor(lhs, rhs)
  }

  /** Each bit of the result is the operator's truth table on the operands' bits. */
  lemma RunBitwiseBits(op: BitwiseOp, lhs: Byte, rhs: Byte, i: nat)
    ensures Bit(RunBitwise(op, lhs, rhs), i) == if
      (match op
       case AndOp => Bit(lhs, i) == 1 && Bit(rhs, i) == 1
       case OrOp => Bit(lhs, i) == 1 || Bit(rhs, i) == 1
       case XorOp => Bit(lhs, i) != Bit(rhs, i)) then 1 else 0
  {
    match op
    case AndOp => BitAndBits(lhs, rhs, 8, i);
    case OrOp => BitOrBits(lhs, rhs, 8, i);
    case XorOp => BitXorBits(lhs, rhs, 8, i);
  }

  /** The flags of the `F` register, by bit position. */
  datatype Flag = S | Z | Ac | P | Cy

  function Position(flag: Flag): (k: nat)
    ensures k < 8
  {
    match flag
    case S => 7
    case Z => 6
    case Ac => 4
    case P => 2
    case Cy => 0
  }

  /** `1 << bit`. */
  function Mask(flag: Flag): Byte
  {
    match flag
    case S => 0x80
    case Z => 0x40
    case Ac => 0x10
    case P => 0x04
    case Cy => 0x01
  }

  /** `Cpu::z`, `s`, `p`, `cy`, `ac`: the flag's bit of `F` is set. */
  function IsSet(f: Byte, flag: Flag): bool
  {
    match flag
    case S => f / 0x80 % 2 == 1
    case Z => f / 0x40 % 2 == 1
    case Ac => f / 0x10 % 2 == 1
    case P => f / 0x04 % 2 == 1
    case Cy => f % 2 == 1
  }

  /** `Cpu::set`: the flag's bit of `F` turned on. */
  function SetFlag(f: Byte, flag: Flag): Byte
  {
    if IsSet(f, flag) then f else f + Mask(flag)
  }

  /** `Cpu::clear`: the flag's bit of `F` turned off. */
  function ClearFlag(f: Byte, flag: Flag): Byte
  {
    if IsSet(f, flag) then f - Mask(flag) else f
  }

  /** `Cpu::toggle`: set the flag if `value`, clear it otherwise. */
  function Toggle(f: Byte, flag: Flag, value: bool): Byte
  {
    if value then SetFlag(f, flag) else ClearFlag(f, flag)
  }

  /** The mask is the flag's power of two. */
  lemma MaskIsPow2(flag: Flag)
    ensures Mask(flag) == Pow2(Position(flag))
  {
    Pow2Values();
  }

  /** A flag is set exactly when its bit is 1. */
  lemma IsSetBit(f: Byte, flag: Flag)
    ensures IsSet(f, flag) <==> Bit(f, Position(flag)) == 1
  {
    Pow2Values();
  }

  /** `(flags & (1 << bit)) != 0`. */
  lemma IsSetIsAnd(f: Byte, flag: Flag)
    ensures IsSet(f, flag) <==> And(f, Mask(flag)) != 0
  {
    MaskIsPow2(flag);
    IsSetBit(f, flag);
    AndPow2(f, Position(flag), 8);
  }

  /** `flags | (1 << bit)`. */
  lemma SetFlagIsOr(f: Byte, flag: Flag)
    ensures SetFlag(f, flag) == Or(f, Mask(flag))
  {
    MaskIsPow2(flag);
    var on := SetFlag(f, flag);
    forall i | 0 <= i < 8
      ensures Bit(on, i) == Bit(Or(f, Mask(flag)), i)
    {
      FlagBits(f, flag, i);
      Pow2Bits(Position(flag), i);
      BitOrBits(f, Mask(flag), 8, i);
    }
    BitsDetermine(on, Or(f, Mask(flag)), 8);
  }

  /** `flags & !(1 << bit)`. */
  lemma ClearFlagIsAndNot(f: Byte, flag: Flag)
    ensures ClearFlag(f, flag) == And(f, Not(Mask(flag)))
  {
    var off := ClearFlag(f, flag);
    forall i | 0 <= i < 8
      ensures Bit(off, i) == Bit(And(f, Not(Mask(flag))), i)
    {
      ClearFlagBit(f, flag, i);
    }
    BitsDetermine(off, And(f, Not(Mask(flag))), 8);
  }

  lemma ClearFlagBit(f: Byte, flag: Flag, i: nat)
    requires i < 8
    ensures Bit(ClearFlag(f, flag), i) == Bit(And(f, Not(Mask(flag))), i)
  {
    var k := Position(flag);
    MaskIsPow2(flag);
    FlagBits(f, flag, i);
    AndNotPow2Bit(f, k, i);
  }

  lemma AndNotPow2Bit(f: Byte, k: nat, i: nat)
    requires k < 8 && i < 8
    ensures Pow2(k) < 0x100
    ensures Bit(And(f, Not(Pow2(k))), i) == if i == k then 0 else Bit(f, i)
  {
    Pow2Values();
    Pow2Mono(k, 7);
    var m := Pow2(k);
    Pow2Bits(k, i);
    BitNotBits(m, 8, i);
    BitAndBits(f, Not(m), 8, i);
  }

  /** Setting or clearing the flag's bit keeps the other bits. */
  lemma FlagBits(f: Byte, flag: Flag, i: nat)
    ensures Bit(SetFlag(f, flag), i) == if i == Position(flag) then 1 else Bit(f, i)
    ensures Bit(ClearFlag(f, flag), i) == if i == Position(flag) then 0 else Bit(f, i)
  {
    var k := Position(flag);
    MaskIsPow2(flag);
    IsSetBit(f, flag);
    if IsSet(f, flag) {
      BitSubPow2(f, k, i);
    } else {
      BitAddPow2(f, k, i);
    }
  }

  /** Toggling a flag gives its bit the new value and keeps every other bit. */
  lemma ToggleBits(f: Byte, flag: Flag, value: bool, i: nat)
    ensures Bit(Toggle(f, flag, value), i)
      == if i == Position(flag) then CarryIn(value) else Bit(f, i)
  {
    FlagBits(f, flag, i);
  }

  lemma ToggleIsSet(f: Byte, flag: Flag, value: bool, other: Flag)
    ensures IsSet(Toggle(f, flag, value), other)
      == if other == flag then value else IsSet(f, other)
  {
    ToggleBits(f, flag, value, Position(other));
    IsSetBit(Toggle(f, flag, value), other);
    IsSetBit(f, other);
  }

  /** Toggling a flag to the value it already has changes nothing. */
  lemma ToggleSame(f: Byte, flag: Flag)
    ensures Toggle(f, flag, IsSet(f, flag)) == f
  {
    var r := Toggle(f, flag, IsSet(f, flag));
    forall i | 0 <= i < 8
      ensures Bit(r, i) == Bit(f, i)
    {
      ToggleBits(f, flag, IsSet(f, flag), i);
    }
    BitsDetermine(r, f, 8);
  }

  /** `Cpu::update_flags`: S from the sign of `byte`, Z from `byte == 0`, P from
      the parity of its set bits. */
  function UpdateFlags(f: Byte, byte: Byte): Byte
  {
    var f := Toggle(f, S, Signed(byte) < 0);
    var f := Toggle(f, Z, byte == 0);
    Toggle(f, P, CountOnes(byte) % 2 == 0)
  }

  /** `Cpu::update_flags_with_carry`. */
  function UpdateFlagsWithCarry(f: Byte, byte: Byte, cy: bool): Byte
  {
    Toggle(UpdateFlags(f, byte), Cy, cy)
  }

  /** `Cpu::update_flags_with_carries`. */
  function UpdateFlagsWithCarries(f: Byte, byte: Byte, cy: bool, ac: bool): Byte
  {
    Toggle(Toggle(UpdateFlags(f, byte), Cy, cy), Ac, ac)
  }

  /** `Cpu::update_flags_with_ac`. */
  function UpdateFlagsWithAc(f: Byte, byte: Byte, ac: bool): Byte
  {
    Toggle(UpdateFlags(f, byte), Ac, ac)
  }

  /** S is bit 7 of the result, Z says it is zero, P that it has an even number
      of set bits; Cy and AC are kept. */
  lemma UpdateFlagsBits(f: Byte, byte: Byte)
    ensures IsSet(UpdateFlags(f, byte), S) <==> byte >= 0x80
    ensures IsSet(UpdateFlags(f, byte), Z) <==> byte == 0
    ensures IsSet(UpdateFlags(f, byte), P) <==> CountOnes(byte) % 2 == 0
    ensures IsSet(UpdateFlags(f, byte), Cy) == IsSet(f, Cy)
    ensures IsSet(UpdateFlags(f, byte), Ac) == IsSet(f, Ac)
  {
    var f1 := Toggle(f, S, Signed(byte) < 0);
    var f2 := Toggle(f1, Z, byte == 0);
    forall flag: Flag
      ensures IsSet(f1, flag) == if flag == S then byte >= 0x80 else IsSet(f, flag)
      ensures IsSet(f2, flag) == if flag == Z then byte == 0 else IsSet(f1, flag)
      ensures IsSet(UpdateFlags(f, byte), flag)
        == if flag == P then CountOnes(byte) % 2 == 0 else IsSet(f2, flag)
    {
      ToggleIsSet(f, S, Signed(byte) < 0, flag);
      ToggleIsSet(f1, Z, byte == 0, flag);
      ToggleIsSet(f2, P, CountOnes(byte) % 2 == 0, flag);
    }
  }

  /** `update_flags` writes bits 7, 6 and 2 only. */
  lemma UpdateFlagsOtherBits(f: Byte, byte: Byte, i: nat)
    requires i != Position(S) && i != Position(Z) && i != Position(P)
    ensures Bit(UpdateFlags(f, byte), i) == Bit(f, i)
  {
    var f1 := Toggle(f, S, Signed(byte) < 0);
    var f2 := Toggle(f1, Z, byte == 0);
    ToggleBits(f, S, Signed(byte) < 0, i);
    ToggleBits(f1, Z, byte == 0, i);
    ToggleBits(f2, P, CountOnes(byte) % 2 == 0, i);
  }

  /** With both carries written too, the unused bits 5, 3 and 1 are kept. */
  lemma UpdateFlagsWithCarriesOtherBits(f: Byte, byte: Byte, cy: bool, ac: bool, i: nat)
    requires i == 1 || i == 3 || i == 5
    ensures Bit(UpdateFlagsWithCarries(f, byte, cy, ac), i) == Bit(f, i)
  {
    var u := UpdateFlags(f, byte);
    UpdateFlagsOtherBits(f, byte, i);
    ToggleBits(u, Cy, cy, i);
    ToggleBits(Toggle(u, Cy, cy), Ac, ac, i);
  }

  /** The carry and auxiliary-carry variants set S, Z, P as `update_flags`
      does and Cy and AC to the given values. */
  lemma UpdateFlagsWithCarriesBits(f: Byte, byte: Byte, cy: bool, ac: bool)
    ensures IsSet(UpdateFlagsWithCarries(f, byte, cy, ac), S) <==> byte >= 0x80
    ensures IsSet(UpdateFlagsWithCarries(f, byte, cy, ac), Z) <==> byte == 0
    ensures IsSet(UpdateFlagsWithCarries(f, byte, cy, ac), P) <==> CountOnes(byte) % 2 == 0
    ensures IsSet(UpdateFlagsWithCarries(f, byte, cy, ac), Cy) == cy
    ensures IsSet(UpdateFlagsWithCarries(f, byte, cy, ac), Ac) == ac
  {
    var u := UpdateFlags(f, byte);
    var c := Toggle(u, Cy, cy);
    UpdateFlagsBits(f, byte);
    ToggleIsSet(u, Cy, cy, S);
    ToggleIsSet(u, Cy, cy, Z);
    ToggleIsSet(u, Cy, cy, P);
    ToggleIsSet(u, Cy, cy, Cy);
    ToggleIsSet(c, Ac, ac, S);
    ToggleIsSet(c, Ac, ac, Z);
    ToggleIsSet(c, Ac, ac, P);
    ToggleIsSet(c, Ac, ac, Cy);
    ToggleIsSet(c, Ac, ac, Ac);
  }

  /** The logical operations clear Cy and leave AC alone. */
  lemma UpdateFlagsWithCarryBits(f: Byte, byte: Byte)
    ensures !IsSet(UpdateFlagsWithCarry(f, byte, false), Cy)
    ensures IsSet(UpdateFlagsWithCarry(f, byte, false), Ac) == IsSet(f, Ac)
    ensures IsSet(UpdateFlagsWithCarry(f, byte, false), Z) <==> byte == 0
  {
    var u := UpdateFlags(f, byte);
    UpdateFlagsBits(f, byte);
    forall flag: Flag
      ensures IsSet(Toggle(u, Cy, false), flag) == if flag == Cy then false else IsSet(u, flag)
    {
      ToggleIsSet(u, Cy, false, flag);
    }
  }

  /** `rlc`: A rotated left; bit 7 goes to bit 0 and to Cy. */
  function Rlc(a: Byte, f: Byte): (Byte, Byte)
  {
    var nextCy := a >= 0x80;  // (0x80 & a) != 0
    var a' := if nextCy then (2 * a) % 0x100 + 1 else (2 * a) % 0x100;
    (a', Toggle(f, Cy, nextCy))
  }

  /** `rrc`: A rotated right (`rotate_right(1)`); bit 0 goes to bit 7 and to Cy. */
  function Rrc(a: Byte, f: Byte): (Byte, Byte)
  {
    (a / 2 + (a % 2) * 0x80, Toggle(f, Cy, a % 2 == 1))
  }

  /** `ral`: A shifted left through the carry: the old Cy enters bit 0, bit 7 becomes Cy. */
  function Ral(a: Byte, f: Byte): (Byte, Byte)
  {
    var nextCy := a >= 0x80;
    var a' := if IsSet(f, Cy) then (2 * a) % 0x100 + 1 else (2 * a) % 0x100;
    (a', Toggle(f, Cy, nextCy))
  }

  /** `rar`: A shifted right through the carry: the old Cy enters bit 7, bit 0 becomes Cy. */
  function Rar(a: Byte, f: Byte): (Byte, Byte)
  {
    var nextCy := a % 2 == 1;  // (1 & a) == 1
    var a' := if IsSet(f, Cy) then a / 2 + 0x80 else a / 2;
    (a', Toggle(f, Cy, nextCy))
  }

  /** The bits of `a`, moved one place up: bit `i + 1` of `2 a % 256 + c` is bit `i` of `a`. */
  lemma ShiftUpBits(a: Byte, c: nat, i: nat)
    requires c < 2 && i < 7
    ensures Bit((2 * a) % 0x100 + c, i + 1) == Bit(a, i)
    ensures Bit((2 * a) % 0x100 + c, 0) == c
  {
    assert (2 * a) % 0x100 + c == 2 * (a % 0x80) + c;
    BitOfDouble(a % 0x80, c, i);
    assert a == (a / 0x80) * Pow2(7) + a % 0x80;
    BitOfShifted(a / 0x80, a % 0x80, 7, i);
  }

  /** The bits of `a`, moved one place down, with `c` entering bit 7. */
  lemma ShiftDownBits(a: Byte, c: nat, i: nat)
    requires c < 2 && i < 7
    ensures Bit(a / 2 + c * 0x80, i) == Bit(a, i + 1)
    ensures Bit(a / 2 + c * 0x80, 7) == c
  {
    assert a / 2 + c * 0x80 == c * Pow2(7) + a / 2;
    BitOfShifted(c, a / 2, 7, i);
    BitOfShifted(c, a / 2, 7, 7);
    BitOfDouble(a / 2, a % 2, i);
    assert Bit(c, 0) == c;
  }

  /** The rotates move every bit of A one place, and Cy receives the bit
      that leaves A. */
  lemma RotateBits(a: Byte, f: Byte, i: nat)
    requires i < 7
    ensures Bit(Rlc(a, f).0, i + 1) == Bit(a, i) && Bit(Rlc(a, f).0, 0) == Bit(a, 7)
    ensures Bit(Rrc(a, f).0, i) == Bit(a, i + 1) && Bit(Rrc(a, f).0, 7) == Bit(a, 0)
    ensures Bit(Ral(a, f).0, i + 1) == Bit(a, i) && Bit(Ral(a, f).0, 0) == CarryIn(IsSet(f, Cy))
    ensures Bit(Rar(a, f).0, i) == Bit(a, i + 1) && Bit(Rar(a, f).0, 7) == CarryIn(IsSet(f, Cy))
    ensures IsSet(Rlc(a, f).1, Cy) == IsSet(Ral(a, f).1, Cy) == (Bit(a, 7) == 1)
    ensures IsSet(Rrc(a, f).1, Cy) == IsSet(Rar(a, f).1, Cy) == (Bit(a, 0) == 1)
  {
    assert Bit(a, 7) == a / 0x80;
    assert Bit(a, 0) == a % 2;
    ShiftUpBits(a, a / 0x80, i);
    ShiftUpBits(a, CarryIn(IsSet(f, Cy)), i);
    ShiftDownBits(a, a % 2, i);
    ShiftDownBits(a, CarryIn(IsSet(f, Cy)), i);
    ToggleIsSet(f, Cy, a >= 0x80, Cy);
    ToggleIsSet(f, Cy, a % 2 == 1, Cy);
  }

  /** `rar` undoes `ral`, restoring both A and the flags. */
  lemma RarUndoesRal(a: Byte, f: Byte)
    ensures Rar(Ral(a, f).0, Ral(a, f).1) == (a, f)
  {
    var (a1, f1) := Ral(a, f);
    ToggleIsSet(f, Cy, a >= 0x80, Cy);
    var f2 := Toggle(f1, Cy, a1 % 2 == 1);
    forall i | 0 <= i < 8
      ensures Bit(f2, i) == Bit(f, i)
    {
      ToggleBackBit(f, a >= 0x80, a1 % 2 == 1, i);
    }
    BitsDetermine(f2, f, 8);
  }

  /** Toggling Cy twice, the second time back to its old value, keeps every bit. */
  lemma ToggleBackBit(f: Byte, value: bool, back: bool, i: nat)
    requires back == IsSet(f, Cy)
    ensures Bit(Toggle(Toggle(f, Cy, value), Cy, back), i) == Bit(f, i)
  {
    ToggleBits(Toggle(f, Cy, value), Cy, back, i);
    ToggleBits(f, Cy, value, i);
    IsSetBit(f, Cy);
  }

  /** `rrc` undoes `rlc` on the accumulator. */
  lemma RrcUndoesRlc(a: Byte, f: Byte)
    ensures Rrc(Rlc(a, f).0, Rlc(a, f).1).0 == a
  {
  }

  /** `daa`: adds 6 when the low nibble exceeds 9 or AC is set, then 0x60 when
      the high nibble of that sum exceeds 9 or Cy was set; each addition sets
      the flags from `AddOp::run`. */
  function Daa(a: Byte, f: Byte): (Byte, Byte)
  {
    if a % 0x10 <= 9 && !IsSet(f, Ac) then (a, f)  // 0x0f & a
    else
      var (a1, cy1, ac1) := Run(AddOp, a, 6);
      if a1 / 0x10 <= 9 && !IsSet(f, Cy) then  // (0xf0 & a) >> 4
        (a1, UpdateFlagsWithCarries(f, a1, cy1, ac1))
      else
        var (a2, cy2, ac2) := Run(AddOp, a1, 0x60);
        (a2, UpdateFlagsWithCarries(f, a2, cy2, ac2))
  }

  /** Page 56 of the programmer's manual adds 2985 and 4936 in decimal, low
      bytes first, from clear flags: 0x85 + 0x36 = 0xbb with neither carry
      (S and P set). */
  lemma AddLowBytes()
    ensures Run(AddOp, 0x85, 0x36) == (0xbb, false, false)
    ensures UpdateFlagsWithCarries(0, 0xbb, false, false) == 0x84
  {
    assert CountOnes(0xbb) == 6;
    assert Toggle(0, S, true) == 0x80;
    assert Toggle(0x80, Z, false) == 0x80;
    assert Toggle(0x80, P, true) == 0x84;
    assert UpdateFlags(0, 0xbb) == 0x84;
    assert Toggle(0x84, Cy, false) == 0x84;
    assert Toggle(0x84, Ac, false) == 0x84;
  }

  /** `daa` adjusts that 0xbb to 0x21 with Cy (and P) set. */
  lemma DaaLowBytes()
    ensures Daa(0xbb, 0x84) == (0x21, 0x05)
  {
    assert !IsSet(0x84, Ac);
    assert Run(AddOp, 0xbb, 6) == (0xc1, false, true);
    assert Run(AddOp, 0xc1, 0x60) == (0x21, true, false);
    assert CountOnes(0x21) == 2;
    assert Toggle(0x84, S, false) == 0x04;
    assert Toggle(0x04, Z, false) == 0x04;
    assert Toggle(0x04, P, true) == 0x04;
    assert UpdateFlags(0x84, 0x21) == 0x04;
    assert Toggle(0x04, Cy, true) == 0x05;
    assert Toggle(0x05, Ac, false) == 0x05;
  }

  /** The high bytes with that carry: 0x29 + 0x49 + 1 = 0x73 with only AC set. */
  lemma AddHighBytes()
    ensures RunWithCarry(AddOp, 0x29, 0x49, true) == (0x73, false, true)
    ensures UpdateFlagsWithCarries(0x05, 0x73, false, true) == 0x10
  {
    assert CountOnes(0x73) == 5;
    assert Toggle(0x05, S, false) == 0x05;
    assert Toggle(0x05, Z, false) == 0x05;
    assert Toggle(0x05, P, false) == 0x01;
    assert UpdateFlags(0x05, 0x73) == 0x01;
    assert Toggle(0x01, Cy, false) == 0;
    assert Toggle(0, Ac, true) == 0x10;
  }

  /** `daa` adjusts that 0x73 to 0x79 with every flag clear. */
  lemma DaaHighBytes()
    ensures Daa(0x73, 0x10) == (0x79, 0)
  {
    assert IsSet(0x10, Ac) && !IsSet(0x10, Cy);
    assert Run(AddOp, 0x73, 6) == (0x79, false, false);
    assert CountOnes(0x79) == 5;
    assert Toggle(0x10, S, false) == 0x10;
    assert Toggle(0x10, Z, false) == 0x10;
    assert Toggle(0x10, P, false) == 0x10;
    assert UpdateFlags(0x10, 0x79) == 0x10;
    assert Toggle(0x10, Cy, false) == 0x10;
    assert Toggle(0x10, Ac, false) == 0;
  }

  /** The decimal-adjust case of the CPU exerciser: 0x88 + 0x88 = 0x10 with
      Cy and AC set. */
  lemma AddDouble()
    ensures Run(AddOp, 0x88, 0x88) == (0x10, true, true)
    ensures UpdateFlagsWithCarries(0, 0x10, true, true) == 0x11
  {
    assert CountOnes(0x10) == 1;
    assert Toggle(0, S, false) == 0;
    assert Toggle(0, Z, false) == 0;
    assert Toggle(0, P, false) == 0;
    assert UpdateFlags(0, 0x10) == 0;
    assert Toggle(0, Cy, true) == 0x01;
    assert Toggle(0x01, Ac, true) == 0x11;
  }

  /** `daa` adjusts that 0x10 to 0x76. */
  lemma DaaAfterDouble()
    ensures Daa(0x10, 0x11) == (0x76, 0)
  {
    assert IsSet(0x11, Ac) && IsSet(0x11, Cy);
    assert Run(AddOp, 0x10, 6) == (0x16, false, false);
    assert Run(AddOp, 0x16, 0x60) == (0x76, false, false);
    DaaAfterDoubleFlags();
  }

  /** The flags that adjustment leaves: 0x76 clears S, Z, P and both carries. */
  lemma DaaAfterDoubleFlags()
    ensures UpdateFlagsWithCarries(0x11, 0x76, false, false) == 0
  {
    assert CountOnes(0x76) == 5;
    assert Toggle(0x11, S, false) == 0x11;
    assert Toggle(0x11, Z, false) == 0x11;
    assert Toggle(0x11, P, false) == 0x11;
    assert UpdateFlags(0x11, 0x76) == 0x11;
    assert Toggle(0x11, Cy, false) == 0x10;
    assert Toggle(0x10, Ac, false) == 0;
  }

  /** `!a` (the `Cma` instruction). */
  function Complement(a: Byte): (r: Byte)
    ensures r == Not(a)
  {
    NotByte(a);
    0xff - a
  }
}
