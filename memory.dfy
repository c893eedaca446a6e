/** The memory of `src/cpu_state.rs` as a value: the byte buffer of `Ram`,
    its registered read-only ranges and the switch that lets ROM be written,
    with `Ram::new`, `get`, `get_slice`, `get_mut` and `register_rom`. The
    class `CpuState.Ram` implements these operations in place and is proved
    against the functions here. */
module Memory {
  import opened Bits
  import opened Wrappers
  import opened OpCode

  /** `MemoryError`. */
  datatype MemoryError =
    | OutOfBoundRead(addr: nat)
    | ReadOnlyWrite(at: Word)
    | OverlappingRomSections(start: nat, length: nat, newStart: nat, newLength: nat)
    | TooLongRomSection(offset: nat, romLength: nat, ramLength: nat)
    | NotImplementedInstruction(instruction: Instruction)

  /** A ROM range: its start and its length. */
  type Range = (nat, nat)

  /** The contents of a `Ram`. */
  datatype RamView = RamView(mem: seq<Byte>, romRanges: seq<Range>, allowRomWrite: bool)

  /** `Ram::new`: `size` zero bytes and no ROM. */
  function NewRam(size: nat, allowRomWrite: bool): RamView
  {
    RamView(seq(size, _ => 0), [], allowRomWrite)
  }

  /** The address lies in one of the ranges. */
  predicate InRom(ranges: seq<Range>, addr: nat)
  {
    exists k | 0 <= k < |ranges| :: ranges[k].0 <= addr < ranges[k].0 + ranges[k].1
  }

  /** `Ram::get`: only the bounds are checked. */
  function RamGet(ram: RamView, addr: Word): Result<Byte, MemoryError>
  {
    if addr < |ram.mem| then Ok(ram.mem[addr]) else Err(OutOfBoundRead(addr))
  }

  /** `Ram::get_slice`: the bytes from `addr` to the end. */
  function RamGetSlice(ram: RamView, addr: Word): Result<seq<Byte>, MemoryError>
  {
    if addr <= |ram.mem| then Ok(ram.mem[addr..]) else Err(OutOfBoundRead(addr))
  }

  /** `Ram::get_mut`: the slot that may be written at `addr`. A ROM address is
      refused first (unless ROM writes are allowed), then an address past the end. */
  function RamGetMut(ram: RamView, addr: Word): (r: Result<nat, MemoryError>)
    ensures r.Ok? ==> r.value == addr < |ram.mem|
  {
    if !ram.allowRomWrite && InRom(ram.romRanges, addr) then Err(ReadOnlyWrite(addr))
    else if addr >= |ram.mem| then Err(OutOfBoundRead(addr))
    else Ok(addr)
  }

  /** `*ram.get_mut(addr)? = v`. */
  function RamStore(ram: RamView, addr: Word, v: Byte): (r: Result<RamView, MemoryError>)
    ensures r.Ok? ==> RomKept(ram, r.value)
    ensures r.Ok? ==> RamGet(r.value, addr) == Ok(v)
    ensures r.Ok? ==> forall a | 0 <= a < |ram.mem| && a != addr :: r.value.mem[a] == ram.mem[a]
  {
    match RamGetMut(ram, addr)
    case Err(e) => Err(e)
    case Ok(i) => Ok(ram.(mem := ram.mem[i := v]))
  }

  /** The second memory has the same size, ranges and switch, and, when ROM is
      write-protected, the same bytes in every ROM range. */
  predicate RomKept(r0: RamView, r1: RamView)
  {
    && |r1.mem| == |r0.mem|
    && r1.romRanges == r0.romRanges
    && r1.allowRomWrite == r0.allowRomWrite
    && (!r0.allowRomWrite ==>
          forall a | 0 <= a < |r0.mem| && InRom(r0.romRanges, a) :: r1.mem[a] == r0.mem[a])
  }

  lemma RomKeptTrans(r0: RamView, r1: RamView, r2: RamView)
    requires RomKept(r0, r1) && RomKept(r1, r2)
    ensures RomKept(r0, r2)
  {
  }

  /** The condition of the `register_rom` loop: `[s, e)` meets the range. */
  predicate Overlaps(range: Range, s: nat, e: nat)
  {
    e > range.0 && range.0 + range.1 > s
  }

  /** The first registered range that `[s, e)` meets, or `|ranges|`. */
  function FirstOverlap(ranges: seq<Range>, s: nat, e: nat): (k: nat)
    ensures k <= |ranges|
    ensures forall j | 0 <= j < k :: !Overlaps(ranges[j], s, e)
    ensures k < |ranges| ==> Overlaps(ranges[k], s, e)
  {
    if |ranges| == 0 then 0
    else if Overlaps(ranges[0], s, e) then 0
    else 1 + FirstOverlap(ranges[1..], s, e)
  }

  /** `Ram::register_rom`: refuses a section that does not fit or that meets a
      registered range (reporting the first one), otherwise records the range
      and copies the bytes. */
  function RegisterRom(ram: RamView, rom: seq<Byte>, offset: nat): Result<RamView, MemoryError>
  {
    var e := offset + |rom|;
    if e > |ram.mem| then Err(TooLongRomSection(offset, |rom|, |ram.mem|))
    else
      var k := FirstOverlap(ram.romRanges, offset, e);
      if k < |ram.romRanges| then
        Err(OverlappingRomSections(ram.romRanges[k].0, ram.romRanges[k].1, offset, e - offset))
      else
        Ok(RamView(ram.mem[..offset] + rom + ram.mem[e..],
                   ram.romRanges + [(offset, |rom|)], ram.allowRomWrite))
  }

  /** Every registered range lies inside the buffer and meets no earlier one. */
  predicate RamValid(ram: RamView)
  {
    && (forall i | 0 <= i < |ram.romRanges| :: ram.romRanges[i].0 + ram.romRanges[i].1 <= |ram.mem|)
    && (forall i, j | 0 <= j < i < |ram.romRanges| ::
          !Overlaps(ram.romRanges[j], ram.romRanges[i].0, ram.romRanges[i].0 + ram.romRanges[i].1))
  }

  lemma NewRamValid(size: nat, allowRomWrite: bool)
    ensures RamValid(NewRam(size, allowRomWrite))
    ensures |NewRam(size, allowRomWrite).mem| == size
    ensures forall a: Word | a < size :: RamGet(NewRam(size, allowRomWrite), a) == Ok(0)
  {
  }

  /** The outcomes of `register_rom`: too long exactly when the end passes the
      buffer; otherwise overlapping exactly when some range meets the section,
      naming the first such range; otherwise the section is recorded, its bytes
      copied and every other byte kept. Valid memories stay valid. */
  lemma RegisterRomResult(ram: RamView, rom: seq<Byte>, offset: nat)
    ensures var r := RegisterRom(ram, rom, offset);
      && (r.Err? && r.error.TooLongRomSection? <==> offset + |rom| > |ram.mem|)
      && (r.Err? && r.error.TooLongRomSection? ==>
            r.error == TooLongRomSection(offset, |rom|, |ram.mem|))
      && (r.Err? && r.error.OverlappingRomSections? <==>
            offset + |rom| <= |ram.mem|
            && exists k | 0 <= k < |ram.romRanges| :: Overlaps(ram.romRanges[k], offset, offset + |rom|))
      && (r.Err? && r.error.OverlappingRomSections? ==>
            exists k | 0 <= k < |ram.romRanges| ::
              && Overlaps(ram.romRanges[k], offset, offset + |rom|)
              && r.error == OverlappingRomSections(ram.romRanges[k].0, ram.romRanges[k].1, offset, |rom|))
      && (r.Err? ==> r.error.TooLongRomSection? || r.error.OverlappingRomSections?)
      && (r.Ok? ==>
            && |r.value.mem| == |ram.mem|
            && r.value.romRanges == ram.romRanges + [(offset, |rom|)]
            && r.value.allowRomWrite == ram.allowRomWrite
            && (forall i | 0 <= i < |rom| :: r.value.mem[offset + i] == rom[i])
            && (forall a | 0 <= a < |ram.mem| && !(offset <= a < offset + |rom|) ::
                  r.value.mem[a] == ram.mem[a]))
      && (r.Ok? && RamValid(ram) ==> RamValid(r.value))
  {
    var e := offset + |rom|;
    if e <= |ram.mem| {
      var k := FirstOverlap(ram.romRanges, offset, e);
      if k == |ram.romRanges| {
        var m := ram.mem[..offset] + rom + ram.mem[e..];
        forall i | 0 <= i < |rom|
          ensures m[offset + i] == rom[i]
        {
        }
        forall a | 0 <= a < |ram.mem| && !(offset <= a < e)
          ensures m[a] == ram.mem[a]
        {
          if a >= e {
            assert m[a] == ram.mem[e..][a - e];
          }
        }
      }
    }
  }

  /** `get_mut` refuses every ROM address while ROM is write-protected, refuses
      every address past the end, and hands out every other address. */
  lemma RamGetMutResult(ram: RamView, addr: Word)
    ensures !ram.allowRomWrite && InRom(ram.romRanges, addr) ==>
      RamGetMut(ram, addr) == Err(ReadOnlyWrite(addr))
    ensures (ram.allowRomWrite || !InRom(ram.romRanges, addr)) && addr >= |ram.mem| ==>
      RamGetMut(ram, addr) == Err(OutOfBoundRead(addr))
    ensures RamGetMut(ram, addr).Ok? <==>
      addr < |ram.mem| && (ram.allowRomWrite || !InRom(ram.romRanges, addr))
  {
  }

  /** `get` and `get_slice` only check the bounds: ROM can always be read, and
      the slice starts with the byte `get` returns. */
  lemma RamGetResult(ram: RamView, addr: Word)
    ensures RamGet(ram, addr).Ok? <==> addr < |ram.mem|
    ensures RamGetSlice(ram, addr).Ok? <==> addr <= |ram.mem|
    ensures RamGet(ram, addr).Ok? ==>
      |RamGetSlice(ram, addr).value| == |ram.mem| - addr
      && RamGetSlice(ram, addr).value[0] == RamGet(ram, addr).value
  {
  }

  /** Two ROM sections at [50, 60) and [60, 80) in 100 bytes: 0, 49, 80 and 99
      can be written, 50, 59, 60 and 79 are read-only, 100 is out of bounds. */
  lemma RomBoundaries()
    ensures RegisterRom(NewRam(100, false), seq(10, _ => 0), 50).Ok?
    ensures var r1 := RegisterRom(NewRam(100, false), seq(10, _ => 0), 50).value;
      RegisterRom(r1, seq(20, _ => 0), 60).Ok?
    ensures var r1 := RegisterRom(NewRam(100, false), seq(10, _ => 0), 50).value;
      var r2 := RegisterRom(r1, seq(20, _ => 0), 60).value;
      && RamGetMut(r2, 0).Ok? && RamGetMut(r2, 49).Ok?
      && RamGetMut(r2, 50) == Err(ReadOnlyWrite(50)) && RamGetMut(r2, 59) == Err(ReadOnlyWrite(59))
      && RamGetMut(r2, 60) == Err(ReadOnlyWrite(60)) && RamGetMut(r2, 79) == Err(ReadOnlyWrite(79))
      && RamGetMut(r2, 80).Ok? && RamGetMut(r2, 99).Ok?
      && RamGetMut(r2, 100) == Err(OutOfBoundRead(100))
  {
    var r0 := NewRam(100, false);
    RegisterRomResult(r0, seq(10, _ => 0), 50);
    var r1 := RegisterRom(r0, seq(10, _ => 0), 50).value;
    RegisterRomResult(r1, seq(20, _ => 0), 60);
    var r2 := RegisterRom(r1, seq(20, _ => 0), 60).value;
    TwoSections(r2);
  }

  lemma TwoSections(r: RamView)
    requires r.romRanges == [(50, 10), (60, 20)] && |r.mem| == 100 && !r.allowRomWrite
    ensures RamGetMut(r, 0).Ok? && RamGetMut(r, 49).Ok?
    ensures RamGetMut(r, 50) == Err(ReadOnlyWrite(50)) && RamGetMut(r, 59) == Err(ReadOnlyWrite(59))
    ensures RamGetMut(r, 60) == Err(ReadOnlyWrite(60)) && RamGetMut(r, 79) == Err(ReadOnlyWrite(79))
    ensures RamGetMut(r, 80).Ok? && RamGetMut(r, 99).Ok?
    ensures RamGetMut(r, 100) == Err(OutOfBoundRead(100))
  {
    forall a: Word | a < 50 || 80 <= a
      ensures !InRom(r.romRanges, a)
    {
    }
    assert r.romRanges[0].0 <= 50 < r.romRanges[0].0 + r.romRanges[0].1;
    assert r.romRanges[0].0 <= 59 < r.romRanges[0].0 + r.romRanges[0].1;
    assert r.romRanges[1].0 <= 60 < r.romRanges[1].0 + r.romRanges[1].1;
    assert r.romRanges[1].0 <= 79 < r.romRanges[1].0 + r.romRanges[1].1;
  }

  /** A 20-byte section at 55 meets the 10-byte section at 50. */
  lemma RomOverlap()
    ensures RegisterRom(NewRam(100, false), seq(10, _ => 0), 50).Ok?
    ensures var r1 := RegisterRom(NewRam(100, false), seq(10, _ => 0), 50).value;
      RegisterRom(r1, seq(20, _ => 0), 55) == Err(OverlappingRomSections(50, 10, 55, 20))
  {
    var r0 := NewRam(100, false);
    RegisterRomResult(r0, seq(10, _ => 0), 50);
    var r1 := RegisterRom(r0, seq(10, _ => 0), 50).value;
    assert r1.romRanges == [(50, 10)];
    assert FirstOverlap(r1.romRanges, 55, 75) == 0;
  }
}
