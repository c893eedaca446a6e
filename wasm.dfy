/** The browser front end's two pieces of emulator logic: `bitmap_to_rgba`,
    which turns the one-bit video memory into the rotated RGBA image the
    canvas shows, and `SpaceInvadersPorts`, which answers the game's `IN`
    and `OUT` instructions with eight input ports, eight output ports and
    the cabinet's 16-bit shift register. */
module Wasm {
  import opened Bits
  import opened Wrappers
  import Arith

  // ---------------------------------------------------------------- pixels

  /** The pixel that bit `bit` of byte `(x, y)` lands on. The cabinet's
      screen is turned a quarter turn, so column `8x + bit` of row `y`
      becomes row `8w - 1 - (8x + bit)` of an image `h` pixels wide. */
  function PixelIndex(w: nat, h: nat, x: nat, y: nat, bit: nat): nat
    requires x < w && bit < 8
  {
    y + h * (8 * w - 1 - (8 * x + bit))
  }

  /** The index as `bitmap_to_rgba` computes it, from the display width
      `w * 8` and the display column `x * 8 + bit`. */
  lemma DisplayIndex(w: nat, h: nat, x: nat, y: nat, bit: nat)
    requires x < w && bit < 8
    ensures y + h * (w * 8 - 1 - (x * 8 + bit)) == PixelIndex(w, h, x, y, bit)
  {
  }

  /** Every bit of a `w` by `h` bitmap lands on one of its `8wh` pixels. */
  lemma PixelIndexInRange(w: nat, h: nat, x: nat, y: nat, bit: nat)
    requires x < w && y < h && bit < 8
    ensures PixelIndex(w, h, x, y, bit) < w * h * 8
    ensures PixelIndex(w, h, x, y, bit) * 4 + 3 < w * h * 8 * 4
  {
    var c := 8 * w - 1 - (8 * x + bit);
    MulMono(h, c, 8 * w - 1);
    assert h * (8 * w - 1) == w * h * 8 - h;
  }

  /** The byte `(x, y)` of a `w` by `h` bitmap is inside it. */
  lemma ByteInBitmap(w: nat, h: nat, x: nat, y: nat)
    requires x < w && y < h
    ensures y * w + x < w * h
  {
    MulMono(w, y, h - 1);
    assert w * (h - 1) == w * h - w;
  }

  /** Distinct bits land on distinct pixels. */
  lemma PixelIndexInjective(w: nat, h: nat, x1: nat, y1: nat, b1: nat, x2: nat, y2: nat, b2: nat)
    requires x1 < w && y1 < h && b1 < 8 && x2 < w && y2 < h && b2 < 8
    ensures PixelIndex(w, h, x1, y1, b1) == PixelIndex(w, h, x2, y2, b2) ==> x1 == x2 && y1 == y2 && b1 == b2
  {
    if PixelIndex(w, h, x1, y1, b1) == PixelIndex(w, h, x2, y2, b2) {
      var q := PixelIndex(w, h, x1, y1, b1);
      DivUnique(q, h, 8 * w - 1 - (8 * x1 + b1), y1);
      DivUnique(q, h, 8 * w - 1 - (8 * x2 + b2), y2);
    }
  }

  /** The bit `(x, y, bit)` of the bitmap that pixel `q` shows: every pixel
      shows one, so together with `PixelIndexInjective` the pixel map is a
      bijection from the bits onto `[0, 8wh)`. */
  function PixelSource(w: nat, h: nat, q: nat): (t: (nat, nat, nat))
    requires q < w * h * 8
    ensures t.0 < w && t.1 < h && t.2 < 8
    ensures PixelIndex(w, h, t.0, t.1, t.2) == q
  {
    assert h > 0;
    var c := q / h;
    assert c < 8 * w by {
      if c >= 8 * w {
        MulMono(h, 8 * w, c);
        assert false;
      }
    }
    var dx := 8 * w - 1 - c;
    (dx / 8, q % h, dx % 8)
  }

  /** `PixelSource` undoes `PixelIndex`. */
  lemma PixelSourceOfIndex(w: nat, h: nat, x: nat, y: nat, bit: nat)
    requires x < w && y < h && bit < 8
    ensures PixelIndex(w, h, x, y, bit) < w * h * 8
      && PixelSource(w, h, PixelIndex(w, h, x, y, bit)) == (x, y, bit)
  {
    PixelIndexInRange(w, h, x, y, bit);
    var t := PixelSource(w, h, PixelIndex(w, h, x, y, bit));
    PixelIndexInjective(w, h, x, y, bit, t.0, t.1, t.2);
  }

  /** `(byte & (1 << bit)) >> bit` is bit `bit` of `byte`. */
  lemma MaskedBit(x: Byte, k: nat)
    requires k < 8
    ensures Pow2(k) < 0x100
    ensures And(x, Pow2(k)) / Pow2(k) == Bit(x, k)
  {
    Pow2Below(k);
    Pow2Values();
    var m := if Bit(x, k) == 1 then Pow2(k) else 0;
    forall i | 0 <= i < 8
      ensures Bit(And(x, Pow2(k)), i) == Bit(m, i)
    {
      BitAndBits(x, Pow2(k), 8, i);
      Pow2Bits(k, i);
      ZeroBits(i);
    }
    BitsDetermine(And(x, Pow2(k)), m, 8);
  }

  lemma Pow2Below(k: nat)
    requires k < 8
    ensures Pow2(k) < 0x100
  {
    Pow2Mono(k, 7);
    Pow2Values();
  }

  /** The red, green and blue bytes of the pixel that bit `(x, y, bit)`
      lands on are all 255 when the bit is set and all 0 when it is clear. */
  ghost predicate PixelDrawn(s: seq<Byte>, bitmap: seq<Byte>, w: nat, h: nat, x: nat, y: nat, bit: nat)
  {
    x < w && bit < 8 && y * w + x < |bitmap| && 4 * PixelIndex(w, h, x, y, bit) + 2 < |s|
    && var q := PixelIndex(w, h, x, y, bit);
       var v := 255 * Bit(bitmap[y * w + x], bit);
       s[4 * q] == v && s[4 * q + 1] == v && s[4 * q + 2] == v
  }

  /** The colour byte `k` of the image, read from the bit its pixel shows. */
  function Colour(bitmap: seq<Byte>, w: nat, h: nat, k: nat): Byte
    requires w * h <= |bitmap| && k < w * h * 8 * 4
  {
    var t := PixelSource(w, h, k / 4);
    ByteInBitmap(w, h, t.0, t.1);
    if k % 4 == 3 then 255 else 255 * Bit(bitmap[t.1 * w + t.0], t.2)
  }

  /** The whole image, pixel by pixel in display order: the reference the
      loop in `BitmapToRgba` is held to. */
  function Rgba(bitmap: seq<Byte>, w: nat, h: nat): (r: seq<Byte>)
    requires w * h <= |bitmap|
    ensures |r| == w * h * 8 * 4
  {
    seq(w * h * 8 * 4, k requires 0 <= k < w * h * 8 * 4 => Colour(bitmap, w, h, k))
  }

  /** `bitmap_to_rgba`: a buffer of `8wh` RGBA pixels, all opaque, in which
      every bit of the bitmap colours its own pixel white or black; every
      byte is the one `Rgba` names. */
  method BitmapToRgba(bitmap: seq<Byte>, w: nat, h: nat) returns (out: array<Byte>)
    requires w * h <= |bitmap|
    ensures out.Length == w * h * 8 * 4
    ensures forall k :: 0 <= k < out.Length && k % 4 == 3 ==> out[k] == 255
    ensures forall x: nat, y: nat, bit: nat :: x < w && y < h && bit < 8 ==> PixelDrawn(out[..], bitmap, w, h, x, y, bit)
    ensures out[..] == Rgba(bitmap, w, h)
  {
    var numberPixels := w * h * 8;
    out := new Byte[numberPixels * 4](_ => 255);
    var y := 0;
    while y < h
      invariant y <= h && out.Length == numberPixels * 4
      invariant forall k :: 0 <= k < out.Length && k % 4 == 3 ==> out[k] == 255
      invariant forall x': nat, y': nat, b': nat :: x' < w && y' < y && b' < 8 ==> PixelDrawn(out[..], bitmap, w, h, x', y', b')
    {
      var x := 0;
      while x < w
        invariant x <= w && out.Length == numberPixels * 4
        invariant forall k :: 0 <= k < out.Length && k % 4 == 3 ==> out[k] == 255
        invariant forall x': nat, y': nat, b': nat :: x' < w && y' <= y && b' < 8 && (y' < y || x' < x) ==>
          PixelDrawn(out[..], bitmap, w, h, x', y', b')
      {
        DrawByte(out, bitmap, w, h, x, y);
        x := x + 1;
      }
      y := y + 1;
    }
    DrawnIsRgba(out[..], bitmap, w, h);
  }

  /** The innermost loop of `bitmap_to_rgba`: the eight bits of byte
      `(x, y)` drawn into their pixels, every bit drawn before kept, and the
      alpha bytes untouched. */
  method DrawByte(out: array<Byte>, bitmap: seq<Byte>, w: nat, h: nat, x: nat, y: nat)
    requires w * h <= |bitmap| && out.Length == w * h * 8 * 4 && x < w && y < h
    modifies out
    ensures forall k :: 0 <= k < out.Length && k % 4 == 3 ==> out[k] == old(out[k])
    ensures forall x': nat, y': nat, b': nat :: PixelDrawn(old(out[..]), bitmap, w, h, x', y', b') && y' < h ==>
      PixelDrawn(out[..], bitmap, w, h, x', y', b')
    ensures forall b': nat :: b' < 8 ==> PixelDrawn(out[..], bitmap, w, h, x, y, b')
  {
    ghost var start := out[..];
    ByteInBitmap(w, h, x, y);
    var byte := bitmap[y * w + x];
    var displayWidth := w * 8;
    var bit := 0;
    while bit < 8
      invariant bit <= 8 && ByteDrawnUpTo(out[..], start, bitmap, w, h, x, y, bit)
    {
      MaskedBit(byte, bit);
      var isSet: Byte := 255 * (And(byte, Pow2(bit)) / Pow2(bit));
      var displayX := x * 8 + bit;
      var q := y + h * (displayWidth - 1 - displayX);
      DisplayIndex(w, h, x, y, bit);
      PixelIndexInRange(w, h, x, y, bit);
      ghost var before: seq<Byte> := out[..];
      out[q * 4] := isSet;
      out[q * 4 + 1] := isSet;
      out[q * 4 + 2] := isSet;
      assert out[..] == before[4 * q := isSet][4 * q + 1 := isSet][4 * q + 2 := isSet];
      DrawPixel(start, before, out[..], bitmap, w, h, x, y, bit, q, isSet);
      bit := bit + 1;
    }
  }

  /** `s` is `start` with bits `0 .. bit - 1` of byte `(x, y)` drawn: the
      alpha bytes and every bit drawn in `start` are kept. */
  ghost predicate ByteDrawnUpTo(s: seq<Byte>, start: seq<Byte>, bitmap: seq<Byte>, w: nat, h: nat, x: nat, y: nat, bit: nat)
  {
    |s| == |start|
    && (forall k :: 0 <= k < |s| && k % 4 == 3 ==> s[k] == start[k])
    && (forall x': nat, y': nat, b': nat :: PixelDrawn(start, bitmap, w, h, x', y', b') && y' < h ==>
         PixelDrawn(s, bitmap, w, h, x', y', b'))
    && forall b': nat :: b' < bit ==> PixelDrawn(s, bitmap, w, h, x, y, b')
  }

  /** Writing the colour of bit `bit` of byte `(x, y)` into its pixel takes
      the loop from `bit` to `bit + 1`: no other bit shares the pixel, and
      the colour bytes are never alpha bytes. */
  lemma DrawPixel(start: seq<Byte>, before: seq<Byte>, after: seq<Byte>, bitmap: seq<Byte>, w: nat, h: nat, x: nat, y: nat, bit: nat, q: nat, v: Byte)
    requires w * h <= |bitmap| && |before| == w * h * 8 * 4 && x < w && y < h && bit < 8
    requires ByteDrawnUpTo(before, start, bitmap, w, h, x, y, bit)
    requires y * w + x < |bitmap| && q == PixelIndex(w, h, x, y, bit) && 4 * q + 2 < |before|
    requires v == 255 * Bit(bitmap[y * w + x], bit)
    requires after == before[4 * q := v][4 * q + 1 := v][4 * q + 2 := v]
    ensures ByteDrawnUpTo(after, start, bitmap, w, h, x, y, bit + 1)
  {
    KeepsOtherPixels(before, after, bitmap, w, h, x, y, bit);
  }

  /** The colour bytes of one pixel are not the alpha byte or the colour
      bytes of any other pixel. */
  lemma KeepsOtherPixels(before: seq<Byte>, after: seq<Byte>, bitmap: seq<Byte>, w: nat, h: nat, x: nat, y: nat, bit: nat)
    requires x < w && y < h && bit < 8
    requires y * w + x < |bitmap| && 4 * PixelIndex(w, h, x, y, bit) + 2 < |before|
    requires var q := PixelIndex(w, h, x, y, bit);
      var v := 255 * Bit(bitmap[y * w + x], bit);
      after == before[4 * q := v][4 * q + 1 := v][4 * q + 2 := v]
    ensures forall k :: 0 <= k < |after| && k % 4 == 3 ==> after[k] == before[k]
    ensures forall x': nat, y': nat, b': nat :: PixelDrawn(before, bitmap, w, h, x', y', b') && y' < h ==>
      PixelDrawn(after, bitmap, w, h, x', y', b')
  {
    forall x': nat, y': nat, b': nat | PixelDrawn(before, bitmap, w, h, x', y', b') && y' < h
      ensures PixelDrawn(after, bitmap, w, h, x', y', b')
    {
      PixelIndexInjective(w, h, x, y, bit, x', y', b');
    }
  }

  /** A buffer of the right length whose alpha bytes are 255 and whose every
      bit is drawn is the image `Rgba`: the pixel map leaves no byte over. */
  lemma DrawnIsRgba(s: seq<Byte>, bitmap: seq<Byte>, w: nat, h: nat)
    requires w * h <= |bitmap| && |s| == w * h * 8 * 4
    requires forall k :: 0 <= k < |s| && k % 4 == 3 ==> s[k] == 255
    requires forall x: nat, y: nat, bit: nat :: x < w && y < h && bit < 8 ==> PixelDrawn(s, bitmap, w, h, x, y, bit)
    ensures s == Rgba(bitmap, w, h)
  {
    forall k | 0 <= k < |s|
      ensures s[k] == Rgba(bitmap, w, h)[k]
    {
      if k % 4 != 3 {
        var t := PixelSource(w, h, k / 4);
        assert PixelDrawn(s, bitmap, w, h, t.0, t.1, t.2);
      }
    }
  }

  // ---------------------------------------------------------------- ports

  /** The port handler's state as values: the input ports the keyboard
      sets, the output ports the game writes, and the shift register. */
  datatype Ports = Ports(inPorts: seq<Byte>, outPorts: seq<Byte>, shift: Word)

  predicate ValidPorts(p: Ports)
  {
    |p.inPorts| == 8 && |p.outPorts| == 8
  }

  /** `write(port, value)`: port 4 shifts `value` into the register from
      the top, pushing its old high byte down to the low byte; any other
      port stores `value` as that output port. */
  function WritePort(p: Ports, port: Byte, value: Byte): (r: Ports)
    requires ValidPorts(p) && port < 8
    ensures ValidPorts(r) && r.inPorts == p.inPorts
    ensures port == 4 ==> r.shift / 0x100 == value && r.shift % 0x100 == p.shift / 0x100 && r.outPorts == p.outPorts
    ensures port != 4 ==> r.shift == p.shift && r.outPorts[port] == value
    ensures port != 4 ==> forall j :: 0 <= j < 8 && j != port ==> r.outPorts[j] == p.outPorts[j]
  {
    if port == 4 then p.(shift := value * 0x100 + p.shift / 0x100)
    else p.(outPorts := p.outPorts[port := value])
  }

  /** `read(port)`: port 3 answers the byte of the shift register that
      starts at bit `out_ports[2] & 7`; any other port answers that input
      port. */
  function ReadPort(p: Ports, port: Byte): Byte
    requires ValidPorts(p) && port < 8
  {
    if port == 3 then p.shift / Pow2(And(p.outPorts[2], 7)) % 0x100
    else p.inPorts[port]
  }

  /** `set_input_bit(port, bit)`: `in_ports[port] |= 1 << bit`. */
  function SetInput(p: Ports, port: nat, bit: nat): (r: Ports)
    requires ValidPorts(p) && port < 8 && bit < 8
    ensures ValidPorts(r)
  {
    Pow2Below(bit);
    p.(inPorts := p.inPorts[port := Or(p.inPorts[port], Pow2(bit))])
  }

  /** `clear_input_bit(port, bit)`: `in_ports[port] &= !(1 << bit)`. */
  function ClearInput(p: Ports, port: nat, bit: nat): (r: Ports)
    requires ValidPorts(p) && port < 8 && bit < 8
    ensures ValidPorts(r)
  {
    Pow2Below(bit);
    p.(inPorts := p.inPorts[port := And(p.inPorts[port], Not(Pow2(bit)))])
  }

  /** `x & 7` is `x` modulo 8. */
  lemma AndSeven(x: Byte)
    ensures And(x, 7) == x % 8
  {
    Pow2Values();
    assert Pow2(3) == 8;
    LowMask(x, 3, 8);
    BitAndComm(x, 7, 8);
  }

  /** Two writes to port 4 leave the last value in the high byte and the
      one before it in the low byte; reading port 3 then answers the byte
      that starts `k % 8` bits up, where `k` is the value of output port 2
      (written before or between them, since port-4 writes keep it). */
  lemma {:induction false} ShiftRegisterWindow(p: Ports, first: Byte, second: Byte, k: Byte)
    requires ValidPorts(p)
    ensures var n := WritePort(WritePort(WritePort(p, 2, k), 4, first), 4, second);
      n.shift == second * 0x100 + first
      && ReadPort(n, 3) == (second * 0x100 + first) / Pow2(k % 8) % 0x100
  {
    AndSeven(k);
  }

  /** With offset 0 the register answers the older of the two bytes. */
  lemma ShiftRegisterUnshifted(p: Ports, first: Byte, second: Byte)
    requires ValidPorts(p)
    ensures ReadPort(WritePort(WritePort(WritePort(p, 2, 0), 4, first), 4, second), 3) == first
  {
    ShiftRegisterWindow(p, first, second, 0);
  }

  /** Writes never change what the input ports answer, and only writes to
      port 2 or 4 change what port 3 answers. */
  lemma WriteKeepsReads(p: Ports, port: Byte, value: Byte, other: Byte)
    requires ValidPorts(p) && port < 8 && other < 8
    requires other != 3 || (port != 2 && port != 4)
    ensures ReadPort(WritePort(p, port, value), other) == ReadPort(p, other)
  {
  }

  /** `set_input_bit` sets the one bit of the one input port and keeps every
      other bit, port and the shift register. */
  lemma {:induction false} SetInputBits(p: Ports, port: nat, bit: nat)
    requires ValidPorts(p) && port < 8 && bit < 8
    ensures var n := SetInput(p, port, bit);
      ValidPorts(n) && n.outPorts == p.outPorts && n.shift == p.shift
      && (forall j :: 0 <= j < 8 && j != port ==> n.inPorts[j] == p.inPorts[j])
      && forall i :: 0 <= i < 8 ==> Bit(n.inPorts[port], i) == if i == bit then 1 else Bit(p.inPorts[port], i)
  {
    Pow2Below(bit);
    Pow2Values();
    forall i | 0 <= i < 8
      ensures Bit(Or(p.inPorts[port], Pow2(bit)), i) == if i == bit then 1 else Bit(p.inPorts[port], i)
    {
      BitOrBits(p.inPorts[port], Pow2(bit), 8, i);
      Pow2Bits(bit, i);
    }
  }

  /** `x & !(1 << k)` keeps every bit of `x` but bit `k`, which it clears. */
  lemma AndNotBits(x: Byte, k: nat)
    requires k < 8
    ensures Pow2(k) < 0x100
    ensures forall i :: 0 <= i < 8 ==> Bit(And(x, Not(Pow2(k))), i) == if i == k then 0 else Bit(x, i)
  {
    Pow2Below(k);
    forall i | 0 <= i < 8
      ensures Bit(And(x, Not(Pow2(k))), i) == if i == k then 0 else Bit(x, i)
    {
      Arith.AndNotPow2Bit(x, k, i);
    }
  }

  /** `clear_input_bit` clears the one bit of the one input port and keeps
      every other bit, port and the shift register. */
  lemma {:induction false} ClearInputBits(p: Ports, port: nat, bit: nat)
    requires ValidPorts(p) && port < 8 && bit < 8
    ensures var n := ClearInput(p, port, bit);
      ValidPorts(n) && n.outPorts == p.outPorts && n.shift == p.shift
      && (forall j :: 0 <= j < 8 && j != port ==> n.inPorts[j] == p.inPorts[j])
      && forall i :: 0 <= i < 8 ==> Bit(n.inPorts[port], i) == if i == bit then 0 else Bit(p.inPorts[port], i)
  {
    AndNotBits(p.inPorts[port], bit);
    var n := ClearInput(p, port, bit);
    assert n.inPorts == p.inPorts[port := And(p.inPorts[port], Not(Pow2(bit)))];
  }

  /** Releasing a key undoes pressing it: clearing a bit that was clear
      before it was set gives back the ports as they were. */
  lemma {:induction false} ClearUndoesSet(p: Ports, port: nat, bit: nat)
    requires ValidPorts(p) && port < 8 && bit < 8 && Bit(p.inPorts[port], bit) == 0
    ensures ClearInput(SetInput(p, port, bit), port, bit) == p
  {
    var s := SetInput(p, port, bit);
    SetInputBits(p, port, bit);
    ClearInputBits(s, port, bit);
    var c := ClearInput(s, port, bit);
    Pow2Values();
    BitsDetermine(c.inPorts[port], p.inPorts[port], 8);
    assert c.inPorts == p.inPorts;
  }

  /** Pressing a key undoes releasing it: setting a bit that was set before
      it was cleared gives back the ports as they were. */
  lemma {:induction false} SetUndoesClear(p: Ports, port: nat, bit: nat)
    requires ValidPorts(p) && port < 8 && bit < 8 && Bit(p.inPorts[port], bit) == 1
    ensures SetInput(ClearInput(p, port, bit), port, bit) == p
  {
    var c := ClearInput(p, port, bit);
    ClearInputBits(p, port, bit);
    SetInputBits(c, port, bit);
    var s := SetInput(c, port, bit);
    Pow2Values();
    BitsDetermine(s.inPorts[port], p.inPorts[port], 8);
    assert s.inPorts == p.inPorts;
  }

  /** The four `set_input_bit` calls `space_invaders` makes before the game
      starts set bits 1, 2 and 3 of input port 0 and bit 3 of input port 1,
      and keep every other bit and port. */
  lemma {:induction false} StartingInputs(p: Ports)
    requires ValidPorts(p)
    ensures var n := SetInput(SetInput(SetInput(SetInput(p, 0, 1), 0, 2), 0, 3), 1, 3);
      n.outPorts == p.outPorts && n.shift == p.shift
      && (forall j :: 2 <= j < 8 ==> n.inPorts[j] == p.inPorts[j])
      && (forall i :: 0 <= i < 8 ==> Bit(n.inPorts[0], i) == if 1 <= i <= 3 then 1 else Bit(p.inPorts[0], i))
      && forall i :: 0 <= i < 8 ==> Bit(n.inPorts[1], i) == if i == 3 then 1 else Bit(p.inPorts[1], i)
  {
    var p1 := SetInput(p, 0, 1);
    var p2 := SetInput(p1, 0, 2);
    var p3 := SetInput(p2, 0, 3);
    SetInputBits(p, 0, 1);
    SetInputBits(p1, 0, 2);
    SetInputBits(p2, 0, 3);
    SetInputBits(p3, 1, 3);
  }

  // ---------------------------------------------------------------- keyboard

  /** The bit of input port 1 a key drives in the canvas's key handlers:
      `a` left, `s` right, `w` fire, `q` coin, `e` start; any other key
      drives none. */
  function KeyBit(key: string): (b: Option<nat>)
    ensures b.Some? ==> b.value < 8
  {
    if key == "a" then Some(0)
    else if key == "s" then Some(2)
    else if key == "w" then Some(4)
    else if key == "q" then Some(5)
    else if key == "e" then Some(6)
    else None
  }

  /** The `keydown` handler: sets the key's bit of input port 1. */
  function KeyDown(p: Ports, key: string): (r: Ports)
    requires ValidPorts(p)
    ensures ValidPorts(r)
  {
    match KeyBit(key)
    case Some(b) => SetInput(p, 1, b)
    case None => p
  }

  /** The `keyup` handler: clears the key's bit of input port 1. */
  function KeyUp(p: Ports, key: string): (r: Ports)
    requires ValidPorts(p)
    ensures ValidPorts(r)
  {
    match KeyBit(key)
    case Some(b) => ClearInput(p, 1, b)
    case None => p
  }

  /** A key held down reads as its bit set and a released key as its bit
      clear; no other bit, port or the shift register changes, and keys
      without a binding change nothing. */
  lemma {:induction false} KeyBits(p: Ports, key: string)
    requires ValidPorts(p)
    ensures KeyBit(key).None? ==> KeyDown(p, key) == p && KeyUp(p, key) == p
    ensures KeyBit(key).Some? ==> var b := KeyBit(key).value;
      && Bit(KeyDown(p, key).inPorts[1], b) == 1 && Bit(KeyUp(p, key).inPorts[1], b) == 0
      && (forall i :: 0 <= i < 8 && i != b ==> Bit(KeyDown(p, key).inPorts[1], i) == Bit(p.inPorts[1], i))
      && (forall i :: 0 <= i < 8 && i != b ==> Bit(KeyUp(p, key).inPorts[1], i) == Bit(p.inPorts[1], i))
      && KeyDown(p, key).inPorts[0] == KeyUp(p, key).inPorts[0] == p.inPorts[0]
      && KeyDown(p, key).shift == KeyUp(p, key).shift == p.shift
  {
    if KeyBit(key).Some? {
      SetInputBits(p, 1, KeyBit(key).value);
      ClearInputBits(p, 1, KeyBit(key).value);
    }
  }

  /** Pressing and releasing a key whose bit was clear gives back the
      ports as they were. */
  lemma {:induction false} KeyPressRelease(p: Ports, key: string)
    requires ValidPorts(p)
    requires KeyBit(key).Some? ==> Bit(p.inPorts[1], KeyBit(key).value) == 0
    ensures KeyUp(KeyDown(p, key), key) == p
  {
    if KeyBit(key).Some? {
      ClearUndoesSet(p, 1, KeyBit(key).value);
    }
  }

  /** `SpaceInvadersPorts`: the ports behind a lock and an atomic in the
      browser, plain fields here. */
  class SpaceInvadersPorts {
    const inPorts: array<Byte>
    const outPorts: array<Byte>
    var shift: Word

    ghost predicate Valid()
      reads this
    {
      inPorts.Length == 8 && outPorts.Length == 8 && inPorts != outPorts
    }

    function View(): Ports
      reads this, inPorts, outPorts
    {
      Ports(inPorts[..], outPorts[..], shift)
    }

    /** `SpaceInvadersPorts::default()`: every port and the register zero. */
    constructor()
      ensures Valid() && View() == Ports(seq(8, _ => 0), seq(8, _ => 0), 0)
      ensures fresh(inPorts) && fresh(outPorts)
    {
      inPorts := new Byte[8](_ => 0);
      outPorts := new Byte[8](_ => 0);
      shift := 0;
    }

    method SetInputBit(port: nat, bit: nat)
      requires Valid() && port < 8 && bit < 8
      modifies inPorts
      ensures Valid() && View() == SetInput(old(View()), port, bit)
    {
      Pow2Below(bit);
      inPorts[port] := Or(inPorts[port], Pow2(bit));
    }

    method ClearInputBit(port: nat, bit: nat)
      requires Valid() && port < 8 && bit < 8
      modifies inPorts
      ensures Valid() && View() == ClearInput(old(View()), port, bit)
    {
      Pow2Below(bit);
      inPorts[port] := And(inPorts[port], Not(Pow2(bit)));
    }

    method Write(port: Byte, value: Byte)
      requires Valid() && port < 8
      modifies this, outPorts
      ensures Valid() && View() == WritePort(old(View()), port, value)
    {
      if port == 4 {
        var prev := shift;
        shift := value * 0x100 + prev / 0x100;
      } else {
        outPorts[port] := value;
      }
    }

    function Read(port: Byte): (v: Byte)
      requires Valid() && port < 8
      reads this, inPorts, outPorts
      ensures v == ReadPort(View(), port)
    {
      if port == 3 then shift / Pow2(And(outPorts[2], 7)) % 0x100
      else inPorts[port]
    }
  }
}
