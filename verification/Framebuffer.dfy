/**
 * The packed monochrome framebuffer of the 106x65 display.
 *
 * The buffer holds 9 horizontal bands of 8 pixel rows. Band `y / 8` is 106
 * bytes wide, one byte per column, and row `y` of the band is the bit selected
 * by `128 >> (y % 8)`: the top row of a band is the most significant bit.
 * Band 8 holds only row 64; its other 7 bits are padding rows 65..71.
 */
module Framebuffer {
  import opened Types

  const Width: int := 106
  const Height: int := 65
  /** Number of 8-row bands, `(Height + 7) / 8`. */
  const Bands: int := (Height + 7) / 8
  /** Bytes in the buffer, `Width * Bands`. */
  const BufferSize: int := Width * Bands
  /** Rows the buffer can store: the visible rows plus the padding of the last band. */
  const StoredRows: int := 8 * Bands

  /** Colour values accepted by drawPixel. */
  const Off: int := 0
  const On: int := 1
  const Inverse: int := 2

  lemma Geometry()
    ensures Bands == 9 && BufferSize == 954 && StoredRows == 72
    ensures Height == 8 * (Bands - 1) + 1
  {
  }

  /** A pixel the display shows. */
  predicate InRange(x: int, y: int)
  {
    0 <= x < Width && 0 <= y < Height
  }

  /** A pixel position the buffer has room for, padding rows included. */
  predicate Stored(x: int, y: int)
  {
    0 <= x < Width && 0 <= y < StoredRows
  }

  /** Bit `k` of a byte, bit 0 being the least significant. */
  predicate Bit(v: bv8, k: nat)
    requires k < 8
  {
    v & ((1 as bv8) << k) != 0
  }

  /** Two bytes with the same eight bits are the same byte. */
  lemma BitsDetermineByte(u: bv8, v: bv8)
    requires forall k :: 0 <= k < 8 ==> Bit(u, k) == Bit(v, k)
    ensures u == v
  {
    assert Bit(u, 0) == Bit(v, 0) && Bit(u, 1) == Bit(v, 1);
    assert Bit(u, 2) == Bit(v, 2) && Bit(u, 3) == Bit(v, 3);
    assert Bit(u, 4) == Bit(v, 4) && Bit(u, 5) == Bit(v, 5);
    assert Bit(u, 6) == Bit(v, 6) && Bit(u, 7) == Bit(v, 7);
  }

  /** Byte holding pixel (x, y): column x of band y / 8. */
  function ByteIndex(x: int, y: int): (i: nat)
    requires Stored(x, y)
    ensures i < BufferSize
  {
    x + (y / 8) * Width
  }

  /** The byte index gives back the column (index mod 106) and the band (index div 106). */
  lemma ByteIndexInverse(x: int, y: int)
    requires Stored(x, y)
    ensures ByteIndex(x, y) % Width == x && ByteIndex(x, y) / Width == y / 8
  {
  }

  /** Mask selecting row y within its band's byte: `128 >> (y & 7)`. */
  function BitMask(y: int): (m: bv8)
    requires y >= 0
    ensures m != 0
  {
    (0x80 as bv8) >> (y % 8)
  }

  /** The mask has exactly one bit set. */
  lemma BitMaskOneHot(y: int)
    requires y >= 0
    ensures BitMask(y) & (BitMask(y) - 1) == 0
  {
  }

  /** Whether pixel (x, y) is lit in `buf`. */
  predicate Pixel(buf: seq<bv8>, x: int, y: int)
    requires |buf| == BufferSize && Stored(x, y)
  {
    buf[ByteIndex(x, y)] & BitMask(y) != 0
  }

  /** A pixel is bit `7 - y % 8` of its byte. */
  lemma PixelIsBit(buf: seq<bv8>, x: int, y: int)
    requires |buf| == BufferSize && Stored(x, y)
    ensures Pixel(buf, x, y) == Bit(buf[x + (y / 8) * Width], 7 - y % 8)
  {
  }

  lemma MasksDisjoint(j: int, k: int)
    requires 0 <= j < 8 && 0 <= k < 8 && j != k
    ensures BitMask(j) & BitMask(k) == 0
  {
  }

  /**
   * Distinct stored pixels never share a bit: they lie in different bytes,
   * or in the same byte under disjoint masks.
   */
  lemma AddressesDistinct(x1: int, y1: int, x2: int, y2: int)
    requires Stored(x1, y1) && Stored(x2, y2) && (x1, y1) != (x2, y2)
    ensures ByteIndex(x1, y1) != ByteIndex(x2, y2) || BitMask(y1) & BitMask(y2) == 0
  {
    if ByteIndex(x1, y1) == ByteIndex(x2, y2) {
      ByteIndexInverse(x1, y1);
      ByteIndexInverse(x2, y2);
      assert x1 == x2 && y1 / 8 == y2 / 8;
      assert y1 % 8 != y2 % 8;
      MasksDisjoint(y1 % 8, y2 % 8);
    }
  }

  /** New value of a pixel painted with `color` whose value was `was`. */
  function Painted(was: bool, color: int): bool
  {
    if color == On then true
    else if color == Off then false
    else if color == Inverse then !was
    else was
  }

  /** `b |= m`: the bits of `m` set. */
  function SetBits(b: bv8, m: bv8): bv8 { b | m }

  /** `b &= ~m`: the bits of `m` cleared. */
  function ClearBits(b: bv8, m: bv8): bv8 { b & !m }

  /** `b ^= m`: the bits of `m` flipped. */
  function FlipBits(b: bv8, m: bv8): bv8 { b ^ m }

  /** A byte after painting the bits of mask `m` with `color`: the switch of drawPixel, which has no default. */
  function Paint(b: bv8, m: bv8, color: int): (r: bv8)
    ensures color != On && color != Off && color != Inverse ==> r == b
  {
    if color == On then SetBits(b, m)
    else if color == Off then ClearBits(b, m)
    else if color == Inverse then FlipBits(b, m)
    else b
  }

  /** The buffer after drawPixel(x, y, color). */
  function SetPixel(buf: seq<bv8>, x: int, y: int, color: int): (r: seq<bv8>)
    requires |buf| == BufferSize
    ensures |r| == BufferSize
  {
    if InRange(x, y) then
      var i := ByteIndex(x, y);
      buf[i := Paint(buf[i], BitMask(y), color)]
    else buf
  }

  /** Off-screen drawing and colours other than Off, On and Inverse leave the buffer unchanged. */
  lemma SetPixelNoOp(buf: seq<bv8>, x: int, y: int, color: int)
    requires |buf| == BufferSize
    requires !InRange(x, y) || color !in {Off, On, Inverse}
    ensures SetPixel(buf, x, y, color) == buf
  {
  }

  /** drawPixel changes no byte other than the one holding the pixel, whose index is below 954. */
  lemma SetPixelFrame(buf: seq<bv8>, x: int, y: int, color: int)
    requires |buf| == BufferSize && InRange(x, y)
    ensures ByteIndex(x, y) < BufferSize
    ensures forall j :: 0 <= j < BufferSize && j != ByteIndex(x, y) ==> SetPixel(buf, x, y, color)[j] == buf[j]
  {
  }

  /**
   * Byte-level effect of drawPixel on a visible pixel: the bits outside the
   * pixel's mask keep their values.
   */
  lemma SetPixelKeepsOtherBits(buf: seq<bv8>, x: int, y: int, color: int)
    requires |buf| == BufferSize && InRange(x, y)
    ensures SetPixel(buf, x, y, color)[ByteIndex(x, y)] & !BitMask(y) == buf[ByteIndex(x, y)] & !BitMask(y)
  {
    var i, m := ByteIndex(x, y), BitMask(y);
    assert SetPixel(buf, x, y, color)[i] == Paint(buf[i], m, color);
    if color == On {
      OrMask(buf[i], m);
    } else if color == Off {
      AndNotMask(buf[i], m);
    } else if color == Inverse {
      XorMask(buf[i], m);
    }
  }

  /**
   * Byte-level effect of drawPixel on a visible pixel's own bit: ON sets it,
   * OFF clears it, INVERSE flips it, and any other colour leaves the byte alone.
   */
  lemma SetPixelByte(buf: seq<bv8>, x: int, y: int, color: int)
    requires |buf| == BufferSize && InRange(x, y)
    ensures var r, b, m := SetPixel(buf, x, y, color)[ByteIndex(x, y)], buf[ByteIndex(x, y)], BitMask(y);
      && (color == On ==> r & m == m)
      && (color == Off ==> r & m == 0)
      && (color == Inverse ==> r & m == (b & m) ^ m)
      && (color != Off && color != On && color != Inverse ==> r == b)
  {
    var i, m := ByteIndex(x, y), BitMask(y);
    assert SetPixel(buf, x, y, color)[i] == Paint(buf[i], m, color);
    if color == On {
      OrMask(buf[i], m);
    } else if color == Off {
      AndNotMask(buf[i], m);
    } else if color == Inverse {
      XorMask(buf[i], m);
    }
  }

  /** Or-ing a mask sets the masked bits and keeps the others. */
  lemma OrMask(b: bv8, m: bv8)
    ensures SetBits(b, m) & !m == b & !m && SetBits(b, m) & m == m
  {
  }

  /** And-ing with a mask's complement clears the masked bits and keeps the others. */
  lemma AndNotMask(b: bv8, m: bv8)
    ensures ClearBits(b, m) & !m == b & !m
    ensures ClearBits(b, m) & m == 0
  {
  }

  /** Xor-ing a mask flips the masked bits and keeps the others. */
  lemma XorMask(b: bv8, m: bv8)
    ensures FlipBits(b, m) & !m == b & !m
    ensures FlipBits(b, m) & m == (b & m) ^ m
  {
  }

  /**
   * Pixel-level effect of drawPixel on a visible pixel: that pixel takes its
   * painted value and every other stored pixel, padding included, keeps its own.
   */
  lemma SetPixelPixels(buf: seq<bv8>, x: int, y: int, color: int, x2: int, y2: int)
    requires |buf| == BufferSize && InRange(x, y) && Stored(x2, y2)
    ensures Pixel(SetPixel(buf, x, y, color), x2, y2)
         == if (x2, y2) == (x, y) then Painted(Pixel(buf, x, y), color) else Pixel(buf, x2, y2)
  {
    if (x2, y2) != (x, y) {
      AddressesDistinct(x, y, x2, y2);
    }
  }

  /** Inverting the same pixel twice restores the buffer. */
  lemma InverseTwice(buf: seq<bv8>, x: int, y: int)
    requires |buf| == BufferSize
    ensures SetPixel(SetPixel(buf, x, y, Inverse), x, y, Inverse) == buf
  {
    if InRange(x, y) {
      var i, m := ByteIndex(x, y), BitMask(y);
      var b := buf[i];
      FlipTwice(b, m);
      assert buf[i := FlipBits(b, m)][i := FlipBits(FlipBits(b, m), m)] == buf;
    }
  }

  lemma FlipTwice(b: bv8, m: bv8)
    ensures FlipBits(FlipBits(b, m), m) == b
  {
  }

  /** On followed by Off is the same as Off alone. */
  lemma OnThenOff(buf: seq<bv8>, x: int, y: int)
    requires |buf| == BufferSize
    ensures SetPixel(SetPixel(buf, x, y, On), x, y, Off) == SetPixel(buf, x, y, Off)
  {
    if InRange(x, y) {
      var i, m := ByteIndex(x, y), BitMask(y);
      var b := buf[i];
      ClearAfterSet(b, m);
      assert SetPixel(buf, x, y, On) == buf[i := SetBits(b, m)];
      assert SetPixel(buf[i := SetBits(b, m)], x, y, Off) == buf[i := ClearBits(SetBits(b, m), m)];
    }
  }

  lemma ClearAfterSet(b: bv8, m: bv8)
    ensures ClearBits(SetBits(b, m), m) == ClearBits(b, m)
  {
  }

  /** Off leaves the buffer as it was exactly when the pixel was already off. */
  lemma OffKeepsIffUnlit(buf: seq<bv8>, x: int, y: int)
    requires |buf| == BufferSize && InRange(x, y)
    ensures SetPixel(buf, x, y, Off) == buf <==> !Pixel(buf, x, y)
  {
    var i, m := ByteIndex(x, y), BitMask(y);
    var b := buf[i];
    OffWritesCleared(buf, x, y);
    ClearKeepsIffUnset(b, m);
    UpdateKeepsIffSame(buf, i, ClearBits(b, m));
  }

  /** Off on a visible pixel stores the cleared byte at the pixel's address. */
  lemma OffWritesCleared(buf: seq<bv8>, x: int, y: int)
    requires |buf| == BufferSize && InRange(x, y)
    ensures SetPixel(buf, x, y, Off) == buf[ByteIndex(x, y) := ClearBits(buf[ByteIndex(x, y)], BitMask(y))]
  {
  }

  /** Overwriting one element leaves a sequence unchanged exactly when the new value equals the old. */
  lemma UpdateKeepsIffSame(s: seq<bv8>, i: nat, v: bv8)
    requires i < |s|
    ensures s[i := v] == s <==> v == s[i]
  {
    if v != s[i] {
      assert s[i := v][i] != s[i];
    }
  }

  lemma ClearKeepsIffUnset(b: bv8, m: bv8)
    ensures ClearBits(b, m) == b <==> b & m == 0
  {
  }

  /** Byte that fillScreen(color) writes everywhere: all-on for any non-zero colour. */
  function FillByte(color: uint16): (v: bv8)
    ensures v == 0 || v == 0xFF
    ensures v != 0 <==> color != 0
  {
    if color != 0 then 0xFF else 0x00
  }

  /** A buffer whose every byte is `v`. */
  function Filled(v: bv8): (r: seq<bv8>)
    ensures |r| == BufferSize
    ensures forall i :: 0 <= i < BufferSize ==> r[i] == v
  {
    seq(BufferSize, _ => v)
  }

  /** The all-zero buffer produced by clearDisplay. */
  function Cleared(): (r: seq<bv8>)
    ensures |r| == BufferSize
    ensures forall i :: 0 <= i < BufferSize ==> r[i] == 0
  {
    Filled(0)
  }

  /**
   * After fillScreen(color) every stored pixel is lit iff color is non-zero;
   * fillScreen(0) and clearDisplay leave identical buffers.
   */
  lemma FillPixels(color: uint16, x: int, y: int)
    requires Stored(x, y)
    ensures Pixel(Filled(FillByte(color)), x, y) <==> color != 0
    ensures Filled(FillByte(0)) == Cleared()
  {
  }
}
