/**
 * What the driver sends to the ICM2 controller, as pure functions of the
 * framebuffer.
 *
 * The controller addresses 9 lines of 8 rows (0x40..0x48). The physical top
 * row of the glass is the most significant bit of line 0x48; physical rows
 * 1..64 are lines 0x40..0x47, one row lower than the framebuffer's bands.
 * So the flush sends the framebuffer's top row to line 0x48 and, for every
 * band, shifts the band up one bit and carries in the next band's top row.
 */
module Protocol {
  import opened Framebuffer

  /** Control byte that opens every data transaction. */
  const DataControl: bv8 := 0x40
  /** Address of controller line 0; lines 0..8 are 0x40..0x48. */
  const FirstLine: bv8 := 0x40
  /** Controller line that holds the physical top row. */
  const TopLine: bv8 := 0x48
  /** Second and third frames of every line selection. */
  const ColumnStart: bv8 := 0x20
  const WriteEnable: bv8 := 0x8d
  /** Zero bytes forceClear writes per line: a literal, not the width field. */
  const ClearLength: int := 106

  /** The three command frames that select controller line `addr` for writing. */
  function SelectFrames(addr: bv8): (r: seq<seq<bv8>>)
    ensures |r| == 3 && |r[0]| == |r[1]| == |r[2]| == 3
    ensures r[0][2] == addr && r[1][2] == ColumnStart && r[2][2] == WriteEnable
  {
    [[0x00, 0x01, addr], [0x00, 0x01, ColumnStart], [0x00, 0x01, WriteEnable]]
  }

  /** One line write: its selection frames, then one data transaction. */
  function Group(addr: bv8, payload: seq<bv8>): (r: seq<seq<bv8>>)
    ensures |r| == 4 && |r[3]| == |payload| + 1
  {
    SelectFrames(addr) + [[DataControl] + payload]
  }

  /** The configuration frames begin() sends, in order (opaque device settings). */
  function InitFrames(): (r: seq<seq<bv8>>)
    ensures |r| == 12
  {
    [
      [0x00, 0x01, 0x10],
      [0x00, 0x01, 0x0e, 0x12],
      [0x00, 0x01, 0x0e, 0x06],
      [0x00, 0x01, 0x0e, 0x0a],
      [0x00, 0x01, 0x0e, 0x24],
      [0x00, 0x01, 0x0e, 0x84],
      [0x00, 0x01, 0x0d, 0x0a],
      [0x00, 0x01, 0x0d, 0x13],
      [0x00, 0x01, 0x0d, 0xb7],
      [0x00, 0x01, 0x0d, 0x07],
      [0x00, 0x01, 0x0b, 0x04],
      [0x00, 0x01, 0x0b, 0x40]
    ]
  }

  /** Every init frame is 3 or 4 bytes long and starts with the 00 01 command prefix. */
  lemma InitFramesShape()
    ensures forall k :: 0 <= k < |InitFrames()| ==>
      (|InitFrames()[k]| == 3 || |InitFrames()[k]| == 4) && InitFrames()[k][..2] == [0x00, 0x01]
  {
  }

  /** Byte sent to line 0x48 for a column: only the column's band-0 top row. */
  function TopRowByte(b: bv8): (r: bv8)
    ensures r & 0x7F == 0
    ensures Bit(r, 7) == Bit(b, 7)
  {
    b & 0x80
  }

  /**
   * Byte sent for a column of band `cur` whose next band's byte is `next`:
   * bit k of the result is bit k-1 of `cur` for k >= 1, and bit 0 is the top
   * bit of `next`.
   */
  function Remap(cur: bv8, next: bv8): (r: bv8)
    ensures forall k :: 1 <= k < 8 ==> Bit(r, k) == Bit(cur, k - 1)
    ensures Bit(r, 0) == Bit(next, 7)
  {
    ((cur & 0x7F) << 1) | ((next & 0x80) >> 7)
  }

  /** Payload for line 0x48: the framebuffer's row 0, column by column. */
  function TopRow(buf: seq<bv8>): (r: seq<bv8>)
    requires |buf| == BufferSize
    ensures |r| == Width
  {
    seq(Width, x requires 0 <= x < Width => TopRowByte(buf[x]))
  }

  /** Payload for line 0x40 + `line`: band `line` shifted up, carrying in band `line + 1`. */
  function BandRow(buf: seq<bv8>, line: int): (r: seq<bv8>)
    requires |buf| == BufferSize && 0 <= line < 8
    ensures |r| == Width
  {
    seq(Width, x requires 0 <= x < Width => Remap(buf[x + line * Width], buf[x + (line + 1) * Width]))
  }

  /** Controller address of line 0x40 + `line`. */
  function LineAddress(line: int): (a: bv8)
    requires 0 <= line < 9
    ensures FirstLine <= a <= TopLine
  {
    FirstLine + line as bv8
  }

  /** Groups for lines 0x40 .. 0x40 + n - 1, in increasing order. */
  function BandGroups(buf: seq<bv8>, n: int): (r: seq<seq<bv8>>)
    requires |buf| == BufferSize && 0 <= n <= 8
    ensures |r| == 4 * n
  {
    if n == 0 then []
    else BandGroups(buf, n - 1) + Group(LineAddress(n - 1), BandRow(buf, n - 1))
  }

  /** Every transaction display() sends: line 0x48 first, then lines 0x40..0x47. */
  function DisplayLog(buf: seq<bv8>): (r: seq<seq<bv8>>)
    requires |buf| == BufferSize
    ensures |r| == 36
  {
    Group(TopLine, TopRow(buf)) + BandGroups(buf, 8)
  }

  /** The 106 zero bytes forceClear writes to a line. */
  function ClearRow(): (r: seq<bv8>)
    ensures |r| == ClearLength
    ensures forall k :: 0 <= k < ClearLength ==> r[k] == 0
  {
    seq(ClearLength, _ => 0)
  }

  /** forceClear's groups for lines 0x40 .. 0x40 + n - 1, in increasing order. */
  function ClearGroups(n: int): (r: seq<seq<bv8>>)
    requires 0 <= n <= 9
    ensures |r| == 4 * n
  {
    if n == 0 then []
    else ClearGroups(n - 1) + Group(LineAddress(n - 1), ClearRow())
  }

  /** Every transaction forceClear() sends. */
  function ForceClearLog(): (r: seq<seq<bv8>>)
    ensures |r| == 36
  {
    ClearGroups(9)
  }

  // ---------------------------------------------------------------------
  // Shape of the transaction sequences

  /** Controller address of the g-th line display() writes. */
  function DisplayAddress(g: int): (a: bv8)
    requires 0 <= g < 9
    ensures FirstLine <= a <= TopLine
  {
    if g == 0 then TopLine else LineAddress(g - 1)
  }

  /** Payload of the g-th line display() writes. */
  function DisplayPayload(buf: seq<bv8>, g: int): (r: seq<bv8>)
    requires |buf| == BufferSize && 0 <= g < 9
    ensures |r| == Width
  {
    if g == 0 then TopRow(buf) else BandRow(buf, g - 1)
  }

  lemma {:induction false} BandGroupsAt(buf: seq<bv8>, n: int, k: int)
    requires |buf| == BufferSize && 0 <= k < n <= 8
    ensures BandGroups(buf, n)[4 * k .. 4 * k + 4] == Group(LineAddress(k), BandRow(buf, k))
  {
    if k < n - 1 {
      BandGroupsAt(buf, n - 1, k);
      assert BandGroups(buf, n)[4 * k .. 4 * k + 4] == BandGroups(buf, n - 1)[4 * k .. 4 * k + 4];
    }
  }

  /**
   * display() sends 36 transactions in 9 groups: group g selects line
   * DisplayAddress(g) (0x48, then 0x40..0x47) with frames {00,01,addr},
   * {00,01,20}, {00,01,8d}, then sends one 107-byte data transaction: the
   * control byte 0x40 and the line's 106 payload bytes.
   */
  lemma DisplayLogGroup(buf: seq<bv8>, g: int)
    requires |buf| == BufferSize && 0 <= g < 9
    ensures |DisplayLog(buf)| == 36
    ensures var log := DisplayLog(buf);
      && log[4 * g] == [0x00, 0x01, DisplayAddress(g)]
      && log[4 * g + 1] == [0x00, 0x01, 0x20]
      && log[4 * g + 2] == [0x00, 0x01, 0x8d]
      && |log[4 * g + 3]| == 107
      && log[4 * g + 3] == [0x40] + DisplayPayload(buf, g)
  {
    DisplayLogSlice(buf, g);
    GroupAt(DisplayLog(buf), 4 * g, DisplayAddress(g), DisplayPayload(buf, g));
  }

  /** The g-th group of four transactions in display's log. */
  lemma DisplayLogSlice(buf: seq<bv8>, g: int)
    requires |buf| == BufferSize && 0 <= g < 9
    ensures DisplayLog(buf)[4 * g .. 4 * g + 4] == Group(DisplayAddress(g), DisplayPayload(buf, g))
  {
    var log, bg := DisplayLog(buf), BandGroups(buf, 8);
    if g > 0 {
      BandGroupsAt(buf, 8, g - 1);
      assert log[4 * g .. 4 * g + 4] == bg[4 * (g - 1) .. 4 * (g - 1) + 4];
    }
  }

  /** Reads the four transactions of a group found at position i. */
  lemma GroupAt(log: seq<seq<bv8>>, i: int, addr: bv8, payload: seq<bv8>)
    requires 0 <= i && i + 4 <= |log| && log[i .. i + 4] == Group(addr, payload)
    ensures log[i] == [0x00, 0x01, addr]
    ensures log[i + 1] == [0x00, 0x01, ColumnStart]
    ensures log[i + 2] == [0x00, 0x01, WriteEnable]
    ensures log[i + 3] == [DataControl] + payload
  {
    assert log[i] == log[i .. i + 4][0];
    assert log[i + 1] == log[i .. i + 4][1];
    assert log[i + 2] == log[i .. i + 4][2];
    assert log[i + 3] == log[i .. i + 4][3];
  }

  lemma {:induction false} ClearGroupsAt(n: int, k: int)
    requires 0 <= k < n <= 9
    ensures ClearGroups(n)[4 * k .. 4 * k + 4] == Group(LineAddress(k), ClearRow())
  {
    if k < n - 1 {
      ClearGroupsAt(n - 1, k);
      assert ClearGroups(n)[4 * k .. 4 * k + 4] == ClearGroups(n - 1)[4 * k .. 4 * k + 4];
    }
  }

  /**
   * forceClear() sends 36 transactions in 9 groups: group g selects line
   * 0x40 + g with the same three frames and sends 0x40 followed by 106 zeros.
   */
  lemma ForceClearLogGroup(g: int)
    requires 0 <= g < 9
    ensures |ForceClearLog()| == 36
    ensures var log := ForceClearLog();
      && log[4 * g] == [0x00, 0x01, 0x40 + g as bv8]
      && log[4 * g + 1] == [0x00, 0x01, 0x20]
      && log[4 * g + 2] == [0x00, 0x01, 0x8d]
      && |log[4 * g + 3]| == 107
      && log[4 * g + 3] == [0x40] + ClearRow()
  {
    ClearGroupsAt(9, g);
    GroupAt(ForceClearLog(), 4 * g, LineAddress(g), ClearRow());
  }

  // ---------------------------------------------------------------------
  // The row remap

  /** The top bit of line 0x48, column x, is pixel (x, 0); its other bits are zero. */
  lemma TopRowPixel(buf: seq<bv8>, x: int)
    requires |buf| == BufferSize && 0 <= x < Width
    ensures Bit(TopRow(buf)[x], 7) == Pixel(buf, x, 0)
    ensures TopRow(buf)[x] & 0x7F == 0
  {
    PixelIsBit(buf, x, 0);
  }

  /**
   * The hardware's one-row offset: bit b of the byte sent to line 0x40 + line
   * for column x is pixel (x, 8 * line + 8 - b). Output bits only ever show
   * rows 1..64, so the padding rows 65..71 never reach the display.
   */
  lemma BandRowPixel(buf: seq<bv8>, line: int, x: int, b: int)
    requires |buf| == BufferSize && 0 <= line < 8 && 0 <= x < Width && 0 <= b < 8
    ensures 1 <= 8 * line + 8 - b < Height
    ensures Bit(BandRow(buf, line)[x], b) == Pixel(buf, x, 8 * line + 8 - b)
  {
    Geometry();
    var y := 8 * line + 8 - b;
    PixelIsBit(buf, x, y);
    if b == 0 {
      assert y / 8 == line + 1 && y % 8 == 0;
    } else {
      assert y / 8 == line && y % 8 == 8 - b;
    }
  }

  /** Where each visible pixel goes: row 0 to line 0x48 bit 7, row y >= 1 to line 0x40 + (y-1)/8. */
  lemma PixelSent(buf: seq<bv8>, x: int, y: int)
    requires |buf| == BufferSize && InRange(x, y)
    ensures y == 0 ==> Pixel(buf, x, y) == Bit(TopRow(buf)[x], 7)
    ensures y > 0 ==> Pixel(buf, x, y) == Bit(BandRow(buf, (y - 1) / 8)[x], 8 * ((y - 1) / 8) + 8 - y)
  {
    if y == 0 {
      TopRowPixel(buf, x);
    } else {
      BandRowPixel(buf, (y - 1) / 8, x, 8 * ((y - 1) / 8) + 8 - y);
    }
  }

  /** Two buffers showing the same visible pixels. */
  ghost predicate SamePicture(a: seq<bv8>, b: seq<bv8>)
    requires |a| == BufferSize && |b| == BufferSize
  {
    forall x, y :: InRange(x, y) ==> Pixel(a, x, y) == Pixel(b, x, y)
  }

  /** display() depends on the visible pixels only; padding bits never influence it. */
  lemma DisplayDependsOnPictureOnly(a: seq<bv8>, b: seq<bv8>)
    requires |a| == BufferSize && |b| == BufferSize && SamePicture(a, b)
    ensures DisplayLog(a) == DisplayLog(b)
  {
    forall x | 0 <= x < Width
      ensures TopRow(a)[x] == TopRow(b)[x]
    {
      TopRowPixel(a, x);
      TopRowPixel(b, x);
      forall k | 0 <= k < 8
        ensures Bit(TopRow(a)[x], k) == Bit(TopRow(b)[x], k)
      {
        if k < 7 {
          LowBitOfTopRowByte(TopRow(a)[x], k);
          LowBitOfTopRowByte(TopRow(b)[x], k);
        }
      }
      BitsDetermineByte(TopRow(a)[x], TopRow(b)[x]);
    }
    assert TopRow(a) == TopRow(b);
    forall line | 0 <= line < 8
      ensures BandRow(a, line) == BandRow(b, line)
    {
      forall x | 0 <= x < Width
        ensures BandRow(a, line)[x] == BandRow(b, line)[x]
      {
        forall k | 0 <= k < 8
          ensures Bit(BandRow(a, line)[x], k) == Bit(BandRow(b, line)[x], k)
        {
          BandRowPixel(a, line, x, k);
          BandRowPixel(b, line, x, k);
        }
        BitsDetermineByte(BandRow(a, line)[x], BandRow(b, line)[x]);
      }
    }
    BandGroupsEqual(a, b, 8);
  }

  lemma LowBitOfTopRowByte(v: bv8, k: int)
    requires v & 0x7F == 0 && 0 <= k < 7
    ensures !Bit(v, k)
  {
  }

  lemma {:induction false} BandGroupsEqual(a: seq<bv8>, b: seq<bv8>, n: int)
    requires |a| == BufferSize && |b| == BufferSize && 0 <= n <= 8
    requires forall line :: 0 <= line < n ==> BandRow(a, line) == BandRow(b, line)
    ensures BandGroups(a, n) == BandGroups(b, n)
  {
    if n > 0 {
      BandGroupsEqual(a, b, n - 1);
    }
  }

  /** Conversely, display() reveals every visible pixel: equal output means equal picture. */
  lemma DisplayRevealsPicture(a: seq<bv8>, b: seq<bv8>)
    requires |a| == BufferSize && |b| == BufferSize && DisplayLog(a) == DisplayLog(b)
    ensures SamePicture(a, b)
  {
    forall x, y | InRange(x, y)
      ensures Pixel(a, x, y) == Pixel(b, x, y)
    {
      var g := if y == 0 then 0 else (y - 1) / 8 + 1;
      DisplayLogGroup(a, g);
      DisplayLogGroup(b, g);
      assert DisplayLog(a)[4 * g + 3][1..] == DisplayPayload(a, g);
      assert DisplayPayload(a, g) == DisplayPayload(b, g);
      PixelSent(a, x, y);
      PixelSent(b, x, y);
    }
  }

  /**
   * Bits 0..6 of band 8 (padding rows 65..71) never influence display():
   * buffers that agree on bands 0..7 and on the top bit of band 8 produce
   * the same transactions.
   */
  lemma PaddingIgnored(a: seq<bv8>, b: seq<bv8>)
    requires |a| == BufferSize && |b| == BufferSize
    requires forall i :: 0 <= i < 8 * Width ==> a[i] == b[i]
    requires forall i :: 8 * Width <= i < BufferSize ==> a[i] & 0x80 == b[i] & 0x80
    ensures DisplayLog(a) == DisplayLog(b)
  {
    forall x, y | InRange(x, y)
      ensures Pixel(a, x, y) == Pixel(b, x, y)
    {
      if y == 64 {
        assert ByteIndex(x, y) == x + 8 * Width;
        TopBitDecides(a[x + 8 * Width], b[x + 8 * Width]);
      }
    }
    DisplayDependsOnPictureOnly(a, b);
  }

  lemma TopBitDecides(u: bv8, v: bv8)
    requires u & 0x80 == v & 0x80
    ensures (u & 0x80 != 0) == (v & 0x80 != 0)
  {
  }

  /**
   * Flushing a cleared buffer writes exactly forceClear's groups, except that
   * line 0x48's group comes first instead of last.
   */
  lemma BlankDisplayIsForceClear()
    ensures DisplayLog(Cleared()) == ForceClearLog()[32..] + ForceClearLog()[..32]
  {
    var z := Cleared();
    assert TopRow(z) == ClearRow();
    forall line | 0 <= line < 8
      ensures BandRow(z, line) == ClearRow()
    {
      forall x | 0 <= x < Width
        ensures BandRow(z, line)[x] == 0
      {
        assert z[x + line * Width] == 0 && z[x + (line + 1) * Width] == 0;
      }
    }
    BlankBandsAreClear(8);
    assert ClearGroups(9) == ClearGroups(8) + Group(TopLine, ClearRow());
  }

  lemma {:induction false} BlankBandsAreClear(n: int)
    requires 0 <= n <= 8
    requires forall line :: 0 <= line < 8 ==> BandRow(Cleared(), line) == ClearRow()
    ensures BandGroups(Cleared(), n) == ClearGroups(n)
  {
    if n > 0 {
      BlankBandsAreClear(n - 1);
    }
  }

  /**
   * A worked instance of the remap: band 0 column 0 holding 0b1100_0000 and
   * band 1 column 0 holding 0b1000_0000 make line 0x40 column 0 0b1000_0001,
   * and line 0x48 column 0 0b1000_0000.
   */
  lemma RemapScenario(buf: seq<bv8>)
    requires |buf| == BufferSize && buf[0] == 0xC0 && buf[Width] == 0x80
    ensures BandRow(buf, 0)[0] == 0x81
    ensures TopRow(buf)[0] == 0x80
  {
    assert BandRow(buf, 0)[0] == Remap(0xC0, 0x80);
  }
}
