/**
 * The SAAB ICM2 display driver: a lazily allocated framebuffer and the
 * routines that draw into it and push it to the controller over the Wire bus.
 * Every bus transaction is addressed to the fixed device address 0x3C.
 */
module Icm2 {
  import opened Types
  import opened Framebuffer
  import opened Protocol
  import Wire

  /** memset(a, v, n): the first n bytes of `a` become `v`, the rest are untouched. */
  method Memset(a: array<bv8>, v: bv8, n: int)
    requires 0 <= n <= a.Length
    modifies a
    ensures forall i :: 0 <= i < n ==> a[i] == v
    ensures forall i :: n <= i < a.Length ==> a[i] == old(a[i])
  {
    var i := 0;
    while i < n
      invariant 0 <= i <= n
      invariant forall j :: 0 <= j < i ==> a[j] == v
      invariant forall j :: i <= j < a.Length ==> a[j] == old(a[j])
    {
      a[i] := v;
      i := i + 1;
    }
  }

  class Icm2Display {
    /** The framebuffer, `null` until begin() allocates it. */
    var buffer: array?<bv8>
    /** The global Wire bus the driver writes to. */
    const wire: Wire.Bus

    ghost predicate Valid()
      reads this, buffer
    {
      buffer != null ==> buffer.Length == BufferSize
    }

    constructor (bus: Wire.Bus)
      ensures Valid() && buffer == null && wire == bus
    {
      buffer := null;
      wire := bus;
    }

    /** width(): the display width, which times the band count is the buffer size. */
    function Width(): (w: int8)
      ensures w > 0 && w as int * ((Height() as int + 7) / 8) == BufferSize
    {
      Framebuffer.Width as int8
    }

    /** height(): the display height; its last band holds one visible row. */
    function Height(): (h: int8)
      ensures h > 0 && (h as int + 7) / 8 == Bands && (h as int - 1) % 8 == 0
    {
      Framebuffer.Height as int8
    }

    /** icm2_commandList: one transaction carrying the n bytes of `c`. */
    method CommandList(c: seq<bv8>)
      requires |c| < 0x100
      modifies wire
      ensures wire.log == old(wire.log) + [c] && wire.pending == []
    {
      wire.BeginTransmission();
      wire.WriteBytes(c);
      assert wire.pending == c;
      wire.EndTransmission();
    }

    /** icm2_command1: one transaction carrying the single byte `c`. */
    method Command1(c: bv8)
      modifies wire
      ensures wire.log == old(wire.log) + [[c]] && wire.pending == []
    {
      wire.BeginTransmission();
      wire.Write(c);
      assert wire.pending == [c];
      wire.EndTransmission();
    }

    /** icm2_command: the public name of Command1. */
    method Command(c: bv8)
      modifies wire
      ensures wire.log == old(wire.log) + [[c]] && wire.pending == []
    {
      Command1(c);
    }

    /** getBuffer: the framebuffer storage itself, so writes through it change the picture. */
    method GetBuffer() returns (b: array?<bv8>)
      ensures b == buffer
    {
      b := buffer;
    }

    /** clearDisplay: every byte of the buffer becomes zero. */
    method ClearDisplay()
      requires Valid() && buffer != null
      modifies buffer
      ensures Valid()
      ensures buffer[..] == Cleared()
    {
      Memset(buffer, 0x00, BufferSize);
    }

    /** fillScreen: every byte becomes 0xFF for a non-zero colour, 0x00 for colour 0. */
    method FillScreen(color: uint16)
      requires Valid() && buffer != null
      modifies buffer
      ensures Valid()
      ensures buffer[..] == Filled(FillByte(color))
    {
      Memset(buffer, if color != 0 then 0xFF else 0x00, BufferSize);
    }

    /**
     * drawPixel: sets, clears or toggles the bit of a visible pixel; off-screen
     * coordinates and unknown colours change nothing.
     */
    method DrawPixel(x: int16, y: int16, color: uint16)
      requires Valid() && buffer != null
      modifies buffer
      ensures Valid()
      ensures buffer[..] == SetPixel(old(buffer[..]), x as int, y as int, color as int)
    {
      ghost var before := buffer[..];
      var px, py, c := x as int, y as int, color as int;
      if 0 <= px < Framebuffer.Width && 0 <= py < Framebuffer.Height {
        var i, m := ByteIndex(px, py), BitMask(py);
        if c == On {
          buffer[i] := SetBits(buffer[i], m);
        } else if c == Off {
          buffer[i] := ClearBits(buffer[i], m);
        } else if c == Inverse {
          buffer[i] := FlipBits(buffer[i], m);
        } else {
          assert before[i := before[i]] == before;
        }
      }
    }

    /**
     * begin: allocates the buffer if there is none (`mallocOk` is whether
     * malloc succeeds), and on failure returns false having done nothing.
     * Otherwise clears the buffer, sends the 12 configuration frames and
     * returns true.
     */
    method Begin(mallocOk: bool) returns (ok: bool)
      requires Valid()
      modifies this, buffer, wire
      ensures Valid()
      ensures ok <==> old(buffer) != null || mallocOk
      ensures !ok ==> buffer == null && wire.log == old(wire.log) && wire.pending == old(wire.pending)
      ensures ok ==> buffer != null && (old(buffer) != null ==> buffer == old(buffer))
      ensures ok && old(buffer) == null ==> fresh(buffer)
      ensures ok ==> buffer[..] == Cleared() && wire.log == old(wire.log) + InitFrames() && wire.pending == []
    {
      if buffer == null {
        if !mallocOk {
          return false;
        }
        buffer := new bv8[BufferSize];
      }
      ClearDisplay();
      SendInitFrames();
      ok := true;
    }

    /** The twelve configuration transactions begin() sends after clearing the buffer. */
    method SendInitFrames()
      modifies wire
      ensures wire.log == old(wire.log) + InitFrames() && wire.pending == []
    {
      ghost var log0 := wire.log;
      CommandList([0x00, 0x01, 0x10]);
      CommandList([0x00, 0x01, 0x0e, 0x12]);
      CommandList([0x00, 0x01, 0x0e, 0x06]);
      CommandList([0x00, 0x01, 0x0e, 0x0a]);

      CommandList([0x00, 0x01, 0x0e, 0x24]);
      CommandList([0x00, 0x01, 0x0e, 0x84]);
      CommandList([0x00, 0x01, 0x0d, 0x0a]);
      CommandList([0x00, 0x01, 0x0d, 0x13]);

      CommandList([0x00, 0x01, 0x0d, 0xb7]);
      CommandList([0x00, 0x01, 0x0d, 0x07]);
      CommandList([0x00, 0x01, 0x0b, 0x04]);
      CommandList([0x00, 0x01, 0x0b, 0x40]);
      assert wire.log == log0 + InitFrames();
    }

    /** The three frames that select controller line `lineAddr`. */
    method SelectLine(lineAddr: bv8)
      modifies wire
      ensures wire.log == old(wire.log) + SelectFrames(lineAddr) && wire.pending == []
    {
      CommandList([0x00, 0x01, lineAddr]);
      CommandList([0x00, 0x01, 0x20]);
      CommandList([0x00, 0x01, 0x8d]);
    }

    /** One iteration of forceClear's loop: selects line `lineAddr` and writes 106 zero bytes to it. */
    method ClearLine(lineAddr: bv8)
      modifies wire
      ensures wire.log == old(wire.log) + Group(lineAddr, ClearRow()) && wire.pending == []
    {
      ghost var log0 := wire.log;
      SelectLine(lineAddr);
      wire.BeginTransmission();
      wire.Write(0x40);
      for i := 0 to 106
        invariant wire.log == log0 + SelectFrames(lineAddr)
        invariant wire.pending == [DataControl] + ClearRow()[..i]
      {
        wire.Write(0);
      }
      assert ClearRow()[..106] == ClearRow();
      wire.EndTransmission();
    }

    /**
     * forceClear: writes 106 zero bytes to each of the 9 controller lines
     * 0x40..0x48, whatever the framebuffer holds.
     */
    method ForceClear()
      modifies wire
      ensures wire.log == old(wire.log) + ForceClearLog() && wire.pending == []
    {
      ghost var log0 := wire.log;
      for line := 0 to 9
        invariant wire.log == log0 + ClearGroups(line)
        invariant line > 0 ==> wire.pending == []
      {
        var lineAddr := LineAddress(line);
        ClearLine(lineAddr);
        assert ClearGroups(line + 1) == ClearGroups(line) + Group(lineAddr, ClearRow());
      }
    }

    /**
     * First half of display: selects line 0x48 and sends, column by column,
     * the top bit of every band-0 byte.
     */
    method SendTopLine()
      requires Valid() && buffer != null
      modifies wire
      ensures wire.log == old(wire.log) + Group(TopLine, TopRow(buffer[..])) && wire.pending == []
    {
      ghost var buf := buffer[..];
      ghost var log0 := wire.log;
      var ptr0 := 0;
      SelectLine(0x40 + 8);
      var count := Framebuffer.Width;
      wire.BeginTransmission();
      wire.Write(0x40);
      while count != 0
        invariant 0 <= count <= Framebuffer.Width && ptr0 == Framebuffer.Width - count
        invariant wire.log == log0 + SelectFrames(TopLine)
        invariant wire.pending == [DataControl] + TopRow(buf)[..ptr0]
      {
        count := count - 1;
        wire.Write(buffer[ptr0] & 0x80);
        ptr0 := ptr0 + 1;
      }
      assert TopRow(buf)[..ptr0] == TopRow(buf);
      wire.EndTransmission();
    }

    /**
     * One iteration of display's band loop: selects line 0x40 + line and
     * sends band `line` shifted up one row with band `line + 1`'s top row
     * carried in; `ptr` walks band `line` and ends at the next band.
     */
    method SendBandLine(line: int, ptr: int) returns (next: int)
      requires Valid() && buffer != null
      requires 0 <= line < 8 && ptr == line * Framebuffer.Width
      modifies wire
      ensures next == ptr + Framebuffer.Width
      ensures wire.log == old(wire.log) + Group(LineAddress(line), BandRow(buffer[..], line))
      ensures wire.pending == []
    {
      ghost var buf := buffer[..];
      ghost var log0 := wire.log;
      var lineAddr := LineAddress(line);
      SelectLine(lineAddr);
      var count := Framebuffer.Width;
      next := ptr;
      wire.BeginTransmission();
      wire.Write(0x40);
      while count != 0
        invariant 0 <= count <= Framebuffer.Width
        invariant next == ptr + (Framebuffer.Width - count)
        invariant wire.log == log0 + SelectFrames(lineAddr)
        invariant wire.pending == [DataControl] + BandRow(buf, line)[..Framebuffer.Width - count]
      {
        wire.Write(Remap(buffer[next], buffer[next + Framebuffer.Width]));
        next := next + 1;
        count := count - 1;
      }
      assert BandRow(buf, line)[..Framebuffer.Width] == BandRow(buf, line);
      wire.EndTransmission();
    }

    /**
     * display: sends line 0x48 the top bit of every band-0 byte, then each line
     * 0x40 + L the remap of band L with band L + 1, 106 columns in increasing order.
     */
    method Display()
      requires Valid() && buffer != null
      modifies wire
      ensures wire.log == old(wire.log) + DisplayLog(buffer[..]) && wire.pending == []
    {
      ghost var log0 := wire.log;
      SendTopLine();
      var ptr := 0;
      for line := 0 to 8
        invariant ptr == line * Framebuffer.Width
        invariant wire.log == log0 + Group(TopLine, TopRow(buffer[..])) + BandGroups(buffer[..], line)
        invariant wire.pending == []
      {
        ptr := SendBandLine(line, ptr);
      }
    }
  }
}
