# SAAB ICM2 display driver — Dafny model

This project models the core of the Arduino driver for the SAAB ICM2 106×65
monochrome LCD: the packed framebuffer the drawing layer paints into, and the
flush that pushes that framebuffer to the display controller over the I2C
("Wire") bus.

- **Framebuffer** (`Framebuffer.dfy`, pure specification). The buffer has 954
  bytes: 9 bands of 8 pixel rows, each band 106 bytes wide. Pixel (x, y) is bit
  `128 >> (y % 8)` of byte `x + (y / 8) * 106`, so the top row of a band is the
  most significant bit. Band 8 holds only row 64; its other 7 bits are padding
  rows 65..71. `SetPixel` is what `drawPixel` does to the buffer. `Filled`
  and `FillByte` describe `fillScreen`, and `Cleared` describes `clearDisplay`.
- **Protocol** (`Protocol.dfy`, pure specification). This is what the driver
  sends to the controller, as functions of the buffer: the 12 init frames,
  the 3-frame line selection, the row-remap byte `Remap`, and the whole
  transaction sequences `DisplayLog` (for `display`) and `ForceClearLog` (for
  `forceClear`). The lemmas pin down the hardware's one-row offset. Line
  0x40+L, bit b, column x shows pixel (x, 8L+8−b). Line 0x48 shows row 0. As a
  result, `display` transmits exactly the 65 visible rows: equal output if and
  only if the visible pictures are equal, and the padding is never sent.
- **Wire** (`Wire.dfy`). The I2C bus is a class with an append-only ghost log of
  completed transactions. Each transaction holds the bytes written between
  `beginTransmission` and `endTransmission`.
- **Icm2** (`Icm2.dfy`). The driver class `Icm2Display` has the buffer as an
  `array?<bv8>` (null until `begin` allocates it). Its methods update the
  buffer in place and append to the bus log with loops, as the C++ does. Each
  method's `ensures` ties the new buffer or log to the specification functions
  above.

Every transaction goes to the fixed device address 0x3C, which the log does
not record. Like the C++, every data transaction starts with the control byte
0x40, followed by the line's payload: 107 bytes in all.

An ON followed by an OFF at the same pixel does not in general restore the
pixel's earlier value. It leaves the pixel off, as the code says. `OnThenOff`
proves that ON then OFF equals OFF alone, and `OffKeepsIffUnlit` proves that
this equals the original buffer exactly when the pixel was off.

## Model

| member | source | states |
|---|---|---|
| `Framebuffer.Geometry` | SAAB_ICM2.cpp:106 | the buffer size is `_width * ((_height + 7) / 8)` = 106 × 9 = 954; 9 bands hold 72 rows, and the last band holds exactly one visible row |
| `Framebuffer.ByteIndex` | SAAB_ICM2.cpp:156 | the byte index `x + (y/8)*106` of any stored pixel is below 954 |
| `Framebuffer.ByteIndexInverse` | SAAB_ICM2.cpp:156 | the byte index gives back the column (index mod 106) and the band (index div 106) |
| `Framebuffer.BitMask` | SAAB_ICM2.cpp:156 | the mask `128 >> (y & 7)` is never zero |
| `Framebuffer.BitMaskOneHot` | SAAB_ICM2.cpp:156 | the mask has exactly one bit set |
| `Framebuffer.PixelIsBit` | SAAB_ICM2.cpp:156 | pixel (x, y) is bit `7 - y % 8` of its byte: the top row of a band is the MSB |
| `Framebuffer.AddressesDistinct` | SAAB_ICM2.cpp:156 | two distinct stored pixels never share a bit: either their bytes differ or their masks are disjoint |
| `Framebuffer.Paint` | SAAB_ICM2.cpp:153-164 | the colour switch on one byte; a colour other than ICM2_ON, ICM2_OFF or ICM2_INVERSE leaves the byte unchanged, because the switch has no default case |
| `Framebuffer.SetPixel` | SAAB_ICM2.cpp:148-166 | drawPixel's effect on the buffer: the bounds test, then the switch on the byte `x + (y/8)*106` with mask `128 >> (y & 7)`; the result is again 954 bytes |
| `Framebuffer.SetPixelNoOp` | SAAB_ICM2.cpp:150 | an x outside [0,106) or a y outside [0,65), or a colour other than 0, 1, 2, leaves all 954 bytes unchanged |
| `Framebuffer.SetPixelFrame` | SAAB_ICM2.cpp:150-164 | for an in-range pixel, the index written is below 954 and every other byte is unchanged |
| `Framebuffer.SetPixelKeepsOtherBits` | SAAB_ICM2.cpp:153-164 | whatever the colour, the bits of the pixel's byte outside its mask keep their values |
| `Framebuffer.SetPixelByte` | SAAB_ICM2.cpp:153-164 | the masked bit is set by ICM2_ON, cleared by ICM2_OFF and flipped by ICM2_INVERSE; any other colour leaves the byte unchanged (the switch has no default case) |
| `Framebuffer.SetPixelPixels` | SAAB_ICM2.cpp:148-166 | drawing an in-range pixel gives it its painted value (ON lit, OFF unlit, INVERSE negated, other unchanged); every other stored pixel, padding included, keeps its value |
| `Framebuffer.InverseTwice` | SAAB_ICM2.cpp:161-162 | ICM2_INVERSE applied twice at the same coordinate restores the buffer, in range or not |
| `Framebuffer.OnThenOff` | SAAB_ICM2.cpp:150-160 | at any coordinate, on screen or off, ON then OFF gives the same buffer as OFF alone |
| `Framebuffer.OffKeepsIffUnlit` | SAAB_ICM2.cpp:158-159 | OFF leaves the buffer as it was if and only if the pixel was already off |
| `Framebuffer.FillByte` | SAAB_ICM2.cpp:175 | the fill byte is 0xFF for any non-zero colour and 0x00 for colour 0; nothing in between |
| `Framebuffer.Filled` | SAAB_ICM2.cpp:175 | the memset result: 954 bytes, all equal to the fill byte |
| `Framebuffer.Cleared` | SAAB_ICM2.cpp:197 | clearDisplay's result: 954 zero bytes |
| `Framebuffer.FillPixels` | SAAB_ICM2.cpp:174-176 | after fillScreen(c), every stored pixel is lit if and only if c ≠ 0; fillScreen(0) and clearDisplay give identical buffers |
| `Protocol.InitFrames` | SAAB_ICM2.cpp:113-126 | defines the 12 literal configuration frames begin sends, in order; its contract states that there are 12 |
| `Protocol.InitFramesShape` | SAAB_ICM2.cpp:113-126 | each init frame is 3 or 4 bytes long and starts with 0x00, 0x01 |
| `Protocol.SelectFrames` | SAAB_ICM2.cpp:210-214 | defines the three literal selection frames `{00,01,addr}`, `{00,01,20}`, `{00,01,8d}` that precede every line write; its contract states three 3-byte frames whose third bytes are addr, 0x20 and 0x8d (the 00 01 prefix is stated by `GroupAt`) |
| `Protocol.Group` | SAAB_ICM2.cpp:249-264 | one line write: the 3 selection frames and one data transaction that is the payload plus the leading control byte, 4 transactions in all |
| `Protocol.TopRowByte` | SAAB_ICM2.cpp:262 | a top-line byte keeps only the MSB of its band-0 byte; its low 7 bits are zero |
| `Protocol.Remap` | SAAB_ICM2.cpp:286 | bit k of the remapped byte is bit k−1 of the current band's byte for k ≥ 1; bit 0 is the next band's MSB |
| `Protocol.TopRow` | SAAB_ICM2.cpp:255-263 | the top-line payload has one byte per column, 106 in all |
| `Protocol.BandRow` | SAAB_ICM2.cpp:279-288 | each band-line payload has one byte per column, 106 in all; it is defined for every line 0..7, so its reads `x+106L` and `x+106(L+1)` all stay below 954 |
| `Protocol.LineAddress` | SAAB_ICM2.cpp:273 | the controller address `0x40 + line` of band line `line`, always within 0x40..0x48 |
| `Protocol.DisplayAddress` | SAAB_ICM2.cpp:248 | display's g-th line address is 0x48 for g = 0, then 0x40..0x47, always within 0x40..0x48 |
| `Protocol.DisplayPayload` | SAAB_ICM2.cpp:255-263 | the payload of display's g-th line write: the top row for g = 0, band g−1's remap otherwise; 106 bytes either way |
| `Protocol.DisplayLog` | SAAB_ICM2.cpp:244-290 | every transaction display sends, line 0x48's group first and then lines 0x40..0x47: 36 in all |
| `Protocol.BandGroups` | SAAB_ICM2.cpp:270-290 | the first n passes of the band loop log 4 transactions each |
| `Protocol.BandGroupsAt` | SAAB_ICM2.cpp:270-290 | the band loop's k-th group of 4 transactions selects line 0x40+k and carries band k's remapped payload |
| `Protocol.DisplayLogSlice` | SAAB_ICM2.cpp:244-290 | transactions 4g..4g+3 of display's log are line g's group, with address `DisplayAddress(g)` and payload `DisplayPayload(buf, g)` |
| `Protocol.DisplayLogGroup` | SAAB_ICM2.cpp:244-290 | display logs 36 transactions in 9 groups: `{00,01,addr}`, `{00,01,20}`, `{00,01,8d}`, then 0x40 followed by the 106-byte payload, for addresses 0x48, 0x40, …, 0x47 in that order |
| `Protocol.ClearRow` | SAAB_ICM2.cpp:218-221 | forceClear's payload is 106 zero bytes (the literal 106) |
| `Protocol.ClearGroups` | SAAB_ICM2.cpp:207-223 | the first n passes of forceClear's loop log 4 transactions each |
| `Protocol.ForceClearLog` | SAAB_ICM2.cpp:207-223 | every transaction forceClear sends, for lines 0x40..0x48 in order: 36 in all |
| `Protocol.ClearGroupsAt` | SAAB_ICM2.cpp:207-223 | forceClear's k-th group selects line 0x40+k and sends the zero payload |
| `Protocol.ForceClearLogGroup` | SAAB_ICM2.cpp:203-224 | forceClear logs 36 transactions: for lines 0x40..0x48 in order, the same 3 selection frames, then 0x40 and 106 zeros |
| `Protocol.TopRowPixel` | SAAB_ICM2.cpp:262 | bit 7 of line 0x48's byte for column x is pixel (x, 0), and its other bits are zero |
| `Protocol.BandRowPixel` | SAAB_ICM2.cpp:284-288 | the one-row remap: bit b of line 0x40+L's byte for column x is pixel (x, 8L+8−b), always a visible row in 1..64 |
| `Protocol.PixelSent` | SAAB_ICM2.cpp:244-290 | every visible pixel is sent: row 0 as line 0x48 bit 7, and row y ≥ 1 as line 0x40+(y−1)/8, bit 8·((y−1)/8)+8−y |
| `Protocol.DisplayDependsOnPictureOnly` | SAAB_ICM2.cpp:233-291 | two buffers with the same visible pixels produce the same display transactions |
| `Protocol.DisplayRevealsPicture` | SAAB_ICM2.cpp:233-291 | two buffers producing the same display transactions have the same visible pixels |
| `Protocol.PaddingIgnored` | SAAB_ICM2.cpp:286 | bits 0-6 of band 8 (padding rows 65-71) never influence display's output |
| `Protocol.BlankDisplayIsForceClear` | SAAB_ICM2.cpp:203-224 | flushing a cleared buffer sends forceClear's groups, with line 0x48's group moved from last to first |
| `Protocol.RemapScenario` | SAAB_ICM2.cpp:286 | band 0 = 0b11000000 and band 1 = 0b10000000 at column 0 give 0b10000001 on line 0x40 and 0b10000000 on line 0x48 |
| `Wire.Bus.BeginTransmission` | SAAB_ICM2.cpp:53 | opening a transaction starts an empty pending byte run and leaves the log alone |
| `Wire.Bus.Write` | SAAB_ICM2.cpp:54 | writing a byte appends it to the open transaction |
| `Wire.Bus.WriteBytes` | SAAB_ICM2.cpp:62 | writing n bytes appends them, in order, to the open transaction |
| `Wire.Bus.EndTransmission` | SAAB_ICM2.cpp:55 | closing a transaction appends its bytes to the log as one entry |
| `Icm2.Memset` | SAAB_ICM2.cpp:197 | memset writes v into the first n bytes and leaves the rest unchanged |
| `Icm2.Icm2Display.constructor` | SAAB_ICM2.cpp:34 | a new driver has no buffer and uses the given bus |
| `Icm2.Icm2Display.Width` | SAAB_ICM2.cpp:82-85 | width() is positive, and width × number of bands is the buffer size |
| `Icm2.Icm2Display.Height` | SAAB_ICM2.cpp:87-90 | height() is positive, rounds up to 9 bands, and leaves one visible row in the last band |
| `Icm2.Icm2Display.CommandList` | SAAB_ICM2.cpp:58-64 | appends exactly one transaction, holding the given bytes |
| `Icm2.Icm2Display.Command1` | SAAB_ICM2.cpp:50-56 | appends exactly one one-byte transaction |
| `Icm2.Icm2Display.Command` | SAAB_ICM2.cpp:76-79 | the public command has the same effect as icm2_command1 |
| `Icm2.Icm2Display.GetBuffer` | SAAB_ICM2.cpp:183-186 | returns the driver's own buffer (an alias, not a copy) |
| `Icm2.Icm2Display.ClearDisplay` | SAAB_ICM2.cpp:195-198 | the buffer becomes all zeros, and the bus is untouched |
| `Icm2.Icm2Display.FillScreen` | SAAB_ICM2.cpp:174-176 | the buffer becomes all 0xFF for a non-zero colour and all 0x00 for colour 0, and the bus is untouched |
| `Icm2.Icm2Display.DrawPixel` | SAAB_ICM2.cpp:148-166 | the new buffer is `SetPixel` of the old one, and the bus is untouched |
| `Icm2.Icm2Display.Begin` | SAAB_ICM2.cpp:103-129 | allocates only when there is no buffer. If allocation fails, it returns false with no other effect. Otherwise it returns true, keeps any existing buffer, zeroes the buffer and logs the 12 init frames in order |
| `Icm2.Icm2Display.SendInitFrames` | SAAB_ICM2.cpp:113-126 | appends the 12 init frames to the log, one transaction each, in order |
| `Icm2.Icm2Display.SelectLine` | SAAB_ICM2.cpp:210-214 | logs `{00,01,addr}`, `{00,01,20}`, `{00,01,8d}` |
| `Icm2.Icm2Display.ClearLine` | SAAB_ICM2.cpp:207-223 | one pass of forceClear's loop appends the line's selection and then 0x40 followed by 106 zeros |
| `Icm2.Icm2Display.ForceClear` | SAAB_ICM2.cpp:203-224 | appends exactly `ForceClearLog` to the bus log, and the buffer is untouched |
| `Icm2.Icm2Display.SendTopLine` | SAAB_ICM2.cpp:244-264 | appends line 0x48's selection and then 0x40 followed by `buffer[x] & 0x80` for x = 0..105 |
| `Icm2.Icm2Display.SendBandLine` | SAAB_ICM2.cpp:270-290 | for one band line L, appends line 0x40+L's selection and then 0x40 followed by the remap of bands L and L+1; the read position advances by exactly one band |
| `Icm2.Icm2Display.Display` | SAAB_ICM2.cpp:233-291 | appends exactly `DisplayLog(buffer)` to the bus log and leaves the buffer unchanged |

## Left out

- The bus log keeps every byte written in a transaction. This assumes the Wire implementation accepts a 107-byte transaction. Wire's transmit buffer is platform-dependent: the AVR core's holds 32 bytes and drops further writes. `DisplayLog`, `ForceClearLog` and the claim that display transmits every visible row hold only on a platform whose buffer holds 107 bytes.
- The Wire/TwoWire transport is not modelled. The bus is a ghost log of transaction contents. The device address, clocking, acknowledgements and the return value of `endTransmission` are not modelled; the driver ignores that return value anyway.
- The Adafruit_GFX base class and its drawing primitives are not part of this model. `drawPixel` is the only entry point they use. The base constructor receives the derived class's `_width`/`_height` members before those members are initialised (SAAB_ICM2.cpp:34). This affects only the base class's own dimensions and is not modelled.
- The PROGMEM and `pgm_read_*` compatibility macros (SAAB_ICM2.cpp:4-22) are left out; the core does not use them.
- `malloc`, `free` and the destructor are not modelled. Allocation success is the parameter `mallocOk` of `Begin`. The fresh array's contents are arbitrary, as `malloc`'s are. `Begin` clears it at once through `ClearDisplay`, as `begin` does at SAAB_ICM2.cpp:110.
- The unused fields `wireClk` and `restoreClk` are left out.
- The meaning of the init command bytes is not modelled; only their values, order and framing are.
- `DrawPixel`, `FillScreen`, `ClearDisplay` and `Display` require an allocated buffer. This follows the documented rule that `begin` must be called before any drawing or update (SAAB_ICM2.cpp:101). The requirement also excludes calls that the C++ handles without touching the null buffer: `drawPixel` with an off-screen coordinate or with a colour outside 0..2 before `begin`. Those calls do nothing in the C++, and the model does not cover them.
- `y & 7` is written as `y % 8`. The two agree because the expression is only evaluated for y ≥ 0.
- Some inline C++ is factored into helper methods: the init frames into `SendInitFrames`, the three line-selection frames into `SelectLine`, one pass of forceClear's loop into `ClearLine`, and the two halves of `display` into `SendTopLine` and `SendBandLine`. The bytes they send and their order are the same as in the inline C++.
