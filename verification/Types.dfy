/** Fixed-width integer types of the driver's C++ interface. */
module Types {
  /** C++ int8_t: the type of the width/height getters. */
  newtype int8 = x: int | -0x80 <= x < 0x80

  /** C++ int16_t: pixel coordinates passed to drawPixel. */
  newtype int16 = x: int | -0x8000 <= x < 0x8000

  /** C++ uint16_t: colour arguments of drawPixel and fillScreen. */
  newtype uint16 = x: int | 0 <= x < 0x1_0000
}
