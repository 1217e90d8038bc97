/**
 * The literal pixel vectors of the library's framebuffer tests, stated as
 * facts about the codec. Colour names follow the tests.
 */
module CodecVectors {
  import opened PixelCodec

  /** RGB444 -> RGB888 for black, white, red, green, blue, brown and purple. */
  lemma Rgb444ToRgb888Vectors()
    ensures Rgb444ToRgb888(Packed(0x00, 0x00)) == Rgb888(0, 0, 0)
    ensures Rgb444ToRgb888(Packed(0xFF, 0x0F)) == Rgb888(255, 255, 255)
    ensures Rgb444ToRgb888(Packed(0x00, 0x0F)) == Rgb888(255, 0, 0)
    ensures Rgb444ToRgb888(Packed(0xF0, 0x00)) == Rgb888(0, 255, 0)
    ensures Rgb444ToRgb888(Packed(0x0F, 0x00)) == Rgb888(0, 0, 255)
    ensures Rgb444ToRgb888(Packed(0x75, 0x08)) == Rgb888(0x88, 0x77, 0x55)
    ensures Rgb444ToRgb888(Packed(0x5C, 0x0A)) == Rgb888(0xAA, 0x55, 0xCC)
  {
  }

  /** RGB888 -> RGB444 for the same colours; purple packs to the bytes unpacked above. */
  lemma Rgb888ToRgb444Vectors()
    ensures Rgb888ToRgb444(Rgb888(0, 0, 0)) == Packed(0x00, 0x00)
    ensures Rgb888ToRgb444(Rgb888(0xFF, 0xFF, 0xFF)) == Packed(0xFF, 0x0F)
    ensures Rgb888ToRgb444(Rgb888(0xFF, 0, 0)) == Packed(0x00, 0x0F)
    ensures Rgb888ToRgb444(Rgb888(0, 0xFF, 0)) == Packed(0xF0, 0x00)
    ensures Rgb888ToRgb444(Rgb888(0, 0, 0xFF)) == Packed(0x0F, 0x00)
    ensures Rgb888ToRgb444(Rgb888(0x95, 0x6C, 0x32)) == Packed(0x63, 0x09)
    ensures Rgb888ToRgb444(Rgb888(0xA4, 0x52, 0xCD)) == Packed(0x5C, 0x0A)
  {
  }

  /** RGB888 -> RGB565 (byte0 is the low byte, byte1 the high byte). */
  lemma Rgb888ToRgb565Vectors()
    ensures Rgb888ToRgb565(Rgb888(0, 0, 0)) == Packed(0x00, 0x00)
    ensures Rgb888ToRgb565(Rgb888(0xFF, 0xFF, 0xFF)) == Packed(0xFF, 0xFF)
    ensures Rgb888ToRgb565(Rgb888(0xFF, 0, 0)) == Packed(0x00, 0xF8)
    ensures Rgb888ToRgb565(Rgb888(0, 0xFF, 0)) == Packed(0xE0, 0x07)
    ensures Rgb888ToRgb565(Rgb888(0, 0, 0xFF)) == Packed(0x1F, 0x00)
    ensures Rgb888ToRgb565(Rgb888(0x95, 0x6C, 0x32)) == Packed(0x66, 0x93)
    ensures Rgb888ToRgb565(Rgb888(0xA4, 0x52, 0xCD)) == Packed(0x99, 0xA2)
  {
  }

  /** RGB565 -> RGB888: bit replication, so brown comes back as (0x94, 0x6D, 0x31), not (0x95, 0x6C, 0x32). */
  lemma Rgb565ToRgb888Vectors()
    ensures Rgb565ToRgb888(Packed(0x00, 0x00)) == Rgb888(0, 0, 0)
    ensures Rgb565ToRgb888(Packed(0xFF, 0xFF)) == Rgb888(255, 255, 255)
    ensures Rgb565ToRgb888(Packed(0x00, 0xF8)) == Rgb888(255, 0, 0)
    ensures Rgb565ToRgb888(Packed(0xE0, 0x07)) == Rgb888(0, 255, 0)
    ensures Rgb565ToRgb888(Packed(0x1F, 0x00)) == Rgb888(0, 0, 255)
    ensures Rgb565ToRgb888(Packed(0x66, 0x93)) == Rgb888(0x94, 0x6D, 0x31)
    ensures Rgb565ToRgb888(Packed(0x99, 0xA2)) == Rgb888(0xA5, 0x51, 0xCE)
  {
  }
}
