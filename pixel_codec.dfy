/**
 * The framebuffer pixel codec: conversions between direct 24-bit colour
 * (three bytes, red, green and blue at indices 0, 1 and 2) and the two packed
 * two-byte formats, RGB444 and RGB565.
 *
 * Every conversion is a pure function of fixed-size inputs; bytes are `bv8`,
 * so shifts and masks have exactly their 8-bit meaning.
 */
module PixelCodec {
  import opened Common

  /** Values of a 4-, 5- and 6-bit colour field. */
  type U4 = v: Byte | v < 16
  type U5 = v: Byte | v < 32
  type U6 = v: Byte | v < 64

  /** A direct-colour pixel: byte 0 is red, byte 1 green, byte 2 blue. */
  datatype Rgb888 = Rgb888(red: Byte, green: Byte, blue: Byte)

  /** A packed pixel: byte 0 and byte 1 of the two-byte span. */
  datatype Packed = Packed(byte0: Byte, byte1: Byte)

  // ---------------------------------------------------------------------
  // Field expansion (packed field -> 8-bit channel)
  // ---------------------------------------------------------------------

  /** A 4-bit channel becomes 8 bits by repeating the nibble. */
  function Expand4(v: U4): (r: Byte)
    ensures r == v * 17
    ensures r >> 4 == v
  {
    (v << 4) | v
  }

  /**
   * A 5-bit field becomes 8 bits by copying its top three bits into the three
   * vacated low bits: the top five bits of the result are the field, and the
   * extremes 0 and 31 map to 0 and 255.
   */
  function Expand5(v: U5): (r: Byte)
    ensures r >> 3 == v
    ensures r & 0x07 == v >> 2
    ensures r == 0 <==> v == 0
    ensures r == 0xFF <==> v == 31
  {
    (v << 3) | (v >> 2)
  }

  /** The 6-bit analogue of Expand5: the top six bits are the field, the low two repeat its top two. */
  function Expand6(v: U6): (r: Byte)
    ensures r >> 2 == v
    ensures r & 0x03 == v >> 4
    ensures r == 0 <==> v == 0
    ensures r == 0xFF <==> v == 63
  {
    (v << 2) | (v >> 4)
  }

  // ---------------------------------------------------------------------
  // RGB444: byte0 = green nibble << 4 | blue nibble, byte1 = red nibble
  // ---------------------------------------------------------------------

  /** convert_rgb444_to_rgb888 */
  function Rgb444ToRgb888(p: Packed): (c: Rgb888)
    ensures c.red == (p.byte1 & 0x0F) * 17
    ensures c.green == (p.byte0 >> 4) * 17
    ensures c.blue == (p.byte0 & 0x0F) * 17
  {
    Rgb888(Expand4(p.byte1 & 0x0F), Expand4(p.byte0 >> 4), Expand4(p.byte0 & 0x0F))
  }

  /** convert_rgb888_to_rgb444: each channel keeps its top nibble. */
  function Rgb888ToRgb444(c: Rgb888): (p: Packed)
    ensures p.byte1 >> 4 == 0
    ensures p.byte1 == c.red >> 4
    ensures p.byte0 >> 4 == c.green >> 4
    ensures p.byte0 & 0x0F == c.blue >> 4
  {
    Packed((c.green & 0xF0) | (c.blue >> 4), c.red >> 4)
  }

  // ---------------------------------------------------------------------
  // RGB565: the 16-bit word byte1:byte0 holds R5 (bits 15..11),
  // G6 (bits 10..5) and B5 (bits 4..0)
  // ---------------------------------------------------------------------

  /** The red field of an RGB565 pixel. */
  function Red5(p: Packed): (r5: U5) {
    p.byte1 >> 3
  }

  /** The green field of an RGB565 pixel: three bits in each byte. */
  function Green6(p: Packed): (g6: U6) {
    ((p.byte1 & 0x07) << 3) | (p.byte0 >> 5)
  }

  /** The blue field of an RGB565 pixel. */
  function Blue5(p: Packed): (b5: U5) {
    p.byte0 & 0x1F
  }

  /** convert_rgb888_to_rgb565: truncate to 5-6-5 bits and pack. */
  function Rgb888ToRgb565(c: Rgb888): (p: Packed)
    ensures Red5(p) == c.red >> 3
    ensures Green6(p) == c.green >> 2
    ensures Blue5(p) == c.blue >> 3
  {
    var r5, g6, b5 := c.red >> 3, c.green >> 2, c.blue >> 3;
    Packed(((g6 & 0x07) << 5) | b5, (r5 << 3) | (g6 >> 3))
  }

  /**
   * convert_rgb565_to_rgb888: the top bits of each channel are its field, and
   * the vacated low bits repeat the field's top bits (bit replication).
   */
  function Rgb565ToRgb888(p: Packed): (c: Rgb888)
    ensures c.red >> 3 == Red5(p) && c.green >> 2 == Green6(p) && c.blue >> 3 == Blue5(p)
    ensures c.red & 0x07 == Red5(p) >> 2 && c.green & 0x03 == Green6(p) >> 4 && c.blue & 0x07 == Blue5(p) >> 2
  {
    Rgb888(Expand5(Red5(p)), Expand6(Green6(p)), Expand5(Blue5(p)))
  }

  // ---------------------------------------------------------------------
  // Laws
  // ---------------------------------------------------------------------

  /** The high nibble of byte1 is unused by the 12-bit format. */
  lemma Rgb444IgnoresHighNibble(p: Packed)
    ensures Rgb444ToRgb888(p) == Rgb444ToRgb888(Packed(p.byte0, p.byte1 & 0x0F))
  {
  }

  /** Packed to RGB to packed gives back the pixel, with byte1's unused nibble cleared. */
  lemma Rgb444RoundTrip(p: Packed)
    ensures Rgb888ToRgb444(Rgb444ToRgb888(p)) == Packed(p.byte0, p.byte1 & 0x0F)
  {
  }

  /**
   * RGB to 12-bit and back keeps the top nibble of every channel and replaces
   * the low nibble by a copy of it: only the low four bits can change.
   */
  lemma Rgb444TruncateExpand(c: Rgb888)
    ensures var d := Rgb444ToRgb888(Rgb888ToRgb444(c));
      && d.red & 0xF0 == c.red & 0xF0 && d.red & 0x0F == c.red >> 4
      && d.green & 0xF0 == c.green & 0xF0 && d.green & 0x0F == c.green >> 4
      && d.blue & 0xF0 == c.blue & 0xF0 && d.blue & 0x0F == c.blue >> 4
  {
  }

  /** A channel survives the 12-bit round trip exactly iff it is a multiple of 17. */
  lemma Rgb444ExactIffMultipleOf17(c: Rgb888)
    ensures Rgb444ToRgb888(Rgb888ToRgb444(c)) == c
        <==> c.red % 17 == 0 && c.green % 17 == 0 && c.blue % 17 == 0
  {
  }

  /** Packing is unchanged by a round trip of its own output (idempotent quantisation). */
  lemma Rgb444QuantiseIdempotent(c: Rgb888)
    ensures var q := Rgb444ToRgb888(Rgb888ToRgb444(c));
      Rgb888ToRgb444(q) == Rgb888ToRgb444(c)
  {
  }

  /** Every 16-bit pixel survives RGB565 -> RGB888 -> RGB565 unchanged. */
  lemma Rgb565RoundTrip(p: Packed)
    ensures Rgb888ToRgb565(Rgb565ToRgb888(p)) == p
  {
  }

  /** Distinct 16-bit pixels expand to distinct colours. */
  lemma Rgb565ExpandInjective(p: Packed, q: Packed)
    requires Rgb565ToRgb888(p) == Rgb565ToRgb888(q)
    ensures p == q
  {
  }

  /** RGB to 16-bit and back keeps the top 5, 6 and 5 bits of the channels. */
  lemma Rgb565TruncateExpand(c: Rgb888)
    ensures var d := Rgb565ToRgb888(Rgb888ToRgb565(c));
      && d.red & 0xF8 == c.red & 0xF8
      && d.green & 0xFC == c.green & 0xFC
      && d.blue & 0xF8 == c.blue & 0xF8
  {
  }

  /** A colour whose channels are exact 5-, 6- and 5-bit expansions survives the round trip. */
  lemma Rgb565ExactOnRepresentable(c: Rgb888)
    ensures Rgb565ToRgb888(Rgb888ToRgb565(c)) == c
        <==> c.red == Expand5(c.red >> 3) && c.green == Expand6(c.green >> 2) && c.blue == Expand5(c.blue >> 3)
  {
  }

  /** Expansion preserves order strictly, so brighter fields give brighter channels. */
  lemma ExpandMonotone(v: U5, w: U5, x: U6, y: U6)
    ensures v < w ==> Expand5(v) < Expand5(w)
    ensures x < y ==> Expand6(x) < Expand6(y)
  {
  }
}
