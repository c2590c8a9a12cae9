/**
 * The built-in hexadecimal font: sixteen glyphs, one per hex digit, each
 * five rows of one byte. A set bit is a lit pixel.
 */
module Font {
  import Opcode

  /** Number of rows in one glyph. */
  const GLYPH_ROWS: nat := 5

  /** Number of glyphs: one per hexadecimal digit. */
  const GLYPH_COUNT: nat := 16

  /** Size in bytes of the whole font, which sits at the bottom of memory. */
  const FONT_SIZE: nat := 80

  const FONTSET: seq<Opcode.byte> := [
    0xF0, 0x90, 0x90, 0x90, 0xF0,  // 0
    0x20, 0x60, 0x20, 0x20, 0x70,  // 1
    0xF0, 0x10, 0xF0, 0x80, 0xF0,  // 2
    0xF0, 0x10, 0xF0, 0x10, 0xF0,  // 3
    0x90, 0x90, 0xF0, 0x10, 0x10,  // 4
    0xF0, 0x80, 0xF0, 0x10, 0xF0,  // 5
    0xF0, 0x80, 0xF0, 0x90, 0xF0,  // 6
    0xF0, 0x10, 0x20, 0x40, 0x40,  // 7
    0xF0, 0x90, 0xF0, 0x90, 0xF0,  // 8
    0xF0, 0x90, 0xF0, 0x10, 0xF0,  // 9
    0xF0, 0x90, 0xF0, 0x90, 0x90,  // A
    0xE0, 0x90, 0xE0, 0x90, 0xE0,  // B
    0xF0, 0x80, 0x80, 0x80, 0xF0,  // C
    0xE0, 0x90, 0x90, 0x90, 0xE0,  // D
    0xF0, 0x80, 0xF0, 0x80, 0xF0,  // E
    0xF0, 0x80, 0xF0, 0x80, 0x80   // F
  ]

  /**
   * The five rows of the glyph for hex digit `d`: the font bytes from address
   * 5 * d on, which lie wholly inside the font area.
   */
  function Glyph(d: nat): seq<Opcode.byte>
    requires d < GLYPH_COUNT
  {
    FONTSET[GLYPH_ROWS * d .. GLYPH_ROWS * d + GLYPH_ROWS]
  }

  /**
   * Wherever the font is laid out from address 0, glyph `d` is found at
   * address 5 * d.
   */
  lemma GlyphsInPlace(m: seq<Opcode.byte>)
    requires |m| >= FONT_SIZE && m[..FONT_SIZE] == FONTSET
    ensures forall d :: 0 <= d < GLYPH_COUNT ==>
      m[GLYPH_ROWS * d .. GLYPH_ROWS * d + GLYPH_ROWS] == Glyph(d)
  {
    forall d | 0 <= d < GLYPH_COUNT
      ensures m[GLYPH_ROWS * d .. GLYPH_ROWS * d + GLYPH_ROWS] == Glyph(d)
    {
      assert m[..FONT_SIZE][GLYPH_ROWS * d .. GLYPH_ROWS * d + GLYPH_ROWS]
          == m[GLYPH_ROWS * d .. GLYPH_ROWS * d + GLYPH_ROWS];
    }
  }
}
