/**
 * The 5x7 font of the text rasteriser (main/lcd.c): one glyph per printable
 * ASCII code, from ' ' (0x20) to '~' (0x7E), each glyph five column bytes.
 * Bit k of a column byte is the pixel in row k, counted from the top; rows
 * 0-6 are the glyph and bit 7 is clear in every entry of the table.
 */
module Font {
  import opened Bits

  const FONT_WIDTH: nat := 5
  const FONT_HEIGHT: nat := 7
  const FONT_BYTES_PER_CHAR: nat := 5

  /** The first and last codes that have a glyph, and the code drawn in place of the others. */
  const FIRST_CHAR: int := 0x20  // ' '
  const LAST_CHAR: int := 0x7E   // '~'
  const PLACEHOLDER: int := 0x3F // '?'

  /** One column of a glyph: rows 0-6, bit 7 clear. */
  type Column = b: bv8 | b & 0x80 == 0

  /** A glyph: FONT_BYTES_PER_CHAR columns, left to right. */
  type Glyph = g: seq<Column> | |g| == FONT_BYTES_PER_CHAR witness [0, 0, 0, 0, 0]

  /** The glyph with the given columns, left to right. */
  function Columns(c0: Column, c1: Column, c2: Column, c3: Column, c4: Column): Glyph
  {
    [c0, c1, c2, c3, c4]
  }

  /** The font table, entry i being the glyph of code FIRST_CHAR + i. */
  const FONT5X7: seq<Glyph> := [
    /* 0x20 ' '   */ Columns(0x00, 0x00, 0x00, 0x00, 0x00),
    /* 0x21 '!'   */ Columns(0x00, 0x00, 0x5F, 0x00, 0x00),
    /* 0x22 '"'   */ Columns(0x00, 0x07, 0x00, 0x07, 0x00),
    /* 0x23 '#'   */ Columns(0x14, 0x7F, 0x14, 0x7F, 0x14),
    /* 0x24 '$'   */ Columns(0x24, 0x2A, 0x7F, 0x2A, 0x12),
    /* 0x25 '%'   */ Columns(0x23, 0x13, 0x08, 0x64, 0x62),
    /* 0x26 '&'   */ Columns(0x36, 0x49, 0x55, 0x22, 0x50),
    /* 0x27 "'"   */ Columns(0x00, 0x05, 0x03, 0x00, 0x00),
    /* 0x28 '('   */ Columns(0x00, 0x1C, 0x22, 0x41, 0x00),
    /* 0x29 ')'   */ Columns(0x00, 0x41, 0x22, 0x1C, 0x00),
    /* 0x2A '*'   */ Columns(0x14, 0x08, 0x3E, 0x08, 0x14),
    /* 0x2B '+'   */ Columns(0x08, 0x08, 0x3E, 0x08, 0x08),
    /* 0x2C ','   */ Columns(0x00, 0x50, 0x30, 0x00, 0x00),
    /* 0x2D '-'   */ Columns(0x08, 0x08, 0x08, 0x08, 0x08),
    /* 0x2E '.'   */ Columns(0x00, 0x60, 0x60, 0x00, 0x00),
    /* 0x2F '/'   */ Columns(0x20, 0x10, 0x08, 0x04, 0x02),
    /* 0x30 '0'   */ Columns(0x3E, 0x51, 0x49, 0x45, 0x3E),
    /* 0x31 '1'   */ Columns(0x00, 0x42, 0x7F, 0x40, 0x00),
    /* 0x32 '2'   */ Columns(0x42, 0x61, 0x51, 0x49, 0x46),
    /* 0x33 '3'   */ Columns(0x21, 0x41, 0x45, 0x4B, 0x31),
    /* 0x34 '4'   */ Columns(0x18, 0x14, 0x12, 0x7F, 0x10),
    /* 0x35 '5'   */ Columns(0x27, 0x45, 0x45, 0x45, 0x39),
    /* 0x36 '6'   */ Columns(0x3C, 0x4A, 0x49, 0x49, 0x30),
    /* 0x37 '7'   */ Columns(0x01, 0x71, 0x09, 0x05, 0x03),
    /* 0x38 '8'   */ Columns(0x36, 0x49, 0x49, 0x49, 0x36),
    /* 0x39 '9'   */ Columns(0x06, 0x49, 0x49, 0x29, 0x1E),
    /* 0x3A ':'   */ Columns(0x00, 0x36, 0x36, 0x00, 0x00),
    /* 0x3B ';'   */ Columns(0x00, 0x56, 0x36, 0x00, 0x00),
    /* 0x3C '<'   */ Columns(0x08, 0x14, 0x22, 0x41, 0x00),
    /* 0x3D '='   */ Columns(0x14, 0x14, 0x14, 0x14, 0x14),
    /* 0x3E '>'   */ Columns(0x00, 0x41, 0x22, 0x14, 0x08),
    /* 0x3F '?'   */ Columns(0x02, 0x01, 0x51, 0x09, 0x06),
    /* 0x40 '@'   */ Columns(0x32, 0x49, 0x79, 0x41, 0x3E),
    /* 0x41 'A'   */ Columns(0x7E, 0x11, 0x11, 0x11, 0x7E),
    /* 0x42 'B'   */ Columns(0x7F, 0x49, 0x49, 0x49, 0x36),
    /* 0x43 'C'   */ Columns(0x3E, 0x41, 0x41, 0x41, 0x22),
    /* 0x44 'D'   */ Columns(0x7F, 0x41, 0x41, 0x22, 0x1C),
    /* 0x45 'E'   */ Columns(0x7F, 0x49, 0x49, 0x49, 0x41),
    /* 0x46 'F'   */ Columns(0x7F, 0x09, 0x09, 0x09, 0x01),
    /* 0x47 'G'   */ Columns(0x3E, 0x41, 0x49, 0x49, 0x7A),
    /* 0x48 'H'   */ Columns(0x7F, 0x08, 0x08, 0x08, 0x7F),
    /* 0x49 'I'   */ Columns(0x00, 0x41, 0x7F, 0x41, 0x00),
    /* 0x4A 'J'   */ Columns(0x20, 0x40, 0x41, 0x3F, 0x01),
    /* 0x4B 'K'   */ Columns(0x7F, 0x08, 0x14, 0x22, 0x41),
    /* 0x4C 'L'   */ Columns(0x7F, 0x40, 0x40, 0x40, 0x40),
    /* 0x4D 'M'   */ Columns(0x7F, 0x02, 0x0C, 0x02, 0x7F),
    /* 0x4E 'N'   */ Columns(0x7F, 0x04, 0x08, 0x10, 0x7F),
    /* 0x4F 'O'   */ Columns(0x3E, 0x41, 0x41, 0x41, 0x3E),
    /* 0x50 'P'   */ Columns(0x7F, 0x09, 0x09, 0x09, 0x06),
    /* 0x51 'Q'   */ Columns(0x3E, 0x41, 0x51, 0x21, 0x5E),
    /* 0x52 'R'   */ Columns(0x7F, 0x09, 0x19, 0x29, 0x46),
    /* 0x53 'S'   */ Columns(0x46, 0x49, 0x49, 0x49, 0x31),
    /* 0x54 'T'   */ Columns(0x01, 0x01, 0x7F, 0x01, 0x01),
    /* 0x55 'U'   */ Columns(0x3F, 0x40, 0x40, 0x40, 0x3F),
    /* 0x56 'V'   */ Columns(0x1F, 0x20, 0x40, 0x20, 0x1F),
    /* 0x57 'W'   */ Columns(0x3F, 0x40, 0x38, 0x40, 0x3F),
    /* 0x58 'X'   */ Columns(0x63, 0x14, 0x08, 0x14, 0x63),
    /* 0x59 'Y'   */ Columns(0x07, 0x08, 0x70, 0x08, 0x07),
    /* 0x5A 'Z'   */ Columns(0x61, 0x51, 0x49, 0x45, 0x43),
    /* 0x5B '['   */ Columns(0x00, 0x7F, 0x41, 0x41, 0x00),
    /* 0x5C '\'   */ Columns(0x02, 0x04, 0x08, 0x10, 0x20),
    /* 0x5D ']'   */ Columns(0x00, 0x41, 0x41, 0x7F, 0x00),
    /* 0x5E '^'   */ Columns(0x04, 0x02, 0x01, 0x02, 0x04),
    /* 0x5F '_'   */ Columns(0x40, 0x40, 0x40, 0x40, 0x40),
    /* 0x60 '`'   */ Columns(0x00, 0x01, 0x02, 0x04, 0x00),
    /* 0x61 'a'   */ Columns(0x20, 0x54, 0x54, 0x54, 0x78),
    /* 0x62 'b'   */ Columns(0x7F, 0x48, 0x44, 0x44, 0x38),
    /* 0x63 'c'   */ Columns(0x38, 0x44, 0x44, 0x44, 0x20),
    /* 0x64 'd'   */ Columns(0x38, 0x44, 0x44, 0x48, 0x7F),
    /* 0x65 'e'   */ Columns(0x38, 0x54, 0x54, 0x54, 0x18),
    /* 0x66 'f'   */ Columns(0x08, 0x7E, 0x09, 0x01, 0x02),
    /* 0x67 'g'   */ Columns(0x0C, 0x52, 0x52, 0x52, 0x3E),
    /* 0x68 'h'   */ Columns(0x7F, 0x08, 0x04, 0x04, 0x78),
    /* 0x69 'i'   */ Columns(0x00, 0x44, 0x7D, 0x40, 0x00),
    /* 0x6A 'j'   */ Columns(0x20, 0x40, 0x44, 0x3D, 0x00),
    /* 0x6B 'k'   */ Columns(0x7F, 0x10, 0x28, 0x44, 0x00),
    /* 0x6C 'l'   */ Columns(0x00, 0x41, 0x7F, 0x40, 0x00),
    /* 0x6D 'm'   */ Columns(0x7C, 0x04, 0x18, 0x04, 0x78),
    /* 0x6E 'n'   */ Columns(0x7C, 0x08, 0x04, 0x04, 0x78),
    /* 0x6F 'o'   */ Columns(0x38, 0x44, 0x44, 0x44, 0x38),
    /* 0x70 'p'   */ Columns(0x7C, 0x14, 0x14, 0x14, 0x08),
    /* 0x71 'q'   */ Columns(0x08, 0x14, 0x14, 0x18, 0x7C),
    /* 0x72 'r'   */ Columns(0x7C, 0x08, 0x04, 0x04, 0x08),
    /* 0x73 's'   */ Columns(0x48, 0x54, 0x54, 0x54, 0x20),
    /* 0x74 't'   */ Columns(0x04, 0x3F, 0x44, 0x40, 0x20),
    /* 0x75 'u'   */ Columns(0x3C, 0x40, 0x40, 0x20, 0x7C),
    /* 0x76 'v'   */ Columns(0x1C, 0x20, 0x40, 0x20, 0x1C),
    /* 0x77 'w'   */ Columns(0x3C, 0x40, 0x30, 0x40, 0x3C),
    /* 0x78 'x'   */ Columns(0x44, 0x28, 0x10, 0x28, 0x44),
    /* 0x79 'y'   */ Columns(0x0C, 0x50, 0x50, 0x50, 0x3C),
    /* 0x7A 'z'   */ Columns(0x44, 0x64, 0x54, 0x4C, 0x44),
    /* 0x7B '{'   */ Columns(0x00, 0x08, 0x36, 0x41, 0x00),
    /* 0x7C '|'   */ Columns(0x00, 0x00, 0x7F, 0x00, 0x00),
    /* 0x7D '}'   */ Columns(0x00, 0x41, 0x36, 0x08, 0x00),
    /* 0x7E '~'   */ Columns(0x10, 0x08, 0x08, 0x10, 0x08)
  ]


  /** The codes the table has a glyph for. */
  predicate Printable(c: int)
  {
    FIRST_CHAR <= c <= LAST_CHAR
  }

  /**
   * The code lcd_draw_char actually draws for c: c itself when it is
   * printable, the placeholder '?' for everything else.
   */
  function Substitute(c: int): (d: int)
    ensures Printable(d)
    ensures d == c <==> Printable(c)
    ensures !Printable(c) ==> d == PLACEHOLDER
  {
    if c < FIRST_CHAR || c > LAST_CHAR then PLACEHOLDER else c
  }

  /** The row of the font table lcd_draw_char reads for c; always a row the table has. */
  function GlyphIndex(c: int): (i: nat)
    ensures i < |FONT5X7|
    ensures FIRST_CHAR + i == Substitute(c)
  {
    Substitute(c) - FIRST_CHAR
  }

  /** The glyph drawn for c. */
  function GlyphOf(c: int): Glyph
  {
    FONT5X7[GlyphIndex(c)]
  }

  /** Whether the glyph drawn for c has its pixel at (col, row) on. */
  predicate GlyphPixel(c: int, col: nat, row: nat)
    requires col < FONT_WIDTH && row < FONT_HEIGHT
  {
    BitSet(GlyphOf(c)[col], row)
  }

  /**
   * The table has exactly one five-column glyph per printable code, so the
   * index c - ' ' of a printable c names a row of it.
   */
  lemma TableShape()
    ensures |FONT5X7| == LAST_CHAR - FIRST_CHAR + 1 == 95
    ensures forall i | 0 <= i < |FONT5X7| :: |FONT5X7[i]| == FONT_WIDTH
    ensures forall c | Printable(c) :: 0 <= c - FIRST_CHAR < |FONT5X7|
  {
  }

  /** Every code outside ' '..'~' is drawn with exactly the glyph of '?'. */
  lemma NonPrintableDrawsPlaceholder(c: int)
    ensures !Printable(c) ==> GlyphOf(c) == GlyphOf(PLACEHOLDER)
    ensures Printable(c) ==> GlyphOf(c) == FONT5X7[c - FIRST_CHAR]
  {
  }
}
