/**
 * The packed 1-bit framebuffer of main/lcd.c and the effect of each drawing
 * primitive on it, as functions from the buffer's old contents to its new
 * contents. The methods of Lcd.LcdDevice are proved to compute exactly these.
 *
 * Physical space is the panel's scan order: 64 columns (px) by 128 rows (py);
 * the byte (py / 8) * 64 + px holds rows 8 * (py / 8) .. 8 * (py / 8) + 7 of
 * column px, row py in bit py % 8. Logical space is the drawing API's: the
 * pixel (x, y) is the physical pixel (63 - y, x), so x ranges over 0..127 and
 * y over 0..63.
 */
module Raster {
  import opened Bits
  import opened Font

  const LCD_WIDTH: int := 64
  const LCD_HEIGHT: int := 128
  const ROTATED_LCD_H_RES: int := 64
  const ROTATED_LCD_V_RES: int := 128

  /** The size lcd_init gives the buffer: one bit per pixel. */
  const BUFFER_SIZE: int := LCD_WIDTH * LCD_HEIGHT / 8

  /** How far lcd_draw_string moves right after each character: the glyph and one blank column. */
  const CHAR_ADVANCE: int := FONT_WIDTH + 1

  /** The contents of an allocated framebuffer. */
  type Frame = s: seq<bv8> | |s| == BUFFER_SIZE witness seq(1024, _ => 0)

  /** The all-zero framebuffer, as lcd_clear_buffer leaves it. */
  function Blank(): (b: Frame)
    ensures forall i | 0 <= i < |b| :: b[i] == 0
  {
    seq(BUFFER_SIZE, _ => 0)
  }

  // ---------------------------------------------------------------------
  // Physical pixels and the packing

  /** The physical coordinates lcd_put_pixel_rotated accepts. */
  predicate OnPanel(px: int, py: int)
  {
    0 <= px < ROTATED_LCD_H_RES && 0 <= py < ROTATED_LCD_V_RES
  }

  /** The byte holding physical pixel (px, py); it is always inside the buffer. */
  function ByteIndex(px: int, py: int): (i: int)
    requires OnPanel(px, py)
    ensures 0 <= i < BUFFER_SIZE
    ensures i % ROTATED_LCD_H_RES == px
  {
    (py / 8) * ROTATED_LCD_H_RES + px
  }

  /** Whether physical pixel (px, py) is on in buf. */
  predicate PhysicalPixel(buf: Frame, px: int, py: int)
    requires OnPanel(px, py)
  {
    BitSet(buf[ByteIndex(px, py)], py % 8)
  }

  /**
   * The physical pixel stored in bit k of byte i: the inverse of the
   * packing, so every bit of the buffer is the bit of exactly one pixel.
   */
  function PixelOfBit(i: int, k: nat): (p: (int, int))
    requires 0 <= i < BUFFER_SIZE && k < 8
    ensures OnPanel(p.0, p.1)
    ensures ByteIndex(p.0, p.1) == i && p.1 % 8 == k
  {
    var py := (i / ROTATED_LCD_H_RES) * 8 + k;
    assert py / 8 == i / ROTATED_LCD_H_RES;
    (i % ROTATED_LCD_H_RES, py)
  }

  /** Two different physical pixels never share a bit of the buffer. */
  lemma PackingInjective(px: int, py: int, qx: int, qy: int)
    requires OnPanel(px, py) && OnPanel(qx, qy)
    requires ByteIndex(px, py) == ByteIndex(qx, qy) && py % 8 == qy % 8
    ensures px == qx && py == qy
  {
  }

  /** The buffer after lcd_put_pixel_rotated(px, py) on a handle that has a buffer. */
  function WithPhysicalPixel(buf: Frame, px: int, py: int): Frame
  {
    if px >= ROTATED_LCD_H_RES || py >= ROTATED_LCD_V_RES || px < 0 || py < 0 then buf
    else buf[ByteIndex(px, py) := buf[ByteIndex(px, py)] | Mask(py % 8)]
  }

  /**
   * Byte-level effect of a physical pixel write: off the panel nothing
   * changes; on it, byte ByteIndex(px, py) gains bit py % 8, every other
   * byte and every other bit is as it was, and no bit is ever cleared.
   */
  lemma WithPhysicalPixelBytes(buf: Frame, px: int, py: int)
    ensures !OnPanel(px, py) ==> WithPhysicalPixel(buf, px, py) == buf
    ensures OnPanel(px, py) ==>
      var i := ByteIndex(px, py);
      && WithPhysicalPixel(buf, px, py)[i] == buf[i] | Mask(py % 8)
      && (forall j | 0 <= j < BUFFER_SIZE && j != i :: WithPhysicalPixel(buf, px, py)[j] == buf[j])
      && (forall k: nat | k < 8 && k != py % 8 ::
            BitSet(WithPhysicalPixel(buf, px, py)[i], k) == BitSet(buf[i], k))
    ensures forall j | 0 <= j < BUFFER_SIZE :: WithPhysicalPixel(buf, px, py)[j] & buf[j] == buf[j]
  {
  }

  /** Pixel-level effect of a physical pixel write: exactly pixel (px, py) is turned on, if it is on the panel. */
  lemma WithPhysicalPixelPixels(buf: Frame, px: int, py: int, qx: int, qy: int)
    requires OnPanel(qx, qy)
    ensures PhysicalPixel(WithPhysicalPixel(buf, px, py), qx, qy)
        <==> PhysicalPixel(buf, qx, qy) || (qx == px && qy == py)
  {
  }

  /** Two buffers whose physical pixels all agree are the same buffer. */
  lemma PhysicalPixelsDetermineFrame(a: Frame, b: Frame)
    requires forall px, py | OnPanel(px, py) :: PhysicalPixel(a, px, py) == PhysicalPixel(b, px, py)
    ensures a == b
  {
    forall i | 0 <= i < BUFFER_SIZE
      ensures a[i] == b[i]
    {
      forall k: nat | k < 8
        ensures BitSet(a[i], k) == BitSet(b[i], k)
      {
        var p := PixelOfBit(i, k);
        assert PhysicalPixel(a, p.0, p.1) == PhysicalPixel(b, p.0, p.1);
      }
      BitsDetermineByte(a[i], b[i]);
    }
  }

  // ---------------------------------------------------------------------
  // Logical pixels and the rotation

  /** The physical pixel lcd_put_pixel writes for logical (x, y). */
  function Rotate(x: int, y: int): (p: (int, int))
    ensures Unrotate(p.0, p.1) == (x, y)
  {
    (ROTATED_LCD_H_RES - y - 1, x)
  }

  /** The logical pixel shown by physical pixel (px, py). */
  function Unrotate(px: int, py: int): (q: (int, int))
  {
    (py, ROTATED_LCD_H_RES - 1 - px)
  }

  /** The logical coordinates that reach the panel: x in 0..127 and y in 0..63. */
  predicate OnScreen(x: int, y: int)
  {
    0 <= x < ROTATED_LCD_V_RES && 0 <= y < ROTATED_LCD_H_RES
  }

  /** The rotation maps the logical screen onto the physical panel, one to one. */
  lemma RotationBijective(x: int, y: int, px: int, py: int)
    ensures OnScreen(x, y) <==> OnPanel(Rotate(x, y).0, Rotate(x, y).1)
    ensures Rotate(Unrotate(px, py).0, Unrotate(px, py).1) == (px, py)
    ensures OnPanel(px, py) <==> OnScreen(Unrotate(px, py).0, Unrotate(px, py).1)
  {
  }

  /** Whether logical pixel (x, y) is on in buf. */
  predicate Pixel(buf: Frame, x: int, y: int)
    requires OnScreen(x, y)
  {
    var p := Rotate(x, y);
    PhysicalPixel(buf, p.0, p.1)
  }

  /** The buffer after lcd_put_pixel(x, y) on a handle that has a buffer. */
  function WithPixel(buf: Frame, x: int, y: int): Frame
  {
    var p := Rotate(x, y);
    WithPhysicalPixel(buf, p.0, p.1)
  }

  /**
   * lcd_put_pixel changes the buffer only for a logical pixel on the
   * screen, and then turns on exactly that pixel.
   */
  lemma WithPixelPixels(buf: Frame, x: int, y: int, qx: int, qy: int)
    requires OnScreen(qx, qy)
    ensures !OnScreen(x, y) ==> WithPixel(buf, x, y) == buf
    ensures Pixel(WithPixel(buf, x, y), qx, qy) <==> Pixel(buf, qx, qy) || (qx == x && qy == y)
  {
  }

  /** Two buffers whose logical pixels all agree are the same buffer. */
  lemma PixelsDetermineFrame(a: Frame, b: Frame)
    requires forall x, y | OnScreen(x, y) :: Pixel(a, x, y) == Pixel(b, x, y)
    ensures a == b
  {
    forall px, py | OnPanel(px, py)
      ensures PhysicalPixel(a, px, py) == PhysicalPixel(b, px, py)
    {
      var q := Unrotate(px, py);
      assert Pixel(a, q.0, q.1) == Pixel(b, q.0, q.1);
    }
    PhysicalPixelsDetermineFrame(a, b);
  }

  /** A cleared buffer shows no pixel; setting one logical pixel then shows exactly that pixel. */
  lemma BlankThenPixel(x: int, y: int, qx: int, qy: int)
    requires OnScreen(x, y) && OnScreen(qx, qy)
    ensures !Pixel(Blank(), qx, qy)
    ensures Pixel(WithPixel(Blank(), x, y), qx, qy) <==> qx == x && qy == y
  {
  }

  // ---------------------------------------------------------------------
  // Glyphs

  /** The buffer after the inner loop of lcd_draw_char has drawn rows 0..rows-1 of column byte column at logical (x, y). */
  function WithColumnRows(buf: Frame, column: bv8, x: int, y: int, rows: nat): Frame
    requires rows <= FONT_HEIGHT
  {
    if rows == 0 then buf
    else
      var b := WithColumnRows(buf, column, x, y, rows - 1);
      if BitSet(column, rows - 1) then WithPixel(b, x, y + rows - 1) else b
  }

  /** The buffer after the outer loop of lcd_draw_char has drawn columns 0..cols-1 of glyph g at logical (x, y). */
  function WithGlyphColumns(buf: Frame, g: Glyph, x: int, y: int, cols: nat): Frame
    requires cols <= FONT_WIDTH
  {
    if cols == 0 then buf
    else WithColumnRows(WithGlyphColumns(buf, g, x, y, cols - 1), g[cols - 1], x + cols - 1, y, FONT_HEIGHT)
  }

  /** The buffer after lcd_draw_char(c, x, y) on a handle that has a buffer. */
  function WithChar(buf: Frame, c: int, x: int, y: int): Frame
  {
    WithGlyphColumns(buf, GlyphOf(c), x, y, FONT_WIDTH)
  }

  /** Whether drawing c with its top-left corner at logical (x, y) inks logical pixel (qx, qy). */
  predicate Inks(c: int, x: int, y: int, qx: int, qy: int)
  {
    x <= qx < x + FONT_WIDTH && y <= qy < y + FONT_HEIGHT && GlyphPixel(c, qx - x, qy - y)
  }

  lemma {:induction false} WithColumnRowsPixels(buf: Frame, column: bv8, x: int, y: int, rows: nat, qx: int, qy: int)
    requires rows <= FONT_HEIGHT && OnScreen(qx, qy)
    ensures Pixel(WithColumnRows(buf, column, x, y, rows), qx, qy)
        <==> Pixel(buf, qx, qy) || (qx == x && y <= qy < y + rows && BitSet(column, qy - y))
  {
    if rows > 0 {
      var b := WithColumnRows(buf, column, x, y, rows - 1);
      WithColumnRowsPixels(buf, column, x, y, rows - 1, qx, qy);
      WithPixelPixels(b, x, y + rows - 1, qx, qy);
    }
  }

  lemma {:induction false} WithGlyphColumnsPixels(buf: Frame, g: Glyph, x: int, y: int, cols: nat, qx: int, qy: int)
    requires cols <= FONT_WIDTH && OnScreen(qx, qy)
    ensures Pixel(WithGlyphColumns(buf, g, x, y, cols), qx, qy)
        <==> Pixel(buf, qx, qy)
             || (x <= qx < x + cols && y <= qy < y + FONT_HEIGHT && BitSet(g[qx - x], qy - y))
  {
    if cols > 0 {
      var b := WithGlyphColumns(buf, g, x, y, cols - 1);
      WithGlyphColumnsPixels(buf, g, x, y, cols - 1, qx, qy);
      WithColumnRowsPixels(b, g[cols - 1], x + cols - 1, y, FONT_HEIGHT, qx, qy);
    }
  }

  /**
   * lcd_draw_char(c, x, y) turns on exactly the on-screen logical pixels
   * (x + col, y + row), col < 5 and row < 7, whose bit row is set in column
   * col of the glyph drawn for c; every other pixel keeps its value and no
   * pixel is turned off. Only rows 0-6 of a column byte are ever read.
   */
  lemma WithCharPixels(buf: Frame, c: int, x: int, y: int, qx: int, qy: int)
    requires OnScreen(qx, qy)
    ensures Pixel(WithChar(buf, c, x, y), qx, qy) <==> Pixel(buf, qx, qy) || Inks(c, x, y, qx, qy)
  {
    WithGlyphColumnsPixels(buf, GlyphOf(c), x, y, FONT_WIDTH, qx, qy);
  }

  /** A character outside ' '..'~' draws exactly what '?' draws. */
  lemma WithCharSubstitutes(buf: Frame, c: int, x: int, y: int)
    ensures !Printable(c) ==> WithChar(buf, c, x, y) == WithChar(buf, PLACEHOLDER, x, y)
  {
  }

  /** A character whose 5x7 box lies wholly off the screen leaves the buffer as it was: drawing clips. */
  lemma WithCharOffScreen(buf: Frame, c: int, x: int, y: int)
    requires x + FONT_WIDTH <= 0 || x >= ROTATED_LCD_V_RES || y + FONT_HEIGHT <= 0 || y >= ROTATED_LCD_H_RES
    ensures WithChar(buf, c, x, y) == buf
  {
    forall qx, qy | OnScreen(qx, qy)
      ensures Pixel(WithChar(buf, c, x, y), qx, qy) == Pixel(buf, qx, qy)
    {
      WithCharPixels(buf, c, x, y, qx, qy);
    }
    PixelsDetermineFrame(WithChar(buf, c, x, y), buf);
  }

  /**
   * Round trip through the rotation: a character drawn at logical (0, 0)
   * into a cleared buffer turns on physical pixel (px, py) exactly when row
   * 63 - px of column py of its glyph is set, so the glyph occupies panel
   * columns 57..63 of panel rows 0..4 and nothing else.
   */
  lemma GlyphAtOrigin(c: int, px: int, py: int)
    requires OnPanel(px, py)
    ensures PhysicalPixel(WithChar(Blank(), c, 0, 0), px, py)
        <==> py < FONT_WIDTH && ROTATED_LCD_H_RES - FONT_HEIGHT <= px
             && GlyphPixel(c, py, ROTATED_LCD_H_RES - 1 - px)
  {
    var q := Unrotate(px, py);
    BlankThenPixel(0, 0, q.0, q.1);
    WithCharPixels(Blank(), c, 0, 0, q.0, q.1);
  }

  /** The table entry of 'T'. */
  lemma GlyphOfT()
    ensures GlyphOf('T' as int) == [0x01, 0x01, 0x7F, 0x01, 0x01]
  {
  }

  /** Where 'T' drawn at logical (0, 0) puts ink: its bar along row 0 and its stem down column 2. */
  lemma InksT(qx: int, qy: int)
    ensures Inks('T' as int, 0, 0, qx, qy) <==> (qy == 0 && 0 <= qx < 5) || (qx == 2 && 0 <= qy < 7)
  {
    GlyphOfT();
  }

  /**
   * 'T' (columns 0x01, 0x01, 0x7F, 0x01, 0x01) drawn at logical (0, 0) into
   * a cleared buffer shows exactly its bar, logical row 0, and its stem,
   * logical column 2.
   */
  lemma GlyphTAtOrigin(qx: int, qy: int)
    requires OnScreen(qx, qy)
    ensures Pixel(WithChar(Blank(), 'T' as int, 0, 0), qx, qy) <==> (qy == 0 && qx < 5) || (qx == 2 && qy < 7)
  {
    BlankThenPixel(0, 0, qx, qy);
    WithCharPixels(Blank(), 'T' as int, 0, 0, qx, qy);
    InksT(qx, qy);
  }

  /** The same 'T' on the panel, after the rotation: column 63, rows 0..4, and row 2, columns 57..63. */
  lemma GlyphTOnPanel(px: int, py: int)
    requires OnPanel(px, py)
    ensures PhysicalPixel(WithChar(Blank(), 'T' as int, 0, 0), px, py)
        <==> (px == 63 && py < 5) || (py == 2 && 57 <= px)
  {
    var q := Unrotate(px, py);
    GlyphTAtOrigin(q.0, q.1);
  }

  // ---------------------------------------------------------------------
  // Strings

  /**
   * The buffer after the loop of lcd_draw_string has drawn the characters
   * s, the i-th with its top-left corner at logical (x + 6 * i, y).
   */
  function WithText(buf: Frame, s: seq<int>, x: int, y: int): Frame
    decreases |s|
  {
    if s == [] then buf
    else WithChar(WithText(buf, s[..|s| - 1], x, y), s[|s| - 1], x + CHAR_ADVANCE * (|s| - 1), y)
  }

  /** Appending one character to the text draws it 6 pixels per preceding character right of x. */
  lemma WithTextSnoc(buf: Frame, s: seq<int>, c: int, x: int, y: int)
    ensures WithText(buf, s + [c], x, y) == WithChar(WithText(buf, s, x, y), c, x + CHAR_ADVANCE * |s|, y)
  {
  }

  /** Drawing s then t at the cursor s leaves equals drawing s + t. */
  lemma {:induction false} WithTextAppend(buf: Frame, s: seq<int>, t: seq<int>, x: int, y: int)
    ensures WithText(buf, s + t, x, y) == WithText(WithText(buf, s, x, y), t, x + CHAR_ADVANCE * |s|, y)
    decreases |t|
  {
    if t == [] {
      assert s + t == s;
    } else {
      var t' := t[..|t| - 1];
      assert (s + t)[..|s + t| - 1] == s + t';
      WithTextAppend(buf, s, t', x, y);
    }
  }

  /** An empty string draws nothing; a one-character string draws what lcd_draw_char draws; "AB" draws 'B' 6 pixels right of 'A'. */
  lemma WithTextShortStrings(buf: Frame, a: int, b: int, x: int, y: int)
    ensures WithText(buf, [], x, y) == buf
    ensures WithText(buf, [a], x, y) == WithChar(buf, a, x, y)
    ensures WithText(buf, [a, b], x, y) == WithChar(WithChar(buf, a, x, y), b, x + CHAR_ADVANCE, y)
  {
  }

  /** Whether some character s[i], drawn at logical (x + 6 * i, y), inks logical pixel (qx, qy). */
  predicate TextInks(s: seq<int>, x: int, y: int, qx: int, qy: int)
  {
    exists i | 0 <= i < |s| :: Inks(s[i], x + CHAR_ADVANCE * i, y, qx, qy)
  }

  /** The ink of a string is the ink of all but its last character plus the ink of the last. */
  lemma TextInksLast(s: seq<int>, x: int, y: int, qx: int, qy: int)
    requires s != []
    ensures TextInks(s, x, y, qx, qy)
        <==> TextInks(s[..|s| - 1], x, y, qx, qy)
             || Inks(s[|s| - 1], x + CHAR_ADVANCE * (|s| - 1), y, qx, qy)
  {
  }

  /**
   * lcd_draw_string turns on exactly the on-screen pixels inked by some
   * character s[i] drawn at (x + 6 * i, y), and no others.
   */
  lemma {:induction false} WithTextPixels(buf: Frame, s: seq<int>, x: int, y: int, qx: int, qy: int)
    requires OnScreen(qx, qy)
    ensures Pixel(WithText(buf, s, x, y), qx, qy) <==> Pixel(buf, qx, qy) || TextInks(s, x, y, qx, qy)
    decreases |s|
  {
    if s != [] {
      var s', n := s[..|s| - 1], |s| - 1;
      WithTextPixels(buf, s', x, y, qx, qy);
      WithCharPixels(WithText(buf, s', x, y), s[n], x + CHAR_ADVANCE * n, y, qx, qy);
      TextInksLast(s, x, y, qx, qy);
    }
  }

  /** The characters of NUL-terminated memory mem before its first NUL. */
  function CStringLength(mem: seq<int>): (n: nat)
    requires 0 in mem
    ensures n < |mem| && mem[n] == 0
    ensures forall i | 0 <= i < n :: mem[i] != 0
  {
    if mem[0] == 0 then 0 else 1 + CStringLength(mem[1..])
  }

  /** The string a C pointer to mem denotes: everything before the first NUL. */
  function CString(mem: seq<int>): (s: seq<int>)
    requires 0 in mem
    ensures |s| < |mem| && mem[..|s|] == s && mem[|s|] == 0 && 0 !in s
  {
    mem[..CStringLength(mem)]
  }
}
