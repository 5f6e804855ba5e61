/**
 * The LCD device of main/lcd.c as a mutable object: its framebuffer and the
 * drawing operations that update it in place. Each method is proved to leave
 * in the buffer exactly what the matching Raster function computes from the
 * old contents; the lemmas of Raster then say what that is in pixels.
 *
 * A handle that is NULL and a handle whose buffer is NULL take the same
 * early-return branch in every operation, so both are modelled by an object
 * with hasBuffer == false.
 */
module Lcd {
  import opened Bits
  import opened Font
  import opened Raster

  /** A possibly NULL pointer. */
  datatype Option<T> = None | Some(value: T)

  /** The device structure lcd_dev_t, reduced to the framebuffer and its size. */
  class LcdDevice {
    var hasBuffer: bool
    var buffer: array<bv8>
    var bufferSize: int

    /** Once allocated, the buffer has the size lcd_init gives it, and bufferSize records it. */
    ghost predicate Valid()
      reads this
    {
      hasBuffer ==> bufferSize == BUFFER_SIZE && buffer.Length == BUFFER_SIZE
    }

    /** The zero-filled structure heap_caps_calloc returns in lcd_init: no buffer, size 0. */
    constructor ()
      ensures Valid() && !hasBuffer && bufferSize == 0
    {
      hasBuffer := false;
      buffer := new bv8[0];
      bufferSize := 0;
    }

    /**
     * The end of lcd_init: size the buffer to LCD_WIDTH * LCD_HEIGHT / 8
     * bytes, allocate it and clear it, leaving every pixel off.
     */
    method InitBuffer()
      modifies this
      ensures Valid() && hasBuffer && fresh(buffer)
      ensures bufferSize == BUFFER_SIZE == 1024
      ensures buffer[..] == Blank()
    {
      bufferSize := LCD_WIDTH * LCD_HEIGHT / 8;
      buffer := new bv8[bufferSize];
      hasBuffer := true;
      ClearBuffer();
    }

    /** lcd_clear_buffer: zero all bufferSize bytes; without a buffer, do nothing. */
    method ClearBuffer()
      requires Valid()
      modifies buffer
      ensures hasBuffer ==> buffer[..] == Blank()
      ensures !hasBuffer ==> buffer[..] == old(buffer[..])
    {
      if hasBuffer && bufferSize > 0 {
        forall i | 0 <= i < bufferSize {
          buffer[i] := 0;
        }
      }
    }

    /**
     * lcd_put_pixel_rotated: OR bit py % 8 into byte (py / 8) * 64 + px when
     * (px, py) is on the panel and there is a buffer; otherwise do nothing.
     * The index written is always inside the buffer.
     */
    method PutPixelRotated(px: int, py: int)
      requires Valid()
      modifies buffer
      ensures hasBuffer ==> buffer[..] == WithPhysicalPixel(old(buffer[..]), px, py)
      ensures !hasBuffer ==> buffer[..] == old(buffer[..])
    {
      if px >= ROTATED_LCD_H_RES || py >= ROTATED_LCD_V_RES || !hasBuffer || px < 0 || py < 0 {
        return;
      }
      buffer[(py / 8) * ROTATED_LCD_H_RES + px] := buffer[(py / 8) * ROTATED_LCD_H_RES + px] | Mask(py % 8);
    }

    /** lcd_put_pixel: set logical pixel (x, y), which is physical pixel (63 - y, x). */
    method PutPixel(x: int, y: int)
      requires Valid()
      modifies buffer
      ensures hasBuffer ==> buffer[..] == WithPixel(old(buffer[..]), x, y)
      ensures !hasBuffer ==> buffer[..] == old(buffer[..])
    {
      PutPixelRotated(ROTATED_LCD_H_RES - y - 1, x);
    }

    /**
     * lcd_draw_char: draw the glyph of c, or of '?' when c is not printable,
     * with its top-left corner at logical (x, y).
     */
    method DrawChar(c: int, x: int, y: int)
      requires Valid()
      modifies buffer
      ensures hasBuffer ==> buffer[..] == WithChar(old(buffer[..]), c, x, y)
      ensures !hasBuffer ==> buffer[..] == old(buffer[..])
    {
      if !hasBuffer {
        return;
      }
      var ch := c;
      if ch < FIRST_CHAR || ch > LAST_CHAR {
        ch := PLACEHOLDER;
      }
      var charIndex := ch - FIRST_CHAR;
      assert charIndex == GlyphIndex(c);
      DrawGlyph(FONT5X7[charIndex], x, y);
    }

    /**
     * The two loops of lcd_draw_char, over the font row it looked up: for
     * each column col and each row row of the glyph whose bit is set, set
     * logical pixel (x + col, y + row).
     */
    method DrawGlyph(glyph: Glyph, x: int, y: int)
      requires Valid() && hasBuffer
      modifies buffer
      ensures buffer[..] == WithGlyphColumns(old(buffer[..]), glyph, x, y, FONT_WIDTH)
    {
      for col := 0 to FONT_WIDTH
        invariant buffer[..] == WithGlyphColumns(old(buffer[..]), glyph, x, y, col)
      {
        var columnData := glyph[col];
        ghost var before := buffer[..];
        for row := 0 to FONT_HEIGHT
          invariant buffer[..] == WithColumnRows(before, columnData, x + col, y, row)
        {
          if columnData & Mask(row) != 0 {
            PutPixel(x + col, y + row);
          }
        }
      }
    }

    /**
     * lcd_draw_string: draw the NUL-terminated string at str character by
     * character, starting at logical (x, y) and moving 6 pixels right after
     * each; a NULL str, or no buffer, draws nothing.
     */
    method DrawString(str: Option<seq<int>>, x: int, y: int)
      requires Valid()
      requires str.Some? ==> 0 in str.value
      modifies buffer
      ensures hasBuffer && str.Some? ==> buffer[..] == WithText(old(buffer[..]), CString(str.value), x, y)
      ensures !hasBuffer || str.None? ==> buffer[..] == old(buffer[..])
    {
      if !hasBuffer || str.None? {
        return;
      }
      var mem := str.value;
      var i := 0;
      var currentX := x;
      while mem[i] != 0
        invariant 0 <= i <= CStringLength(mem)
        invariant currentX == x + CHAR_ADVANCE * i
        invariant buffer[..] == WithText(old(buffer[..]), mem[..i], x, y)
        decreases CStringLength(mem) - i
      {
        WithTextSnoc(old(buffer[..]), mem[..i], mem[i], x, y);
        assert mem[..i] + [mem[i]] == mem[..i + 1];
        DrawChar(mem[i], currentX, y);
        i := i + 1;
        currentX := currentX + FONT_WIDTH + 1;
      }
    }
  }
}
