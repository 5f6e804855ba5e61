# Text rasteriser of the SH1107 OLED driver, in Dafny

This project models the drawing core of `main/lcd.c`: a 64 x 128 monochrome
panel kept as a packed 1-bit framebuffer in RAM, and the routines that draw
into it. It covers:

- the 5x7 font table;
- setting a physical pixel;
- the 90-degree rotation from the logical drawing coordinates to the panel's;
- drawing one character, with '?' in place of anything unprintable;
- drawing a NUL-terminated string;
- clearing the buffer;
- the allocation and clearing of the buffer at the end of `lcd_init`.

The project has four modules, one per layer:

- `Bits` (`bits.dfy`) holds single bits of a byte.
- `Font` (`font.dfy`) holds the font table `FONT5X7`, copied from the source byte for byte. It also holds the `?` substitution and the glyph lookup.
- `Raster` (`raster.dfy`) describes what each drawing primitive does to the buffer. Each primitive is a pure function from the old buffer contents (`Frame`, 1024 bytes) to the new ones. The lemmas there state the effect pixel by pixel:
  - which bit of which byte holds a pixel;
  - that a write turns on exactly one pixel and clears none;
  - that the rotation is one to one;
  - exactly which pixels a character or a string turns on.
- `Lcd` (`lcd.dfy`) is the device itself. `LcdDevice` is a class with the buffer as an `array<bv8>`. Its methods keep the loops of the C code, and each method is proved to leave in the array exactly what the matching `Raster` function computes from the old contents.

Coordinates work as follows:

- Physical pixel (px, py), with px < 64 and py < 128, is bit py % 8 of byte (py / 8) * 64 + px.
- Logical pixel (x, y) is physical pixel (63 - y, x).
- So the drawing API accepts x in 0..127 and y in 0..63, even though `lcd.h` calls the panel 64 wide and 128 high.

A NULL handle and a handle whose buffer is NULL take the same early return in every routine. The model represents both as an `LcdDevice` with `hasBuffer == false`.

## Model

| member | source | states |
|---|---|---|
| Font.Substitute | main/lcd.c:244-246 | the code drawn is always printable; it equals c exactly when c is in ' '..'~', and is '?' otherwise |
| Font.GlyphIndex | main/lcd.c:248-249 | the row read, c - ' ' after substitution, is always a row of the table (never out of bounds) |
| Font.TableShape | main/lcd.c:31-223 | the table has 95 rows, one per code ' '..'~', each of FONT_BYTES_PER_CHAR = 5 columns, and every printable code indexes a row |
| Font.FONT5X7 | main/lcd.c:31-223 | the font table, row i being the five column bytes of code ' ' + i, byte for byte as in the source; its shape is stated by Font.TableShape |
| Font.GlyphOf | main/lcd.c:249-253 | the glyph lcd_draw_char reads for c, row GlyphIndex(c) of the table; Font.NonPrintableDrawsPlaceholder characterises it |
| Font.NonPrintableDrawsPlaceholder | main/lcd.c:243-249 | a non-printable code gets the glyph of '?'; a printable code gets table row c - ' ' |
| Bits.Mask | main/lcd.c:231 | the mask of bit k is exactly 1 << k, the value OR-ed in at lcd.c:231 and tested at lcd.c:257 |
| Bits.OrMask | main/lcd.c:231 | OR-ing in 1 << k sets bit k and keeps every other bit, so no bit is cleared |
| Bits.BitsDetermineByte | main/lcd.c:231 | a byte is determined by its eight bits (used to show pixels determine the buffer) |
| Raster.ByteIndex | main/lcd.c:231 | the byte written for an on-panel pixel is inside the 1024-byte buffer, and its position modulo 64 is the pixel's column |
| Raster.PixelOfBit | main/lcd.c:231 | every bit k of every byte i is the bit of an on-panel pixel, so the packing covers the buffer |
| Raster.PackingInjective | main/lcd.c:231 | two different on-panel pixels never share a bit |
| Raster.Blank | main/lcd.c:277-281 | every byte of the cleared buffer is zero, as memset leaves it |
| Raster.WithPhysicalPixel | main/lcd.c:225-232 | the buffer after lcd_put_pixel_rotated; Raster.WithPhysicalPixelBytes and Raster.WithPhysicalPixelPixels characterise it |
| Raster.WithPhysicalPixelBytes | main/lcd.c:225-232 | an off-panel write changes nothing; an on-panel write ORs bit py % 8 into byte (py / 8) * 64 + px, leaves every other byte and every other bit unchanged, and never clears a bit |
| Raster.WithPhysicalPixelPixels | main/lcd.c:225-232 | after a physical write, a pixel is on iff it was on before or it is the pixel written |
| Raster.PhysicalPixelsDetermineFrame | main/lcd.c:231 | two buffers that agree on every physical pixel are equal |
| Raster.Rotate | main/lcd.c:234-236 | logical (x, y) goes to physical (63 - y, x), and Unrotate takes it back |
| Raster.RotationBijective | main/lcd.c:234-236 | a logical pixel is on screen iff its physical image is on the panel; Rotate and Unrotate are inverse in both directions |
| Raster.WithPixel | main/lcd.c:234-236 | the buffer after lcd_put_pixel, the physical write at Rotate(x, y); Raster.WithPixelPixels characterises it |
| Raster.WithPixelPixels | main/lcd.c:234-236 | lcd_put_pixel with an off-screen (x, y) changes nothing; otherwise exactly logical pixel (x, y) is turned on |
| Raster.PixelsDetermineFrame | main/lcd.c:234-236 | two buffers that agree on every logical pixel are equal |
| Raster.BlankThenPixel | main/lcd.c:234-236 | a cleared buffer shows no pixel, and one put_pixel then shows exactly that pixel |
| Raster.WithColumnRows | main/lcd.c:256-260 | the buffer after the inner loop has handled rows 0..rows-1 of one column byte; Raster.WithColumnRowsPixels characterises it |
| Raster.WithGlyphColumns | main/lcd.c:252-261 | the buffer after the outer loop has handled columns 0..cols-1 of the glyph; Raster.WithGlyphColumnsPixels characterises it |
| Raster.WithChar | main/lcd.c:238-262 | the buffer after lcd_draw_char, all five columns of GlyphOf(c); Raster.WithCharPixels characterises it |
| Raster.WithColumnRowsPixels | main/lcd.c:256-260 | the inner loop turns on pixel (x, y + row) exactly for the rows 0..rows-1 whose bit is set in the column byte, and nothing else |
| Raster.WithGlyphColumnsPixels | main/lcd.c:252-261 | the outer loop turns on (x + col, y + row) exactly for the set bits of columns 0..cols-1 of the glyph, rows 0..6 |
| Raster.WithCharPixels | main/lcd.c:238-262 | after lcd_draw_char, an on-screen pixel is on iff it was on before or the glyph of c, placed at (x, y), has that pixel set |
| Raster.WithCharSubstitutes | main/lcd.c:243-246 | drawing a non-printable character draws exactly what drawing '?' draws |
| Raster.WithCharOffScreen | main/lcd.c:225-262 | a character whose 5x7 box lies wholly off screen leaves the buffer unchanged (clipping) |
| Raster.GlyphAtOrigin | main/lcd.c:234-262 | a character drawn at (0, 0) into a clear buffer lights physical (px, py) iff py < 5, px >= 57 and row 63 - px of glyph column py is set |
| Raster.GlyphOfT | main/lcd.c:137-138 | the glyph of 'T' is 0x01, 0x01, 0x7F, 0x01, 0x01 |
| Raster.InksT | main/lcd.c:137-138 | the glyph of 'T' inks exactly its top bar (row 0, columns 0..4) and its stem (column 2, rows 0..6) |
| Raster.GlyphTAtOrigin | main/lcd.c:238-262 | 'T' drawn at (0, 0) into a clear buffer shows exactly its bar and its stem in logical coordinates |
| Raster.GlyphTOnPanel | main/lcd.c:225-262 | the same 'T' occupies panel column 63, rows 0..4, and panel row 2, columns 57..63 |
| Raster.WithText | main/lcd.c:264-275 | the buffer after the loop of lcd_draw_string has drawn s, character i at x + 6 * i; Raster.WithTextPixels characterises it |
| Raster.WithTextSnoc | main/lcd.c:270-273 | one more loop iteration draws the next character 6 * (characters so far) pixels right of x |
| Raster.WithTextAppend | main/lcd.c:264-275 | drawing s + t equals drawing s, then t starting 6 * the length of s pixels further right |
| Raster.WithTextShortStrings | main/lcd.c:264-275 | "" draws nothing, a one-character string draws that character, and a second character lands 6 pixels right of the first |
| Raster.TextInksLast | main/lcd.c:270-273 | the ink of a string is the ink of all but its last character plus the ink of the last |
| Raster.WithTextPixels | main/lcd.c:264-275 | after lcd_draw_string, an on-screen pixel is on iff it was on before or some character s[i] drawn at (x + 6 * i, y) inks it |
| Raster.CStringLength | main/lcd.c:270 | the loop stops at the first NUL, inside the memory |
| Raster.CString | main/lcd.c:270-271 | the characters drawn are exactly the memory before the first NUL, and none of them is NUL |
| Lcd.LcdDevice.constructor | main/lcd.c:288 | the zero-filled device structure: no buffer, size 0 |
| Lcd.LcdDevice.InitBuffer | main/lcd.c:375-384 | the buffer is fresh, 64 * 128 / 8 = 1024 bytes, and all zero |
| Lcd.LcdDevice.ClearBuffer | main/lcd.c:277-281 | with a buffer, every byte is zero afterwards; without one, nothing changes |
| Lcd.LcdDevice.PutPixelRotated | main/lcd.c:225-232 | the buffer becomes WithPhysicalPixel of its old contents; without a buffer, nothing changes |
| Lcd.LcdDevice.PutPixel | main/lcd.c:234-236 | the buffer becomes WithPixel of its old contents; without a buffer, nothing changes |
| Lcd.LcdDevice.DrawChar | main/lcd.c:238-262 | the buffer becomes WithChar(old, c, x, y), drawn with the substituted glyph; without a buffer, nothing changes |
| Lcd.LcdDevice.DrawGlyph | main/lcd.c:251-261 | the two nested loops leave WithGlyphColumns of the old buffer, through loop invariants over columns and rows |
| Lcd.LcdDevice.DrawString | main/lcd.c:264-275 | with a buffer and a string, the buffer becomes WithText(old, the characters before the NUL, x, y); with NULL or no buffer, nothing changes |

## Left out

- Panel bring-up in `lcd_init` (`main/lcd.c:294-372`): the I2C bus, panel IO, the SH1107 driver, reset, init, display-on and colour inversion. These are foreign calls into ESP-IDF. The model starts from the zero-filled device structure and models only the buffer allocation and clearing.
- `lcd_init` failure paths: a failed structure allocation returns NULL (`main/lcd.c:289-292`); a failed buffer allocation calls `lcd_deinit`, then returns NULL (`main/lcd.c:377-381`). Allocation is assumed to succeed.
- `lcd_deinit`, `lcd_update` and `lcd_get_buffer` (`main/lcd.c:390-429`): freeing memory, sending the buffer to the panel, and exposing the raw pointer. These are I/O and memory management. The buffer is a public field of `LcdDevice` instead.
- Logging through `ESP_LOGI` and `ESP_LOGE`.
- `main/main.c`, the application that calls the driver.
- `lcd_draw_test_pattern`: declared in `lcd.h` but not defined in `lcd.c`.
- `Lcd.LcdDevice.DrawChar`: the two drawing loops of `lcd_draw_char` sit in a separate method, `DrawGlyph`, which receives the font row that `lcd_draw_char` reads. Together the two methods do what the one C function does.
- `Lcd.LcdDevice.DrawString`: the string is modelled as the memory `str` points to. That is an `Option` whose `None` stands for NULL, and it must contain a NUL. An unterminated string, which the C code would read past, is excluded by the precondition.
- Integers are unbounded. `char` becomes `int`, so its signedness does not matter: every code outside ' '..'~' draws '?'. Four `int` expressions on coordinates can overflow in C and do not in the model:
  - `ROTATED_LCD_H_RES - y - 1` in `lcd_put_pixel` (`main/lcd.c:235`), whose first subtraction overflows for y below `INT_MIN + 65`;
  - `x + col` (`main/lcd.c:258`), for x above `INT_MAX - 4`;
  - `y + row` (`main/lcd.c:258`), for y above `INT_MAX - 6`;
  - `currentX += FONT_WIDTH + 1` (`main/lcd.c:273`), once x is within 6 times the string's length of `INT_MAX`.
  In the model each of these values lies far outside 0..127 or 0..63, so the pixel is clipped and nothing is drawn. A C build that wraps instead lands on large negative values, which are clipped the same way, unless a string is hundreds of millions of characters long.
- Concurrency: the driver has no locking, and the model assumes one caller at a time.
