# tx glyph layout, modelled in Dafny

`tx` is a small SDL/OpenGL demo that draws text from a bitmap font atlas.
The only part of it with logic of its own is `render_font`. That function
walks a C string with a pen position `(x, y)`. For every character that is
not a newline, it looks up a seven-int metric row
`{cx, cy, w, h, xoffset, yoffset, xadvance}` in the `source_code_pro` table.
It then computes half-scale screen corners and atlas texture coordinates
(divided by 512), and packs six vertices of `{x, y, u, v}` (two triangles)
into slot `i` of a float buffer of `24 * len` floats. A newline sends the pen
back to `x = 0` and 38 pixels down, and writes nothing. The buffer is then
uploaded whole and `6 * len` vertices are drawn.

This project models that loop and proves what it computes.

- `font.dfy` (module `Font`) covers the text and the table. Text is a
  NUL-terminated byte buffer, cut by `Strlen`. `(int)text[i]` on a signed
  `char` is `CharCode`. The table is a parameter `seq<Metric>`, and
  `Covers` is the condition that every non-newline character indexes
  inside it.
- `quad.dfy` (module `Quad`) covers one glyph. `GlyphCorners` holds its
  screen corners (main.c:156-161) and atlas corners (main.c:165-169), with
  the atlas side `AtlasPixels`. `Vertices` holds the two triangles in
  buffer order (main.c:171-178). `Flatten`/`VertexAt` give the four-float
  vertex layout (main.c:171-178, 194), and `QuadFloats` gives the 24
  floats `xys1` of a slot (main.c:171-178).
- `layout.dfy` (module `Layout`) is the pure reference. `Step` is the pen
  move for one character (main.c:139-142 for a newline, main.c:162
  otherwise), and `PenAfter`/`PenAt` give the pen after a prefix of the
  text. `Buffer` is the whole float
  buffer the loop leaves behind, and `Compact` is the batch without newline
  slots.
- `render.dfy` (module `Render`) is the loop itself. `RenderFont` and
  `LayOut` fill an `array<real>` with the copy loop `WriteSlot`. They are
  proved equal to `Buffer`. The byte count handed to the upload is
  `UploadBytes` (main.c:191), and the vertex count handed to the draw call
  is `DrawCount` (main.c:199).

The buffer `xys` is a stack array that is never initialised. The model
makes its prior contents an explicit parameter, `stale`. That way "the slot
of a newline is never written" is an ordinary postcondition: the slot still
equals `stale` there.

Arithmetic is over `real`. The metrics are small integers, and the only
scalings are by 0.5 and by 1/512. Both are exact in binary floating point
for realistic metric ranges.

Behaviours of the code that the model keeps exactly as written:
- A newline resets the pen's x to `0`, not to the origin's x (main.c:140).
- The buffer and the draw cover `6 * len` vertices, counting newlines, not
  `6 *` the number of glyphs (main.c:137, 191, 199). See Findings.
- The table index `(int)text[i]` (main.c:145) is taken with `char`
  signed, as on x86 and x86-64, so bytes 0x80 to 0xFF give negative
  indices. C leaves the signedness of plain `char` to the implementation;
  see "## Left out" for the unsigned case. The code does not check the
  index at all, so the model requires `Covers`.
- `x2 = 0.5 * (x + w)` leaves out `xoffset`, while `x1` includes it
  (main.c:158-160). This is kept literally. `GlyphTriangleArea` shows the
  consequence: a glyph's quad degenerates exactly when `h == 0` or
  `w == xoffset`.

## Model

| member | source | states |
|---|---|---|
| `Font.CharCode` | main.c:145 | The index `(int)text[i]` gives when `char` is signed (as on x86): it lies in [-128, 128), it is congruent to the byte modulo 256, and it equals the byte exactly when the byte is below 128. |
| `Font.Strlen` | main.c:136 | `strlen`: the result indexes a NUL byte, and no byte before it is NUL. |
| `Font.CString` | main.c:136 | The characters the loop walks are the buffer's prefix before its first NUL. They contain no NUL, and the terminator follows them. |
| `Quad.FlattenRoundTrip` | main.c:171-181 | Reading vertex `k` back from the packed floats, four floats per vertex as the attribute pointer does (main.c:194), gives the `k`-th vertex that was packed. |
| `Quad.Flatten` | main.c:171-181 | Packing vertices gives four floats per vertex, so the six vertices of a glyph fill exactly one 24-float slot. |
| `Quad.QuadFloats` | main.c:171-178 | The `xys1` literal of a glyph: 24 floats, and reading them four at a time gives back the six vertices of `Vertices(GlyphCorners(...))` in order. |
| `Quad.QuadShape` | main.c:171-178 | The six vertices are two triangles sharing the diagonal: vertex 0 equals vertex 3 and vertex 2 equals vertex 4. Every vertex pairs screen x1 with u = x3 or x2 with u = x4, and y1 with v = y3 or y2 with v = y4. All four rectangle corners occur. |
| `Quad.SameWinding` | main.c:171-178 | Both triangles have the same signed area, half the rectangle spanned by (x1,y1) and (x2,y2), so they wind the same way. |
| `Quad.GlyphTriangleArea` | main.c:156-161 | For a glyph, the doubled triangle area is -(w - xoffset) * h / 4. The quad degenerates exactly when h = 0 or w = xoffset, which follows from x2 leaving out xoffset. |
| `Quad.TextureInUnitSquare` | main.c:165-169 | If 0 ≤ cx, 0 ≤ w, cx + w ≤ 512, 0 ≤ cy, 0 ≤ h and cy + h ≤ 512, then x3, y3, x4, y4 and the u, v of all six packed vertices lie in [0, 1], wherever the pen is. |
| `Quad.SlotVertices` | main.c:179-181 | When slot `i` of a buffer holds a quad's 24 floats, vertex `6*i + j` of the buffer is vertex `j` of the quad. |
| `Layout.LastLine` | main.c:139-142 | The characters after the last newline: a newline-free suffix of the text, preceded by a newline whenever it is not the whole text. |
| `Layout.PenRow` | main.c:139-142 | After any prefix, the pen's y is the initial y plus 38 times the number of newlines in the prefix. |
| `Layout.PenColumn` | main.c:139-162 | After any prefix, the pen's x is the sum of the advances since the last newline. It starts from 0 if the prefix has a newline and from the initial x otherwise. |
| `Layout.PenWithinLine` | main.c:162 | Across a newline-free stretch, y does not change and x grows by exactly the sum of the stretch's `xadvance`s. |
| `Layout.PenMonotoneWithinLine` | main.c:162 | With non-negative advances, the pen never moves left within a line. |
| `Layout.Buffer` | main.c:137-181 | The buffer the loop leaves behind has `24 * len` floats, one slot per character. `BufferSlots` gives the contents of each slot. |
| `Layout.BufferStep` | main.c:138-162 | Character `i` appends its slot to the buffer of the characters before it. The pen after it is one step from the pen before it: a newline gives (0, y + 38), any other character gives (x + xadvance, y). |
| `Layout.BufferSlots` | main.c:138-181 | Slot `i` of the buffer holds the quad of character `i`, drawn at the pen before that character. For a newline, the slot holds the floats that were there before. |
| `Layout.PartialNewline` | main.c:139-142 | Processing a newline changes nothing in the array. |
| `Layout.PartialGlyph` | main.c:145-181 | Processing any other character overwrites slot `i`, and only slot `i`, with that character's quad at the current pen. |
| `Layout.Compact` | main.c:191 | The batch the draw evidently intends: 24 floats for each non-newline character and none for a newline (corrected member, see Findings). |
| `Layout.CompactIsBufferWithoutNewlines` | main.c:137-181 | The intended batch is the loop's buffer with the newline slots removed, whatever the stale contents were. |
| `Render.SlotIndexInBounds` | main.c:179-181 | The write index `i*24 + j` with `i < len` and `j < 24` is inside the `24*len` buffer, and it determines `i` and `j`, so two iterations never write the same float. |
| `Render.WriteSlot` | main.c:179-181 | The inner copy loop replaces floats `24*i` to `24*i + 24` with the quad and leaves every other float as it was. |
| `Render.LayOutChar` | main.c:139-181 | One iteration of the loop keeps the pen equal to `PenAt` and the array equal to the reference buffer for the processed prefix, followed by untouched stale floats. |
| `Render.LayOut` | main.c:137-182 | The loop over a `24*len` array leaves exactly `Buffer`: each slot holds its character's quad at the pen before it, and newline slots are unwritten. |
| `Render.RenderFont` | main.c:135-199 | The buffer of the string in `buf` equals `Buffer`. The upload is 4 bytes per float. The draw covers `6*len` vertices, which is the buffer's float count divided by 4. |
| `Render.StaleSlotDrawn` | main.c:199 | As written, the draw range covers the slot of every newline. Those six vertices are the stale floats, and more vertices are drawn than 6 per glyph (as-written member, see Findings). |
| `Render.BufferTexturesInUnitSquare` | main.c:165-181 | If every glyph used lies in the atlas, every vertex of every written slot has its texture coordinate in [0, 1]. |
| `Render.ScenarioSingleGlyph` | main.c:145-178 | "A" from (0, 0), with A = {10, 20, 8, 12, 1, 2, 9}: the first vertex is (0.5, 7.0, 10/512, 32/512), the draw covers exactly the buffer (6 vertices of 4 floats), and the corrected batch is one quad. |
| `Render.ScenarioNewline` | main.c:139-162 | "A\nB" from (0, 0): 'B' is drawn with the pen at (0, 38), and the newline's slot keeps its stale floats. |

## Left out

- SDL window, GL context, event loop and process exit (main.c:22-27, 208-263): I/O and process lifecycle.
- File reading and image loading (main.c:29-46, 85-94): foreign I/O calls.
- Shader compilation, linking and status checking, and creation and deletion of the VAO, VBO and program (main.c:48-133): opaque GL calls.
- The GL calls in `render_font` (main.c:184-205): program use, uniforms, binds, blend state, the draw and the unbinds. Only the byte count of the upload (main.c:191) and the vertex count of the draw (main.c:199) are modelled, by `UploadBytes` and `DrawCount`. The rest are foreign calls with no logic, so the restoring of GL state after the draw is not modelled.
- `HMM_Orthographic` (main.c:185): its library source is not part of this model.
- The contents of the `source_code_pro` table: its header, source_code_pro.h, is not part of this model. The table is a parameter, and `Covers` plus `InAtlas` state what the proofs need of it.
- IEEE single-precision rounding: all arithmetic is over `real`. This is exact for the 0.5 and 1/512 scalings at realistic metric sizes.
- The stack contents of the uninitialised buffer: these are the parameter `stale`, and nothing is assumed about them.
- Font.CharCode: fixes plain `char` as signed (x86, x86-64). On targets where it is unsigned (ARM, AArch64, PowerPC Linux), `(int)text[i]` is the byte itself, 0..255, and bytes from 0x80 up would be looked up in a 256-row table. Under the signed reading `Covers` holds for no text containing such a byte, so the model describes only texts of bytes below 0x80 there.
- Render.RenderFont: gives the empty string a defined result (an empty buffer, 0 bytes, 0 vertices). In ISO C the buffer `GLfloat xys[len * 24]` (main.c:137) is then a variable-length array of size 0, which is undefined behaviour (section 6.7.6.2 of C11). The model also puts no bound on `len`. The real buffer takes 96 bytes of stack per character, so about 87,000 characters overflow a default 8 MiB stack, and `6 * len` is narrowed to `GLsizei` at main.c:199. Both limits are platform resources, not logic of the loop.
- Out-of-range character codes: the code reads outside the table (undefined behaviour), so the model requires `Covers` instead of giving that case a meaning.

## Findings

| source | as written | input that shows it | evidently intended | confidence | as-written member | corrected member |
|---|---|---|---|---|---|---|
| main.c:137-199 | The buffer has one 24-float slot per character, and the draw covers `6 * len` vertices, but a newline's slot is never written (the loop `continue`s). | Text "\n": one slot, never written, yet `glDrawArrays` draws 6 vertices read from uninitialised stack memory. | Draw only the glyph quads: `6 *` (number of non-newline characters) vertices, packed without gaps. | medium, not executed | `Render.StaleSlotDrawn` | `Layout.Compact` |

`Render.RenderFont` keeps the as-written behaviour, because the slot layout
is what the code does. `Layout.Compact` is the corrected batch. Its length
law is its postcondition, and `Layout.CompactIsBufferWithoutNewlines` ties
it to the as-written buffer.
