/** The layout loop of `render_font` as an imperative method over a float
    array, and the sizes it hands to the buffer upload and the draw call. */
module Render {
  import opened Font
  import opened Quad
  import opened Layout

  /** `sizeof(GLfloat)`. */
  const FloatBytes: nat := 4

  /** Position in the buffer of float `j` of slot `i`. */
  function SlotIndex(i: nat, j: nat): nat
  {
    FloatsPerQuad * i + j
  }

  /** Every write of the loop lands inside the `24 * len` buffer, and float `j`
      of slot `i` belongs to slot `i` and no other, so distinct (i, j) never
      write the same float. */
  lemma SlotIndexInBounds(len: nat, i: nat, j: nat)
    requires i < len && j < FloatsPerQuad
    ensures SlotIndex(i, j) < FloatsPerQuad * len
    ensures SlotIndex(i, j) / FloatsPerQuad == i && SlotIndex(i, j) % FloatsPerQuad == j
  {
  }

  /** Bytes uploaded by the buffer-data call for a text of `len` characters. */
  function UploadBytes(len: nat): nat
  {
    FloatBytes * len * FloatsPerQuad
  }

  /** Vertices drawn by the draw call: six per character, newlines included. */
  function DrawCount(len: nat): nat
  {
    VerticesPerQuad * len
  }

  /** The inner copy loop: puts the 24 floats of `q` into slot `i` of `a` and
      touches no other slot. */
  method WriteSlot(a: array<real>, i: nat, q: seq<real>)
    requires |q| == FloatsPerQuad && FloatsPerQuad * i + FloatsPerQuad <= a.Length
    modifies a
    ensures a[..] == Splice(old(a[..]), FloatsPerQuad * i, q)
  {
    var j := 0;
    while j < FloatsPerQuad
      invariant 0 <= j <= FloatsPerQuad
      invariant forall p :: 0 <= p < a.Length ==>
        a[p] == if FloatsPerQuad * i <= p < FloatsPerQuad * i + j then q[p - FloatsPerQuad * i] else old(a[p])
    {
      var p := SlotIndex(i, j);
      SlotIndexInBounds(i + 1, i, j);
      a[p] := q[j];
      j := j + 1;
    }
    ghost var r := Splice(old(a[..]), FloatsPerQuad * i, q);
    assert forall p :: 0 <= p < a.Length ==> a[..][p] == r[p];
  }

  /** One iteration of the layout loop, for character `i` of `text`: a newline
      moves the pen to the next line and writes nothing; any other character
      writes its quad, drawn at the current pen, into slot `i` and advances the
      pen by its `xadvance`. */
  method LayOutChar(a: array<real>, font: seq<Metric>, text: seq<Byte>, pen0: Pen,
                    ghost stale: seq<real>, i: nat, pen: Pen)
    returns (next: Pen)
    requires Covers(font, text) && |stale| == FloatsPerQuad * |text| && i < |text|
    requires pen == PenAt(font, text, pen0, i)
    requires a[..] == Partial(font, text, pen0, stale, i)
    modifies a
    ensures next == PenAt(font, text, pen0, i + 1)
    ensures a[..] == Partial(font, text, pen0, stale, i + 1)
  {
    BufferStep(font, text, pen0, stale, i);
    if text[i] == Newline {
      PartialNewline(font, text, pen0, stale, i);
      next := Pen(0.0, pen.y + LineHeight);
    } else {
      PartialGlyph(font, text, pen0, stale, i);
      var m := Lookup(font, text[i]);
      var q := QuadFloats(m, pen.x, pen.y);
      next := Pen(pen.x + m.xadvance as real, pen.y);
      WriteSlot(a, i, q);
    }
  }

  /** The layout loop over the characters of `text` with the pen starting at
      `pen0`. `stale` is what the uninitialised buffer holds before the loop. */
  method LayOut(font: seq<Metric>, text: seq<Byte>, pen0: Pen, stale: seq<real>)
    returns (xys: seq<real>)
    requires Covers(font, text) && |stale| == FloatsPerQuad * |text|
    ensures xys == Buffer(font, text, pen0, stale)
    ensures forall i :: 0 <= i < |text| ==>
      xys[FloatsPerQuad * i..FloatsPerQuad * i + FloatsPerQuad] == SlotContents(font, text, pen0, stale, i)
  {
    var len := |text|;
    var a := new real[FloatsPerQuad * len](k requires 0 <= k < FloatsPerQuad * len => stale[k]);
    var pen := pen0;
    var i := 0;
    PartialWhole(font, text, pen0, stale);
    while i < len
      invariant 0 <= i <= len
      invariant pen == PenAt(font, text, pen0, i)
      invariant a[..] == Partial(font, text, pen0, stale, i)
    {
      pen := LayOutChar(a, font, text, pen0, stale, i, pen);
      i := i + 1;
    }
    xys := a[..];
    BufferSlots(font, text, pen0, stale);
  }

  /** `render_font` up to the draw: measures the C string in `buf`, lays it out
      from (x, y), and returns the buffer with the number of bytes uploaded and
      the number of vertices drawn. */
  method RenderFont(font: seq<Metric>, buf: seq<Byte>, x: real, y: real, stale: seq<real>)
    returns (xys: seq<real>, bytes: nat, vertexCount: nat)
    requires 0 in buf
    requires Covers(font, CString(buf))
    requires |stale| == FloatsPerQuad * |CString(buf)|
    ensures |xys| == FloatsPerQuad * |CString(buf)|
    ensures xys == Buffer(font, CString(buf), Pen(x, y), stale)
    ensures bytes == FloatBytes * |xys|
    ensures vertexCount == VerticesPerQuad * |CString(buf)|
    ensures FloatsPerVertex * vertexCount == |xys|
  {
    var len := Strlen(buf);
    xys := LayOut(font, buf[..len], Pen(x, y), stale);
    bytes := UploadBytes(len);
    vertexCount := DrawCount(len);
  }

  /** As written, the draw call covers the slot of every newline, and that slot
      still holds whatever the buffer held before: six vertices of stale data
      are drawn per newline, more than the six per glyph the text needs. */
  lemma StaleSlotDrawn(font: seq<Metric>, text: seq<Byte>, pen0: Pen, stale: seq<real>, i: nat)
    requires Covers(font, text) && |stale| == FloatsPerQuad * |text|
    requires i < |text| && text[i] == Newline
    ensures VerticesPerQuad * (i + 1) <= DrawCount(|text|)
    ensures forall k :: VerticesPerQuad * i <= k < VerticesPerQuad * (i + 1) ==>
      VertexAt(Buffer(font, text, pen0, stale), k) == VertexAt(stale, k)
    ensures DrawCount(|text|) > VerticesPerQuad * Glyphs(text)
  {
    var buf := Buffer(font, text, pen0, stale);
    BufferSlots(font, text, pen0, stale);
    assert buf[FloatsPerQuad * i..FloatsPerQuad * i + FloatsPerQuad] == SlotContents(font, text, pen0, stale, i);
    var slot := stale[FloatsPerQuad * i..FloatsPerQuad * i + FloatsPerQuad];
    SlotVertices(buf, i, slot);
    SlotVertices(stale, i, slot);
    forall k | VerticesPerQuad * i <= k < VerticesPerQuad * (i + 1)
      ensures VertexAt(buf, k) == VertexAt(stale, k)
    {
      assert VertexAt(buf, VerticesPerQuad * i + (k - VerticesPerQuad * i)) == VertexAt(slot, k - VerticesPerQuad * i);
    }
    assert Newline in text;
  }

  /** Every vertex of slot `i` of `buf` has its texture coordinate in [0, 1]. */
  predicate SlotTexturesInUnitSquare(buf: seq<real>, i: nat)
    requires FloatsPerQuad * i + FloatsPerQuad <= |buf|
  {
    forall k :: VerticesPerQuad * i <= k < VerticesPerQuad * (i + 1) ==>
      0.0 <= VertexAt(buf, k).u <= 1.0 && 0.0 <= VertexAt(buf, k).v <= 1.0
  }

  /** A written slot of a glyph inside the atlas has all its texture coordinates in [0, 1]. */
  lemma SlotTextures(font: seq<Metric>, text: seq<Byte>, pen0: Pen, stale: seq<real>, i: nat)
    requires Covers(font, text) && |stale| == FloatsPerQuad * |text|
    requires i < |text| && text[i] != Newline && InTable(font, text[i]) && InAtlas(Lookup(font, text[i]))
    requires Buffer(font, text, pen0, stale)[FloatsPerQuad * i..FloatsPerQuad * i + FloatsPerQuad] == SlotContents(font, text, pen0, stale, i)
    ensures SlotTexturesInUnitSquare(Buffer(font, text, pen0, stale), i)
  {
    var buf := Buffer(font, text, pen0, stale);
    var pen := PenAt(font, text, pen0, i);
    var q := QuadFloats(Lookup(font, text[i]), pen.x, pen.y);
    SlotVertices(buf, i, q);
    TextureInUnitSquare(Lookup(font, text[i]), pen.x, pen.y);
    forall k | VerticesPerQuad * i <= k < VerticesPerQuad * (i + 1)
      ensures 0.0 <= VertexAt(buf, k).u <= 1.0 && 0.0 <= VertexAt(buf, k).v <= 1.0
    {
      assert VertexAt(buf, VerticesPerQuad * i + (k - VerticesPerQuad * i)) == VertexAt(q, k - VerticesPerQuad * i);
    }
  }

  /** Every glyph used lies in the atlas: then every vertex of every written
      slot has its texture coordinate in the unit square. */
  lemma BufferTexturesInUnitSquare(font: seq<Metric>, text: seq<Byte>, pen0: Pen, stale: seq<real>)
    requires Covers(font, text) && |stale| == FloatsPerQuad * |text|
    requires forall b :: b in text && b != Newline ==> InTable(font, b) && InAtlas(Lookup(font, b))
    ensures forall i :: 0 <= i < |text| && text[i] != Newline ==>
      SlotTexturesInUnitSquare(Buffer(font, text, pen0, stale), i)
  {
    BufferSlots(font, text, pen0, stale);
    forall i | 0 <= i < |text| && text[i] != Newline
      ensures SlotTexturesInUnitSquare(Buffer(font, text, pen0, stale), i)
    {
      assert text[i] in text;
      SlotTextures(font, text, pen0, stale, i);
    }
  }

  /** The metric of 'A' in the worked example: atlas rectangle (10, 20, 8, 12),
      bearing (1, 2), advance 9. */
  const MetricA: Metric := Metric(10, 20, 8, 12, 1, 2, 9)

  /** "A" from the origin: one slot, six vertices drawn, and the first vertex is
      (0.5, 7.0, 10/512, 32/512). */
  lemma ScenarioSingleGlyph(font: seq<Metric>, stale: seq<real>)
    requires |font| > 65 && font[65] == MetricA && |stale| == FloatsPerQuad
    ensures Covers(font, [65])
    ensures VertexAt(Buffer(font, [65], Pen(0.0, 0.0), stale), 0) == Vertex(0.5, 7.0, 0.01953125, 0.0625)
    ensures FloatsPerVertex * DrawCount(1) == |Buffer(font, [65], Pen(0.0, 0.0), stale)|
    ensures |Compact(font, [65], Pen(0.0, 0.0))| == FloatsPerQuad
  {
  }

  /** "A\nB" from the origin: 'B' is drawn with the pen back at x = 0, one line
      height down, and the newline's slot is left as it was. */
  lemma ScenarioNewline(font: seq<Metric>, stale: seq<real>)
    requires |font| > 66 && font[65] == MetricA && |stale| == 3 * FloatsPerQuad
    ensures Covers(font, [65, 10, 66])
    ensures PenAt(font, [65, 10, 66], Pen(0.0, 0.0), 2) == Pen(0.0, 38.0)
    ensures Buffer(font, [65, 10, 66], Pen(0.0, 0.0), stale)[2 * FloatsPerQuad..3 * FloatsPerQuad] == QuadFloats(font[66], 0.0, 38.0)
    ensures Buffer(font, [65, 10, 66], Pen(0.0, 0.0), stale)[FloatsPerQuad..2 * FloatsPerQuad] == stale[FloatsPerQuad..2 * FloatsPerQuad]
  {
    var text: seq<Byte> := [65, 10, 66];
    assert text[..2] == [65, 10] && text[..2][..1] == [65] && text[..1] == [65];
    assert [65, 10][..1] == [65] && [65][..0] == [];
    assert PenAfter(font, text[..2], Pen(0.0, 0.0)) == Pen(0.0, 38.0);
    BufferSlots(font, text, Pen(0.0, 0.0), stale);
    assert Buffer(font, text, Pen(0.0, 0.0), stale)[FloatsPerQuad * 2..FloatsPerQuad * 2 + FloatsPerQuad] == SlotContents(font, text, Pen(0.0, 0.0), stale, 2);
    assert Buffer(font, text, Pen(0.0, 0.0), stale)[FloatsPerQuad * 1..FloatsPerQuad * 1 + FloatsPerQuad] == SlotContents(font, text, Pen(0.0, 0.0), stale, 1);
  }
}
