/** One glyph's textured quad: its screen and atlas corners and the six
    vertices (two triangles) that are packed into the vertex buffer. */
module Quad {
  import opened Font

  /** Screen scale: atlas glyphs are drawn at half size (16px atlas, 12pt text). */
  const Rat: real := 0.5

  /** Side of the square atlas texture in pixels. */
  const AtlasPixels: int := 512

  /** The atlas side as the divisor of the texture coordinates. */
  const AtlasSize: real := AtlasPixels as real

  /** Each vertex is `{x, y, u, v}`, tightly packed. */
  const FloatsPerVertex: nat := 4

  /** Two triangles per glyph. */
  const VerticesPerQuad: nat := 6

  /** One buffer slot: six vertices of four floats. */
  const FloatsPerQuad: nat := 24

  /** Screen corners (x1, y1) and (x2, y2) and texture corners (x3, y3) and (x4, y4)
      of one glyph; x1/x3, x2/x4, y1/y3 and y2/y4 belong together. */
  datatype Corners = Corners(x1: real, y1: real, x2: real, y2: real,
                             x3: real, y3: real, x4: real, y4: real)

  /** A vertex as the vertex shader receives it: position and texture coordinate. */
  datatype Vertex = Vertex(x: real, y: real, u: real, v: real)

  /** The corners of glyph `m` drawn with the pen at (x, y), before the pen advances.
      The right edge x2 is taken from the pen and the width alone; unlike x1 it
      does not add `xoffset`. */
  function GlyphCorners(m: Metric, x: real, y: real): Corners
  {
    Corners(Rat * (x + m.xoffset as real),
            Rat * (y + m.yoffset as real + m.h as real),
            Rat * (x + m.w as real),
            Rat * (y + m.yoffset as real),
            m.cx as real / AtlasSize,
            (m.cy + m.h) as real / AtlasSize,
            (m.cx + m.w) as real / AtlasSize,
            m.cy as real / AtlasSize)
  }

  /** The two triangles of a quad, in buffer order:
      (x1,y1) (x2,y1) (x2,y2), then (x1,y1) (x2,y2) (x1,y2). */
  function Vertices(c: Corners): seq<Vertex>
  {
    [Vertex(c.x1, c.y1, c.x3, c.y3),
     Vertex(c.x2, c.y1, c.x4, c.y3),
     Vertex(c.x2, c.y2, c.x4, c.y4),
     Vertex(c.x1, c.y1, c.x3, c.y3),
     Vertex(c.x2, c.y2, c.x4, c.y4),
     Vertex(c.x1, c.y2, c.x3, c.y4)]
  }

  /** Vertex `k` of a float buffer as the attribute pointer reads it:
      four consecutive floats, no stride padding. */
  function VertexAt(buf: seq<real>, k: nat): Vertex
    requires FloatsPerVertex * k + FloatsPerVertex <= |buf|
  {
    Vertex(buf[FloatsPerVertex * k], buf[FloatsPerVertex * k + 1], buf[FloatsPerVertex * k + 2], buf[FloatsPerVertex * k + 3])
  }

  /** Packs vertices into floats, four per vertex, in order. */
  function Flatten(vs: seq<Vertex>): (r: seq<real>)
    ensures |r| == FloatsPerVertex * |vs|
  {
    if |vs| == 0 then []
    else [vs[0].x, vs[0].y, vs[0].u, vs[0].v] + Flatten(vs[1..])
  }

  /** Reading vertex `k` back out of the packed floats gives `vs[k]`: the
      packing agrees with the attribute layout. */
  lemma {:induction false} FlattenRoundTrip(vs: seq<Vertex>)
    ensures forall k :: 0 <= k < |vs| ==> VertexAt(Flatten(vs), k) == vs[k]
  {
    if |vs| > 0 {
      var r := Flatten(vs);
      FlattenRoundTrip(vs[1..]);
      forall k | 0 <= k < |vs|
        ensures VertexAt(r, k) == vs[k]
      {
        if k > 0 {
          assert VertexAt(r, k) == VertexAt(Flatten(vs[1..]), k - 1);
        }
      }
    }
  }

  /** The 24 floats written for glyph `m` with the pen at (x, y): its six
      vertices of {x, y, u, v}, which the attribute layout reads back in order. */
  function QuadFloats(m: Metric, x: real, y: real): (r: seq<real>)
    ensures |r| == FloatsPerQuad
    ensures forall k :: 0 <= k < VerticesPerQuad ==> VertexAt(r, k) == Vertices(GlyphCorners(m, x, y))[k]
  {
    var vs := Vertices(GlyphCorners(m, x, y));
    FlattenRoundTrip(vs);
    Flatten(vs)
  }

  /** If slot `i` of `s` holds the 24 floats `q`, then vertex `j` of that slot
      is vertex `j` of `q`. */
  lemma SlotVertices(s: seq<real>, i: nat, q: seq<real>)
    requires FloatsPerQuad * i + FloatsPerQuad <= |s| && |q| == FloatsPerQuad
    requires s[FloatsPerQuad * i..FloatsPerQuad * i + FloatsPerQuad] == q
    ensures forall j :: 0 <= j < VerticesPerQuad ==> VertexAt(s, VerticesPerQuad * i + j) == VertexAt(q, j)
  {
    forall j | 0 <= j < VerticesPerQuad
      ensures VertexAt(s, VerticesPerQuad * i + j) == VertexAt(q, j)
    {
      var k := VerticesPerQuad * i + j;
      assert s[FloatsPerVertex * k] == q[FloatsPerVertex * j] && s[FloatsPerVertex * k + 1] == q[FloatsPerVertex * j + 1];
      assert s[FloatsPerVertex * k + 2] == q[FloatsPerVertex * j + 2] && s[FloatsPerVertex * k + 3] == q[FloatsPerVertex * j + 3];
    }
  }

  /** Twice the signed area of triangle (a, b, c); its sign is the winding. */
  function Cross(a: Vertex, b: Vertex, c: Vertex): real
  {
    (b.x - a.x) * (c.y - a.y) - (b.y - a.y) * (c.x - a.x)
  }

  /** Some vertex of `vs` sits at screen point (px, py). */
  predicate HasCorner(vs: seq<Vertex>, px: real, py: real)
  {
    exists k :: 0 <= k < |vs| && vs[k].x == px && vs[k].y == py
  }

  /** The six vertices form two triangles sharing the diagonal (x1,y1)-(x2,y2):
      vertex 0 repeats as vertex 3 and vertex 2 as vertex 4. Each vertex pairs
      x1 with u = x3 or x2 with u = x4, and y1 with v = y3 or y2 with v = y4, so
      every screen corner carries its own atlas corner; all four corners occur. */
  lemma QuadShape(c: Corners)
    ensures |Vertices(c)| == VerticesPerQuad
    ensures Vertices(c)[0] == Vertices(c)[3] && Vertices(c)[2] == Vertices(c)[4]
    ensures forall k :: 0 <= k < |Vertices(c)| ==>
      ((Vertices(c)[k].x, Vertices(c)[k].u) == (c.x1, c.x3) || (Vertices(c)[k].x, Vertices(c)[k].u) == (c.x2, c.x4)) &&
      ((Vertices(c)[k].y, Vertices(c)[k].v) == (c.y1, c.y3) || (Vertices(c)[k].y, Vertices(c)[k].v) == (c.y2, c.y4))
    ensures HasCorner(Vertices(c), c.x1, c.y1) && HasCorner(Vertices(c), c.x2, c.y1)
    ensures HasCorner(Vertices(c), c.x2, c.y2) && HasCorner(Vertices(c), c.x1, c.y2)
  {
    var vs := Vertices(c);
    assert vs[0].x == c.x1 && vs[0].y == c.y1;
    assert vs[1].x == c.x2 && vs[1].y == c.y1;
    assert vs[2].x == c.x2 && vs[2].y == c.y2;
    assert vs[5].x == c.x1 && vs[5].y == c.y2;
  }

  /** Both triangles wind the same way and each covers half of the rectangle
      spanned by (x1,y1) and (x2,y2). */
  lemma SameWinding(c: Corners)
    ensures Cross(Vertices(c)[0], Vertices(c)[1], Vertices(c)[2]) == (c.x2 - c.x1) * (c.y2 - c.y1)
    ensures Cross(Vertices(c)[3], Vertices(c)[4], Vertices(c)[5]) == (c.x2 - c.x1) * (c.y2 - c.y1)
  {
  }

  /** For a glyph the doubled triangle area is -(w - xoffset) * h / 4, so its two
      triangles are degenerate exactly when h == 0 or w == xoffset; the latter is
      a consequence of x2 ignoring xoffset. */
  lemma GlyphTriangleArea(m: Metric, x: real, y: real)
    ensures Cross(Vertices(GlyphCorners(m, x, y))[0], Vertices(GlyphCorners(m, x, y))[1],
                  Vertices(GlyphCorners(m, x, y))[2])
            == -((m.w - m.xoffset) as real * m.h as real) / 4.0
    ensures Cross(Vertices(GlyphCorners(m, x, y))[0], Vertices(GlyphCorners(m, x, y))[1],
                  Vertices(GlyphCorners(m, x, y))[2]) == 0.0
            <==> m.h == 0 || m.w == m.xoffset
  {
  }

  /** The atlas rectangle of `m` lies inside the 512x512 atlas. */
  predicate InAtlas(m: Metric)
  {
    0 <= m.cx && 0 <= m.w && m.cx + m.w <= AtlasPixels &&
    0 <= m.cy && 0 <= m.h && m.cy + m.h <= AtlasPixels
  }

  /** A glyph whose rectangle lies in the atlas gets texture coordinates in [0, 1],
      wherever the pen is. */
  lemma TextureInUnitSquare(m: Metric, x: real, y: real)
    requires InAtlas(m)
    ensures var c := GlyphCorners(m, x, y);
      0.0 <= c.x3 <= 1.0 && 0.0 <= c.x4 <= 1.0 && 0.0 <= c.y3 <= 1.0 && 0.0 <= c.y4 <= 1.0
    ensures forall k :: 0 <= k < VerticesPerQuad ==>
      0.0 <= VertexAt(QuadFloats(m, x, y), k).u <= 1.0 && 0.0 <= VertexAt(QuadFloats(m, x, y), k).v <= 1.0
  {
    var c := GlyphCorners(m, x, y);
    assert 0.0 <= c.x3 <= 1.0 && 0.0 <= c.x4 <= 1.0 && 0.0 <= c.y3 <= 1.0 && 0.0 <= c.y4 <= 1.0;
    QuadShape(c);
    FlattenRoundTrip(Vertices(c));
  }
}
