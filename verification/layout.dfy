/** The pure reference for the layout loop: how the pen walks the text and
    what ends up in each 24-float slot of the vertex buffer. */
module Layout {
  import opened Font
  import opened Quad

  /** Pixels the pen moves down on a newline. */
  const LineHeight: real := 38.0

  /** The layout cursor, in atlas pixels. */
  datatype Pen = Pen(x: real, y: real)

  /** The pen after one character: a newline returns to column 0 on the next
      line, any other character moves right by its advance. */
  function Step(font: seq<Metric>, pen: Pen, b: Byte): Pen
    requires b == Newline || InTable(font, b)
  {
    if b == Newline then Pen(0.0, pen.y + LineHeight)
    else Pen(pen.x + Lookup(font, b).xadvance as real, pen.y)
  }

  /** The pen after walking all of `text` from `pen0`. */
  function PenAfter(font: seq<Metric>, text: seq<Byte>, pen0: Pen): Pen
    requires Covers(font, text)
    decreases |text|
  {
    if |text| == 0 then pen0
    else Step(font, PenAfter(font, text[..|text| - 1], pen0), text[|text| - 1])
  }

  /** The pen at which character `i` is drawn: after the characters before it. */
  function PenAt(font: seq<Metric>, text: seq<Byte>, pen0: Pen, i: nat): Pen
    requires Covers(font, text) && i <= |text|
  {
    PenAfter(font, text[..i], pen0)
  }

  /** Number of newlines in `text`. */
  function Newlines(text: seq<Byte>): nat
  {
    multiset(text)[Newline]
  }

  /** The characters after the last newline of `text` (all of it if it has none). */
  function LastLine(text: seq<Byte>): (line: seq<Byte>)
    ensures |line| <= |text| && line == text[|text| - |line|..]
    ensures Newline !in line
    ensures |line| < |text| ==> text[|text| - |line| - 1] == Newline
  {
    if |text| == 0 then []
    else if text[|text| - 1] == Newline then []
    else
      var line := LastLine(text[..|text| - 1]) + [text[|text| - 1]];
      assert text == text[..|text| - 1] + [text[|text| - 1]];
      line
  }

  /** Sum of the advances of the characters of a line. */
  function Advance(font: seq<Metric>, line: seq<Byte>): real
    requires Newline !in line && Covers(font, line)
  {
    if |line| == 0 then 0.0
    else Lookup(font, line[0]).xadvance as real + Advance(font, line[1..])
  }

  /** Appending a character to a line adds its advance to the line's sum. */
  lemma {:induction false} AdvanceSnoc(font: seq<Metric>, line: seq<Byte>, b: Byte)
    requires Newline !in line + [b] && Covers(font, line + [b])
    ensures Advance(font, line + [b]) == Advance(font, line) + Lookup(font, b).xadvance as real
    decreases |line|
  {
    if |line| == 0 {
      assert (line + [b])[1..] == [];
    } else {
      assert (line + [b])[1..] == line[1..] + [b];
      AdvanceSnoc(font, line[1..], b);
    }
  }

  /** The pen's row: after any prefix of the text, y has moved down one line
      height per newline in it. */
  lemma {:induction false} PenRow(font: seq<Metric>, text: seq<Byte>, pen0: Pen)
    requires Covers(font, text)
    ensures PenAfter(font, text, pen0).y == pen0.y + LineHeight * Newlines(text) as real
    decreases |text|
  {
    if |text| > 0 {
      var n := |text| - 1;
      assert text == text[..n] + [text[n]];
      assert multiset(text) == multiset(text[..n]) + multiset{text[n]};
      PenRow(font, text[..n], pen0);
    }
  }

  /** The pen's column: x is the sum of the advances since the last newline,
      counted from 0 after a newline and from the initial x when there was none. */
  lemma {:induction false} PenColumn(font: seq<Metric>, text: seq<Byte>, pen0: Pen)
    requires Covers(font, text)
    ensures PenAfter(font, text, pen0).x
            == (if Newline in text then 0.0 else pen0.x) + Advance(font, LastLine(text))
    decreases |text|
  {
    if |text| > 0 {
      var n := |text| - 1;
      var init, b := text[..n], text[n];
      assert text == init + [b];
      PenColumn(font, init, pen0);
      if b != Newline {
        assert LastLine(text) == LastLine(init) + [b];
        AdvanceSnoc(font, LastLine(init), b);
        assert Newline in text <==> Newline in init;
      }
    }
  }

  /** Within one line the pen stays on the same row and moves right by exactly
      the advances of the characters it passes. */
  lemma {:induction false} PenWithinLine(font: seq<Metric>, text: seq<Byte>, line: seq<Byte>, pen0: Pen)
    requires Covers(font, text + line) && Newline !in line
    ensures Covers(font, text) && Covers(font, line)
    ensures PenAfter(font, text + line, pen0).y == PenAfter(font, text, pen0).y
    ensures PenAfter(font, text + line, pen0).x == PenAfter(font, text, pen0).x + Advance(font, line)
    decreases |line|
  {
    if |line| == 0 {
      assert text + line == text;
    } else {
      var n := |line| - 1;
      assert (text + line)[..|text| + n] == text + line[..n];
      assert line == line[..n] + [line[n]];
      assert line[n] in line;
      PenWithinLine(font, text, line[..n], pen0);
      AdvanceSnoc(font, line[..n], line[n]);
    }
  }

  /** With non-negative advances the pen never moves left within a line. */
  lemma PenMonotoneWithinLine(font: seq<Metric>, text: seq<Byte>, line: seq<Byte>, pen0: Pen)
    requires Covers(font, text + line) && Newline !in line
    requires forall b :: b in line ==> Lookup(font, b).xadvance >= 0
    ensures PenAfter(font, text + line, pen0).x >= PenAfter(font, text, pen0).x
  {
    PenWithinLine(font, text, line, pen0);
    AdvanceNonNegative(font, line);
  }

  /** A line of characters with non-negative advances has a non-negative sum. */
  lemma {:induction false} AdvanceNonNegative(font: seq<Metric>, line: seq<Byte>)
    requires Newline !in line && Covers(font, line)
    requires forall b :: b in line ==> Lookup(font, b).xadvance >= 0
    ensures Advance(font, line) >= 0.0
    decreases |line|
  {
    if |line| > 0 {
      AdvanceNonNegative(font, line[1..]);
    }
  }

  /** The vertex buffer as the loop leaves it. `stale` is what the buffer held
      before the loop (it is never initialised); slot `i`, floats 24*i up to
      24*i + 24, gets the quad of character `i`, and the slot of a newline keeps
      its stale contents. */
  function Buffer(font: seq<Metric>, text: seq<Byte>, pen0: Pen, stale: seq<real>): (buf: seq<real>)
    requires Covers(font, text) && |stale| == FloatsPerQuad * |text|
    ensures |buf| == FloatsPerQuad * |text|
    decreases |text|
  {
    if |text| == 0 then []
    else
      var n := |text| - 1;
      Buffer(font, text[..n], pen0, stale[..FloatsPerQuad * n]) +
        (if text[n] == Newline then stale[FloatsPerQuad * n..]
         else QuadFloats(Lookup(font, text[n]), PenAt(font, text, pen0, n).x, PenAt(font, text, pen0, n).y))
  }

  /** What slot `i` of the buffer holds: the quad of character `i` drawn at the
      pen before it, or for a newline the stale floats, untouched. */
  function SlotContents(font: seq<Metric>, text: seq<Byte>, pen0: Pen, stale: seq<real>, i: nat): seq<real>
    requires Covers(font, text) && |stale| == FloatsPerQuad * |text| && i < |text|
  {
    if text[i] == Newline then stale[FloatsPerQuad * i..FloatsPerQuad * i + FloatsPerQuad]
    else QuadFloats(Lookup(font, text[i]), PenAt(font, text, pen0, i).x, PenAt(font, text, pen0, i).y)
  }

  /** Slot by slot, the buffer holds each character's quad at the pen position
      before that character, and leaves the slots of newlines as they were. */
  lemma {:induction false} BufferSlots(font: seq<Metric>, text: seq<Byte>, pen0: Pen, stale: seq<real>)
    requires Covers(font, text) && |stale| == FloatsPerQuad * |text|
    ensures forall i :: 0 <= i < |text| ==>
      Buffer(font, text, pen0, stale)[FloatsPerQuad * i..FloatsPerQuad * i + FloatsPerQuad] == SlotContents(font, text, pen0, stale, i)
    decreases |text|
  {
    if |text| > 0 {
      var n := |text| - 1;
      var buf := Buffer(font, text, pen0, stale);
      var prev := Buffer(font, text[..n], pen0, stale[..FloatsPerQuad * n]);
      BufferSlots(font, text[..n], pen0, stale[..FloatsPerQuad * n]);
      assert buf[..FloatsPerQuad * n] == prev;
      forall i | 0 <= i < |text|
        ensures buf[FloatsPerQuad * i..FloatsPerQuad * i + FloatsPerQuad] == SlotContents(font, text, pen0, stale, i)
      {
        if i == n {
          assert stale[FloatsPerQuad * n..] == stale[FloatsPerQuad * i..FloatsPerQuad * i + FloatsPerQuad];
        } else {
          assert text[..n][..i] == text[..i];
          assert text[..n][i] == text[i];
          assert buf[FloatsPerQuad * i..FloatsPerQuad * i + FloatsPerQuad] == prev[FloatsPerQuad * i..FloatsPerQuad * i + FloatsPerQuad];
          assert stale[..FloatsPerQuad * n][FloatsPerQuad * i..FloatsPerQuad * i + FloatsPerQuad] == stale[FloatsPerQuad * i..FloatsPerQuad * i + FloatsPerQuad];
          assert SlotContents(font, text[..n], pen0, stale[..FloatsPerQuad * n], i) == SlotContents(font, text, pen0, stale, i);
        }
      }
    }
  }

  /** One more character adds its slot (quad or stale floats) to the buffer,
      and the pen moves by one step. */
  lemma BufferStep(font: seq<Metric>, text: seq<Byte>, pen0: Pen, stale: seq<real>, i: nat)
    requires Covers(font, text) && |stale| == FloatsPerQuad * |text| && i < |text|
    ensures Covers(font, text[..i]) && Covers(font, text[..i + 1])
    ensures Buffer(font, text[..i + 1], pen0, stale[..FloatsPerQuad * (i + 1)])
            == Buffer(font, text[..i], pen0, stale[..FloatsPerQuad * i]) + SlotContents(font, text, pen0, stale, i)
    ensures text[i] == Newline || InTable(font, text[i])
    ensures PenAt(font, text, pen0, i + 1) == Step(font, PenAt(font, text, pen0, i), text[i])
  {
    assert text[..i + 1][..i] == text[..i];
    assert stale[..FloatsPerQuad * (i + 1)][..FloatsPerQuad * i] == stale[..FloatsPerQuad * i];
    assert stale[..FloatsPerQuad * (i + 1)][FloatsPerQuad * i..] == stale[FloatsPerQuad * i..FloatsPerQuad * i + FloatsPerQuad];
    assert text[i] in text;
  }

  /** `s` with the floats from position `p` on replaced by `q`. */
  function Splice(s: seq<real>, p: nat, q: seq<real>): (r: seq<real>)
    requires p + |q| <= |s|
    ensures |r| == |s|
  {
    s[..p] + q + s[p + |q|..]
  }

  /** Overwriting the block just after `b` replaces the front of `rest`. */
  lemma SpliceAfter(b: seq<real>, q: seq<real>, rest: seq<real>)
    requires |q| <= |rest|
    ensures Splice(b + rest, |b|, q) == b + q + rest[|q|..]
  {
    assert (b + rest)[..|b|] == b;
    assert (b + rest)[|b| + |q|..] == rest[|q|..];
  }

  /** Moving one block from the front of a suffix onto the prefix. */
  lemma ShiftBlock(b: seq<real>, s: seq<real>, p: nat, n: nat)
    requires p + n <= |s|
    ensures b + s[p..] == b + s[p..p + n] + s[p + n..]
  {
    assert s[p..] == s[p..p + n] + s[p + n..];
  }

  /** The whole array during the loop: the buffer of the first `i` characters,
      then the stale floats not yet reached. */
  function Partial(font: seq<Metric>, text: seq<Byte>, pen0: Pen, stale: seq<real>, i: nat): (s: seq<real>)
    requires Covers(font, text) && |stale| == FloatsPerQuad * |text| && i <= |text|
    ensures |s| == |stale|
  {
    assert Covers(font, text[..i]);
    Buffer(font, text[..i], pen0, stale[..FloatsPerQuad * i]) + stale[FloatsPerQuad * i..]
  }

  /** A newline at `i` leaves the array as it was: its slot is never written. */
  lemma PartialNewline(font: seq<Metric>, text: seq<Byte>, pen0: Pen, stale: seq<real>, i: nat)
    requires Covers(font, text) && |stale| == FloatsPerQuad * |text| && i < |text|
    requires text[i] == Newline
    ensures Partial(font, text, pen0, stale, i + 1) == Partial(font, text, pen0, stale, i)
  {
    BufferStep(font, text, pen0, stale, i);
    ShiftBlock(Buffer(font, text[..i], pen0, stale[..FloatsPerQuad * i]), stale, FloatsPerQuad * i, FloatsPerQuad);
  }

  /** Any other character at `i` overwrites slot `i`, and only slot `i`, with
      its quad drawn at the pen before it. */
  lemma PartialGlyph(font: seq<Metric>, text: seq<Byte>, pen0: Pen, stale: seq<real>, i: nat)
    requires Covers(font, text) && |stale| == FloatsPerQuad * |text| && i < |text|
    requires text[i] != Newline
    ensures InTable(font, text[i])
    ensures Partial(font, text, pen0, stale, i + 1)
            == Splice(Partial(font, text, pen0, stale, i), FloatsPerQuad * i,
                      QuadFloats(Lookup(font, text[i]), PenAt(font, text, pen0, i).x, PenAt(font, text, pen0, i).y))
  {
    BufferStep(font, text, pen0, stale, i);
    var q := QuadFloats(Lookup(font, text[i]), PenAt(font, text, pen0, i).x, PenAt(font, text, pen0, i).y);
    SpliceAfter(Buffer(font, text[..i], pen0, stale[..FloatsPerQuad * i]), q, stale[FloatsPerQuad * i..]);
    assert stale[FloatsPerQuad * i..][FloatsPerQuad..] == stale[FloatsPerQuad * (i + 1)..];
  }

  /** Once every character is processed, the array is the buffer. */
  lemma PartialWhole(font: seq<Metric>, text: seq<Byte>, pen0: Pen, stale: seq<real>)
    requires Covers(font, text) && |stale| == FloatsPerQuad * |text|
    ensures Partial(font, text, pen0, stale, |text|) == Buffer(font, text, pen0, stale)
    ensures Partial(font, text, pen0, stale, 0) == stale
  {
    assert text[..|text|] == text && stale[..FloatsPerQuad * |text|] == stale;
    assert stale[FloatsPerQuad * |text|..] == [];
    assert text[..0] == [] && stale[..0] == [] && stale[0..] == stale;
  }

  /** Number of characters that get a quad: all but the newlines. */
  function Glyphs(text: seq<Byte>): nat
  {
    |text| - Newlines(text)
  }

  /** The batch the draw evidently intends: the quads of the non-newline characters
      only, one after another, with nothing for a newline. */
  function Compact(font: seq<Metric>, text: seq<Byte>, pen0: Pen): (batch: seq<real>)
    requires Covers(font, text)
    ensures |batch| == FloatsPerQuad * Glyphs(text)
    decreases |text|
  {
    if |text| == 0 then []
    else
      var n := |text| - 1;
      assert text == text[..n] + [text[n]];
      assert multiset(text) == multiset(text[..n]) + multiset{text[n]};
      Compact(font, text[..n], pen0) +
        (if text[n] == Newline then []
         else QuadFloats(Lookup(font, text[n]), PenAt(font, text, pen0, n).x, PenAt(font, text, pen0, n).y))
  }

  /** Drops the 24-float slots of the newlines of `text` from `buf`. */
  function DropNewlineSlots(text: seq<Byte>, buf: seq<real>): (r: seq<real>)
    requires |buf| == FloatsPerQuad * |text|
    decreases |text|
  {
    if |text| == 0 then []
    else
      var n := |text| - 1;
      DropNewlineSlots(text[..n], buf[..FloatsPerQuad * n]) + (if text[n] == Newline then [] else buf[FloatsPerQuad * n..])
  }

  /** The intended batch is exactly the written buffer with the newline slots
      taken out, whatever the stale contents were. */
  lemma {:induction false} CompactIsBufferWithoutNewlines(font: seq<Metric>, text: seq<Byte>, pen0: Pen, stale: seq<real>)
    requires Covers(font, text) && |stale| == FloatsPerQuad * |text|
    ensures Compact(font, text, pen0) == DropNewlineSlots(text, Buffer(font, text, pen0, stale))
    decreases |text|
  {
    if |text| > 0 {
      var n := |text| - 1;
      var buf := Buffer(font, text, pen0, stale);
      assert buf[..FloatsPerQuad * n] == Buffer(font, text[..n], pen0, stale[..FloatsPerQuad * n]);
      CompactIsBufferWithoutNewlines(font, text[..n], pen0, stale[..FloatsPerQuad * n]);
    }
  }
}
