/** The text and the glyph metrics table that the layout loop reads. */
module Font {

  /** One byte of the C string, as stored in memory. */
  type Byte = b: int | 0 <= b < 256

  /** The byte of '\n', the only character the layout loop treats specially. */
  const Newline: Byte := 10

  /** The value of `(int)c` for a `char` c holding byte `b`, with `char` signed as on x86
      (two's complement): bytes 0x80..0xFF become negative table indices. */
  function CharCode(b: Byte): (c: int)
    ensures -128 <= c < 128
    ensures (c - b) % 256 == 0
    ensures c == b <==> b < 128
  {
    if b < 128 then b else b - 256
  }

  /** One row of the font table: the glyph's rectangle in the atlas
      (cx, cy, w, h), its bearing from the pen (xoffset, yoffset) and how far
      the pen moves after it (xadvance), all in atlas pixels. */
  datatype Metric = Metric(cx: int, cy: int, w: int, h: int,
                           xoffset: int, yoffset: int, xadvance: int)

  /** The byte `b` may be looked up in `font` without leaving the table. */
  predicate InTable(font: seq<Metric>, b: Byte)
  {
    0 <= CharCode(b) < |font|
  }

  /** Every character of `text` the loop looks up indexes inside `font`;
      newlines are never looked up. */
  predicate Covers(font: seq<Metric>, text: seq<Byte>)
  {
    forall b :: b in text && b != Newline ==> InTable(font, b)
  }

  /** The metric row for byte `b`, indexed by its signed character code. */
  function Lookup(font: seq<Metric>, b: Byte): Metric
    requires InTable(font, b)
  {
    font[CharCode(b)]
  }

  /** `strlen`: the index of the first NUL byte of a NUL-terminated buffer. */
  function Strlen(buf: seq<Byte>): (n: nat)
    requires 0 in buf
    ensures n < |buf| && buf[n] == 0
    ensures forall k :: 0 <= k < n ==> buf[k] != 0
  {
    if buf[0] == 0 then 0 else 1 + Strlen(buf[1..])
  }

  /** The characters of a C string: the buffer up to, not including, its terminator. */
  function CString(buf: seq<Byte>): (text: seq<Byte>)
    requires 0 in buf
    ensures 0 !in text
    ensures |text| < |buf| && buf[|text|] == 0 && text == buf[..|text|]
  {
    buf[..Strlen(buf)]
  }
}
