/**
 * The reference the converters are measured against: the character grammar of
 * section 4 of RFC 3629, the scalar values of its section 3, and the UTF-16 form of
 * section 2.1 of RFC 2781, written with ranges and arithmetic rather than masks.
 */
module Utf8Grammar {
  import opened Transcoding
  import opened Wrappers

  predicate IsTail(x: Byte) { 0x80 <= x <= 0xBF }

  predicate IsTwo(a: Byte, b: Byte) { 0xC2 <= a <= 0xDF && IsTail(b) }

  /** UTF8-3; with `lax` the surrogates that section 3 forbids are let through. */
  predicate IsThree(a: Byte, b: Byte, c: Byte, lax: bool) {
    && (|| (a == 0xE0 && 0xA0 <= b <= 0xBF)
        || (0xE1 <= a <= 0xEC && IsTail(b))
        || (a == 0xED && 0x80 <= b <= if lax then 0xBF else 0x9F)
        || (0xEE <= a <= 0xEF && IsTail(b)))
    && IsTail(c)
  }

  predicate IsFour(a: Byte, b: Byte, c: Byte, d: Byte) {
    && (|| (a == 0xF0 && 0x90 <= b <= 0xBF)
        || (0xF1 <= a <= 0xF3 && IsTail(b))
        || (a == 0xF4 && 0x80 <= b <= 0x8F))
    && IsTail(c) && IsTail(d)
  }

  /** Length of the character `b` starts with, 0 when it starts with none. */
  function CharLength(b: seq<Byte>, lax: bool): (n: nat)
    ensures n <= 4 && n <= |b|
  {
    if |b| >= 1 && b[0] <= 0x7F then 1
    else if |b| >= 2 && IsTwo(b[0], b[1]) then 2
    else if |b| >= 3 && IsThree(b[0], b[1], b[2], lax) then 3
    else if |b| >= 4 && IsFour(b[0], b[1], b[2], b[3]) then 4
    else 0
  }

  predicate WellFormed(b: seq<Byte>) {
    b == [] || (CharLength(b, false) > 0 && WellFormed(b[CharLength(b, false)..]))
  }

  function Value2(a: Byte, b: Byte): CodePoint {
    (a as CodePoint - 0xC0) * 0x40 + (b as CodePoint - 0x80)
  }

  function Value3(a: Byte, b: Byte, c: Byte): CodePoint {
    Sum3(Less(a, 0xE0), Less(b, 0x80), Less(c, 0x80))
  }

  function Value4(a: Byte, b: Byte, c: Byte, d: Byte): CodePoint {
    Sum4(Less(a, 0xF0), Less(b, 0x80), Less(c, 0x80), Less(d, 0x80))
  }

  function Less(a: Byte, base: CodePoint): CodePoint { a as CodePoint - base }

  function Sum3(x: CodePoint, y: CodePoint, z: CodePoint): CodePoint {
    x * 0x1000 + y * 0x40 + z
  }

  function Sum4(w: CodePoint, x: CodePoint, y: CodePoint, z: CodePoint): CodePoint {
    w * 0x40000 + x * 0x1000 + y * 0x40 + z
  }

  /** The scalar value of the first character. */
  function FirstScalar(b: seq<Byte>, n: nat): CodePoint
    requires 1 <= n <= 4 && n <= |b|
  {
    if n == 1 then b[0] as CodePoint
    else if n == 2 then Value2(b[0], b[1])
    else if n == 3 then Value3(b[0], b[1], b[2])
    else Value4(b[0], b[1], b[2], b[3])
  }

  function Scalars(b: seq<Byte>): seq<CodePoint>
    requires WellFormed(b)
  {
    if b == [] then [] else
      var n := CharLength(b, false);
      [FirstScalar(b, n)] + Scalars(b[n..])
  }

  predicate IsScalar(v: CodePoint) { v <= 0x10FFFF && !(0xD800 <= v <= 0xDFFF) }

  /** The UTF-16 form of one code point, as section 2.1 of RFC 2781 computes it. */
  function Utf16Form(v: CodePoint): (r: seq<CodeUnit>)
    requires v <= 0x10FFFF
    ensures 1 <= |r| <= 2
  {
    if v < 0x10000 then [Narrow(v)]
    else [HighOf(v), LowOf(v)]
  }

  function HighOf(v: CodePoint): CodeUnit
    requires 0x10000 <= v <= 0x10FFFF
  {
    HighUnit(UpperTen(v - 0x10000))
  }

  function LowOf(v: CodePoint): CodeUnit
    requires 0x10000 <= v <= 0x10FFFF
  {
    LowUnit(LowerTen(v - 0x10000))
  }

  function UpperTen(w: CodePoint): (h: CodePoint)
    requires w <= 0xFFFFF
    ensures h <= 0x3FF
  {
    w / 0x400
  }

  function LowerTen(w: CodePoint): (l: CodePoint)
    ensures l <= 0x3FF
  {
    w % 0x400
  }

  function Utf16Forms(vs: seq<CodePoint>): seq<CodeUnit>
    requires forall k | 0 <= k < |vs| :: vs[k] <= 0x10FFFF
  {
    if vs == [] then [] else
      Utf16Form(vs[0]) + Utf16Forms(vs[1..])
  }

  // ---------------------------------------------------------------- the bits of one character

  lemma TailPayload(b: Byte)
    requires IsTail(b)
    ensures Low6(b) == Less(b, 0x80) < 0x40
  {
  }

  lemma LeadPayload3(a: Byte)
    requires 0xE0 <= a <= 0xEF
    ensures Low4(a) == Less(a, 0xE0) < 0x10
    ensures SequenceLength(a) == 3
  {
  }

  lemma LeadPayload4(a: Byte)
    requires 0xF0 <= a <= 0xF4
    ensures Low3(a) == Less(a, 0xF0) < 0x8
    ensures SequenceLength(a) == 4
  {
  }

  lemma Join3(x: CodePoint, y: CodePoint, z: CodePoint)
    requires x < 0x10 && y < 0x40 && z < 0x40
    ensures Groups3(x, y, z) == Sum3(x, y, z)
  {
  }

  lemma Join4(w: CodePoint, x: CodePoint, y: CodePoint, z: CodePoint)
    requires w < 0x8 && x < 0x40 && y < 0x40 && z < 0x40
    ensures Groups4(w, x, y, z) == Sum4(w, x, y, z)
  {
  }

  lemma TwoDecodes(a: Byte, b: Byte)
    requires IsTwo(a, b)
    ensures a > 0x7F && SequenceLength(a) == 2 && Payload2(a, b) == Value2(a, b)
  {
  }

  lemma TwoRange(a: Byte, b: Byte, v: CodePoint)
    requires IsTwo(a, b) && v == Value2(a, b)
    ensures 0x80 <= v <= 0x7FF && a != 0xED
  {
  }

  lemma TwoEncodes(a: Byte, b: Byte, v: CodePoint)
    requires IsTwo(a, b) && v == Value2(a, b) && 0x80 <= v <= 0x7FF
    ensures UnitBytes(Narrow(v)) == [a, b]
  {
  }

  lemma ThreeDecodes(a: Byte, b: Byte, c: Byte)
    requires IsThree(a, b, c, true)
    ensures a > 0x7F && SequenceLength(a) == 3 && Payload3(a, b, c) == Value3(a, b, c)
  {
    hide Low4, Low6, Groups3, Sum3, Less, SequenceLength;
    LeadPayload3(a);
    TailPayload(b);
    TailPayload(c);
    Join3(Less(a, 0xE0), Less(b, 0x80), Less(c, 0x80));
  }

  lemma ThreeRange(a: Byte, b: Byte, c: Byte, v: CodePoint)
    requires IsThree(a, b, c, true) && v == Value3(a, b, c)
    ensures 0x800 <= v <= 0xFFFF
    ensures 0xD800 <= v <= 0xDBFF <==> HighBytes(a, b)
    ensures 0xDC00 <= v <= 0xDFFF <==> LowBytes(a, b)
  {
  }

  predicate HighBytes(a: Byte, b: Byte) { a == 0xED && 0xA0 <= b <= 0xAF }

  predicate LowBytes(a: Byte, b: Byte) { a == 0xED && 0xB0 <= b <= 0xBF }

  lemma ThreeBytes(a: Byte, b: Byte, c: Byte, v: CodePoint, u: CodeUnit)
    requires IsThree(a, b, c, true) && v == Value3(a, b, c) && 0x800 <= v <= 0xFFFF && u == Narrow(v)
    ensures u >= 0x800 && (0xE0 | (u >> 12)) as Byte == a
    ensures (0x80 | ((u >> 6) & 0x3F)) as Byte == b && (0x80 | (u & 0x3F)) as Byte == c
  {
  }

  lemma LargeUnit(a: Byte, b: Byte, c: Byte, u: CodeUnit)
    requires u >= 0x800 && (0xE0 | (u >> 12)) as Byte == a
    requires (0x80 | ((u >> 6) & 0x3F)) as Byte == b && (0x80 | (u & 0x3F)) as Byte == c
    ensures UnitBytes(u) == [a, b, c]
  {
  }

  lemma ThreeEncodes(a: Byte, b: Byte, c: Byte, v: CodePoint)
    requires IsThree(a, b, c, true) && v == Value3(a, b, c) && 0x800 <= v <= 0xFFFF
    ensures UnitBytes(Narrow(v)) == [a, b, c]
  {
    hide Narrow, Value3, IsThree, UnitBytes;
    var u := Narrow(v);
    ThreeBytes(a, b, c, v, u);
    LargeUnit(a, b, c, u);
  }

  lemma NarrowKeepsRange(v: CodePoint)
    requires v <= 0xFFFF
    ensures IsHigh(Narrow(v)) <==> 0xD800 <= v <= 0xDBFF
    ensures IsLow(Narrow(v)) <==> 0xDC00 <= v <= 0xDFFF
  {
  }

  lemma FourDecodes(a: Byte, b: Byte, c: Byte, d: Byte)
    requires IsFour(a, b, c, d)
    ensures a > 0x7F && SequenceLength(a) == 4 && Payload4(a, b, c, d) == Value4(a, b, c, d)
  {
    hide Low3, Low6, Groups4, Sum4, Less, SequenceLength;
    LeadPayload4(a);
    TailPayload(b);
    TailPayload(c);
    TailPayload(d);
    Join4(Less(a, 0xF0), Less(b, 0x80), Less(c, 0x80), Less(d, 0x80));
  }

  lemma FourEncodes(a: Byte, b: Byte, c: Byte, d: Byte, v: CodePoint)
    requires IsFour(a, b, c, d) && v == Value4(a, b, c, d)
    ensures 0x10000 <= v <= 0x10FFFF
    ensures (0xF0 | (v >> 18)) as Byte == a && (0x80 | ((v >> 12) & 0x3F)) as Byte == b
    ensures (0x80 | ((v >> 6) & 0x3F)) as Byte == c && (0x80 | (v & 0x3F)) as Byte == d
  {
  }

  lemma HalvesOfScalar(w: CodePoint)
    requires w <= 0xFFFFF
    ensures UpperTen(w) == w >> 10 && LowerTen(w) == w & 0x3FF
  {
  }

  lemma GlueHalves(w: CodePoint)
    requires w <= 0xFFFFF && w >> 10 <= 0x3FF && w & 0x3FF <= 0x3FF
    ensures IsHigh(HighUnit(w >> 10)) && IsLow(LowUnit(w & 0x3FF))
    ensures PairValue(HighUnit(w >> 10), LowUnit(w & 0x3FF)) == 0x10000 + w
  {
  }

  lemma HalvesOfForm(v: CodePoint)
    requires 0x10000 <= v <= 0x10FFFF
    ensures var w := v - 0x10000;
            && w <= 0xFFFFF && w >> 10 <= 0x3FF && w & 0x3FF <= 0x3FF
            && HighOf(v) == HighUnit(w >> 10) && LowOf(v) == LowUnit(w & 0x3FF)
  {
    hide HighUnit, LowUnit, UpperTen, LowerTen;
    HalvesOfScalar(v - 0x10000);
  }

  // The same with the offset as a variable, which spares the solver a subtraction.
  lemma PairOfOffset(v: CodePoint, w: CodePoint)
    requires w <= 0xFFFFF && v == 0x10000 + w && 0x10000 <= v <= 0x10FFFF
    ensures IsHigh(HighOf(v)) && IsLow(LowOf(v)) && PairValue(HighOf(v), LowOf(v)) == v
  {
    hide HighUnit, LowUnit, PairValue, UpperTen, LowerTen, IsHigh, IsLow;
    HalvesOfScalar(w);
    assert v - 0x10000 == w;
    GlueHalves(w);
  }

  lemma PairOfScalar(v: CodePoint)
    requires 0x10000 <= v <= 0x10FFFF
    ensures IsHigh(HighOf(v)) && IsLow(LowOf(v)) && PairValue(HighOf(v), LowOf(v)) == v
  {
    hide HighOf, LowOf, PairValue, IsHigh, IsLow;
    PairOfOffset(v, v - 0x10000);
  }

  lemma Utf16FormIsEncoded(v: CodePoint)
    requires v <= 0x10FFFF
    ensures EncodeUtf16(v) == Some(Utf16Form(v))
  {
    hide HighUnit, LowUnit, HighOf, LowOf;
    if v >= 0x10000 { HalvesOfForm(v); }
  }
}
