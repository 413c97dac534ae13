/**
 * What the converters do to text: they realise the UTF-8 / UTF-16 correspondence on
 * well-formed input, and come back to the very same bytes exactly on the byte strings
 * described by `Generalized`.
 */
module Utf8RoundTrips {
  import opened Transcoding
  import opened Utf8Grammar

  predicate StartsHigh(b: seq<Byte>) { |b| >= 2 && HighBytes(b[0], b[1]) }

  predicate StartsLow(b: seq<Byte>) { |b| >= 2 && LowBytes(b[0], b[1]) }

  /** The grammar with three-byte surrogates let in, except where two of them would form a pair. */
  predicate Generalized(b: seq<Byte>) {
    || b == []
    || (var n := CharLength(b, true);
        n > 0 && Generalized(b[n..]) && !(StartsHigh(b) && StartsLow(b[n..])))
  }

  // ---------------------------------------------------------------- one character

  lemma FourChar(a: Byte, b: Byte, c: Byte, d: Byte, v: CodePoint)
    requires IsFour(a, b, c, d) && v == Value4(a, b, c, d)
    ensures 0x10000 <= v <= 0x10FFFF && IsHigh(HighOf(v)) && IsLow(LowOf(v))
    ensures PairBytes(HighOf(v), LowOf(v)) == [a, b, c, d]
  {
    FourEncodes(a, b, c, d, v);
    hide Value4, IsFour, HighOf, LowOf, PairValue, PairBytes, IsHigh, IsLow;
    PairOfScalar(v);
    PairBytesOf(HighOf(v), LowOf(v), v);
  }

  lemma PairBytesOf(hi: CodeUnit, lo: CodeUnit, v: CodePoint)
    requires IsHigh(hi) && IsLow(lo) && PairValue(hi, lo) == v && v <= 0x10FFFF
    ensures PairBytes(hi, lo) == [(0xF0 | (v >> 18)) as Byte, (0x80 | ((v >> 12) & 0x3F)) as Byte,
                                  (0x80 | ((v >> 6) & 0x3F)) as Byte, (0x80 | (v & 0x3F)) as Byte]
  {
    hide PairValue;
  }

  /** The scalar of a character fits, and its UTF-16 form has two units for four bytes only. */
  lemma CharValue(b: seq<Byte>, v: CodePoint)
    requires CharLength(b, true) > 0 && v == FirstScalar(b, CharLength(b, true))
    ensures v <= 0x10FFFF && (v >= 0x10000 <==> CharLength(b, true) == 4)
  {
    hide Value2, Value3, Value4, IsTwo, IsThree, IsFour;
    var n := CharLength(b, true);
    if n == 2 { TwoRange(b[0], b[1], v); }
    if n == 3 { ThreeRange(b[0], b[1], b[2], v); }
    if n == 4 { FourEncodes(b[0], b[1], b[2], b[3], v); }
  }

  /** The decoder turns one character into the UTF-16 form of its scalar value. */
  lemma CharDecodes(b: seq<Byte>, v: CodePoint)
    requires CharLength(b, true) > 0 && v == FirstScalar(b, CharLength(b, true))
    ensures v <= 0x10FFFF && DecodeOne(b) == (Utf16Form(v), CharLength(b, true))
  {
    hide Payload2, Payload3, Payload4, Value2, Value3, Value4, IsTwo, IsThree, IsFour;
    hide SequenceLength, EncodeUtf16, HighOf, LowOf, Narrow;
    var n := CharLength(b, true);
    CharValue(b, v);
    Utf16FormIsEncoded(v);
    if n == 1 { AsciiUnit(b[0], v); }
    if n == 2 { TwoDecodes(b[0], b[1]); }
    if n == 3 { ThreeDecodes(b[0], b[1], b[2]); }
    if n == 4 { FourDecodes(b[0], b[1], b[2], b[3]); }
  }

  lemma AsciiUnit(a: Byte, v: CodePoint)
    requires a <= 0x7F && v == a as CodePoint
    ensures v <= 0x7FF && UnitBytes(Narrow(v)) == [a] && Narrow(v) == a as CodeUnit && a != 0xED
  {
  }

  /** A character of at most three bytes is one unit, whose bytes it is. */
  lemma CharUnit(b: seq<Byte>, n: nat, v: CodePoint)
    requires n == CharLength(b, true) && 1 <= n <= 3 && v == FirstScalar(b, n) && v <= 0xFFFF
    ensures UnitBytes(Narrow(v)) == b[..n]
    ensures (IsHigh(Narrow(v)) <==> StartsHigh(b)) && (IsLow(Narrow(v)) <==> StartsLow(b))
  {
    hide UnitBytes, Narrow, Value2, Value3, IsTwo, IsThree, IsFour, IsHigh, IsLow;
    NarrowKeepsRange(v);
    if n == 1 {
      AsciiUnit(b[0], v);
      assert b[..1] == [b[0]];
    } else if n == 2 {
      TwoRange(b[0], b[1], v);
      TwoEncodes(b[0], b[1], v);
      assert b[..2] == [b[0], b[1]];
    } else {
      ThreeRange(b[0], b[1], b[2], v);
      ThreeEncodes(b[0], b[1], b[2], v);
      assert b[..3] == [b[0], b[1], b[2]];
    }
  }

  /** A character of four bytes is the pair of units whose bytes it is. */
  lemma CharPair(b: seq<Byte>, v: CodePoint)
    requires CharLength(b, true) == 4 && v == FirstScalar(b, 4)
    ensures 0x10000 <= v <= 0x10FFFF && IsHigh(HighOf(v)) && IsLow(LowOf(v))
    ensures PairBytes(HighOf(v), LowOf(v)) == b[..4]
    ensures !StartsHigh(b) && !StartsLow(b)
  {
    FourIsNotThree(b);
    hide HighOf, LowOf, PairBytes, Value4, IsTwo, IsThree, IsHigh, IsLow, StartsHigh, StartsLow;
    FourChar(b[0], b[1], b[2], b[3], v);
    assert b[..4] == [b[0], b[1], b[2], b[3]];
  }

  lemma FourIsNotThree(b: seq<Byte>)
    requires CharLength(b, true) == 4
    ensures IsFour(b[0], b[1], b[2], b[3]) && !StartsHigh(b) && !StartsLow(b)
  {
    hide IsTwo, IsThree;
  }

  /** The encoder turns that form back into the character, unless it starts a pair with what follows. */
  lemma CharEncodes(b: seq<Byte>, v: CodePoint, rest: seq<CodeUnit>)
    requires CharLength(b, true) > 0 && v == FirstScalar(b, CharLength(b, true)) && v <= 0x10FFFF
    requires StartsHigh(b) ==> rest == [] || !IsLow(rest[0])
    ensures EncodeOne(Utf16Form(v) + rest) == (b[..CharLength(b, true)], |Utf16Form(v)|)
  {
    hide PairBytes, UnitBytes, Narrow, HighOf, LowOf, IsHigh, IsLow, CharLength, FirstScalar, StartsHigh, StartsLow;
    CharValue(b, v);
    var n := CharLength(b, true);
    var u := Utf16Form(v) + rest;
    if n == 4 {
      CharPair(b, v);
      assert u[0] == HighOf(v) && u[1] == LowOf(v);
    } else {
      CharUnit(b, n, v);
      assert u[0] == Narrow(v) && (|u| > 1 ==> u[1] == rest[0]);
    }
  }

  /** Decoded text starts with a low surrogate only where the bytes do. */
  lemma DecodedHead(b: seq<Byte>, v: CodePoint)
    requires b != [] && CharLength(b, true) > 0 && v == FirstScalar(b, CharLength(b, true))
    ensures Decode(b) != [] && (IsLow(Decode(b)[0]) <==> StartsLow(b))
  {
    hide DecodeOne, Narrow, HighOf, LowOf, IsHigh, IsLow, CharLength, FirstScalar, StartsHigh, StartsLow;
    CharDecodes(b, v);
    CharValue(b, v);
    if v >= 0x10000 {
      CharPair(b, v);
      HighIsNotLow(HighOf(v));
      assert Decode(b)[0] == HighOf(v);
    } else {
      CharUnit(b, CharLength(b, true), v);
      assert Decode(b)[0] == Narrow(v);
    }
  }

  lemma HighIsNotLow(c: CodeUnit)
    requires IsHigh(c)
    ensures !IsLow(c)
  {
  }

  // ---------------------------------------------------------------- bytes back to bytes

  lemma {:induction false} GeneralizedComesBack(b: seq<Byte>)
    requires Generalized(b)
    ensures Encode(Decode(b)) == b
  {
    hide DecodeOne, EncodeOne, StartsHigh, StartsLow, FirstScalar, CharLength, IsLow;
    if b != [] {
      var n := CharLength(b, true);
      var v := FirstScalar(b, n);
      var rest := Decode(b[n..]);
      if b[n..] != [] { DecodedHead(b[n..], FirstScalar(b[n..], CharLength(b[n..], true))); }
      CharDecodes(b, v);
      CharEncodes(b, v, rest);
      GeneralizedComesBack(b[n..]);
      assert (Utf16Form(v) + rest)[|Utf16Form(v)|..] == rest;
      assert b == b[..n] + b[n..];
    }
  }

  // ---------------------------------------------------------------- what the encoder writes

  lemma UnitChar1(c: CodeUnit)
    requires c <= 0x7F
    ensures UnitBytes(c) == [c as Byte] && c as Byte <= 0x7F && c as Byte != 0xED && !IsHigh(c) && !IsLow(c)
  {
  }

  lemma UnitChar2(c: CodeUnit)
    requires 0x7F < c <= 0x7FF
    ensures var a, b := (0xC0 | (c >> 6)) as Byte, (0x80 | (c & 0x3F)) as Byte;
            UnitBytes(c) == [a, b] && IsTwo(a, b) && a > 0x7F && a != 0xED && !IsHigh(c) && !IsLow(c)
  {
  }

  lemma UnitChar3(c: CodeUnit, lax: bool)
    requires c > 0x7FF && (IsHigh(c) || IsLow(c) ==> lax)
    ensures var p := UnitBytes(c);
            && |p| == 3 && p[0] > 0x7F && !IsTwo(p[0], p[1]) && IsThree(p[0], p[1], p[2], lax)
            && (HighBytes(p[0], p[1]) <==> IsHigh(c)) && (LowBytes(p[0], p[1]) <==> IsLow(c))
  {
  }

  /** The bytes of a lone unit are one character, a strict one unless the unit is a surrogate. */
  lemma UnitChar(c: CodeUnit, lax: bool, rest: seq<Byte>)
    requires IsHigh(c) || IsLow(c) ==> lax
    ensures var b := UnitBytes(c) + rest;
            && CharLength(b, lax) == |UnitBytes(c)|
            && (StartsHigh(b) <==> IsHigh(c)) && (StartsLow(b) <==> IsLow(c))
  {
    var p := UnitBytes(c);
    var b := p + rest;
    assert forall k | 0 <= k < |p| :: b[k] == p[k];
    if c <= 0x7F { UnitChar1(c); }
    else if c <= 0x7FF { UnitChar2(c); }
    else { UnitChar3(c, lax); }
    hide UnitBytes, IsHigh, IsLow, IsTwo, IsThree, IsFour;
  }

  lemma PairLead(cp: CodePoint)
    requires 0x10000 <= cp <= 0x10FFFF
    ensures IsFour((0xF0 | (cp >> 18)) as Byte, (0x80 | ((cp >> 12) & 0x3F)) as Byte,
                   (0x80 | ((cp >> 6) & 0x3F)) as Byte, (0x80 | (cp & 0x3F)) as Byte)
    ensures (0xF0 | (cp >> 18)) as Byte >= 0xF0
  {
  }

  lemma OnlyFour(b: seq<Byte>, lax: bool)
    requires |b| >= 4 && b[0] >= 0xF0 && IsFour(b[0], b[1], b[2], b[3])
    ensures CharLength(b, lax) == 4 && !StartsHigh(b) && !StartsLow(b)
  {
    hide IsFour;
  }

  lemma PairChar(hi: CodeUnit, lo: CodeUnit, lax: bool, rest: seq<Byte>)
    requires IsHigh(hi) && IsLow(lo)
    ensures var b := PairBytes(hi, lo) + rest;
            CharLength(b, lax) == 4 && !StartsHigh(b) && !StartsLow(b)
  {
    PairCodePoint(hi, lo);
    var cp := PairValue(hi, lo);
    PairBytesOf(hi, lo, cp);
    PairLead(cp);
    var b := PairBytes(hi, lo) + rest;
    hide PairBytes, PairValue, IsHigh, IsLow, IsFour;
    assert forall k | 0 <= k < 4 :: b[k] == PairBytes(hi, lo)[k];
    OnlyFour(b, lax);
  }

  lemma EncodedHead(u: seq<CodeUnit>)
    requires u != []
    ensures StartsLow(Encode(u)) ==> IsLow(u[0])
  {
    hide PairBytes, UnitBytes, IsHigh, IsLow, StartsLow;
    var (bytes, n) := EncodeOne(u);
    if n == 2 { PairChar(u[0], u[1], true, Encode(u[2..])); }
    else { UnitChar(u[0], true, Encode(u[1..])); }
  }

  /** Whatever the units, the encoder writes a generalized byte string. */
  lemma {:induction false} EncodedIsGeneralized(u: seq<CodeUnit>)
    ensures Generalized(Encode(u))
  {
    hide PairBytes, UnitBytes, IsHigh, IsLow, StartsHigh, StartsLow, CharLength;
    if u != [] {
      var (bytes, n) := EncodeOne(u);
      var rest := Encode(u[n..]);
      EncodedIsGeneralized(u[n..]);
      if n == 2 { PairChar(u[0], u[1], true, rest); }
      else { UnitChar(u[0], true, rest); }
      if u[n..] != [] { EncodedHead(u[n..]); } else { assert rest == []; NothingStarts(); }
      assert (bytes + rest)[|bytes|..] == rest;
    }
  }

  lemma NothingStarts()
    ensures !StartsHigh([]) && !StartsLow([])
  {
  }

  /** Bytes survive decoding and re-encoding exactly when they are generalized UTF-8. */
  lemma BytesRoundTripExactlyWhen(b: seq<Byte>)
    ensures Encode(Decode(b)) == b <==> Generalized(b)
  {
    EncodedIsGeneralized(Decode(b));
    if Generalized(b) { GeneralizedComesBack(b); }
  }

  /** A strict character is a lax one of the same length, and no surrogate. */
  lemma StrictIsLax(b: seq<Byte>)
    requires CharLength(b, false) > 0
    ensures CharLength(b, true) == CharLength(b, false) && !StartsHigh(b) && !StartsLow(b)
  {
  }

  lemma {:induction false} WellFormedIsGeneralized(b: seq<Byte>)
    requires WellFormed(b)
    ensures Generalized(b)
  {
    hide CharLength, StartsHigh, StartsLow;
    if b != [] {
      StrictIsLax(b);
      WellFormedIsGeneralized(b[CharLength(b, false)..]);
    }
  }

  lemma {:induction false} ScalarsFit(b: seq<Byte>)
    requires WellFormed(b)
    ensures forall k | 0 <= k < |Scalars(b)| :: IsScalar(Scalars(b)[k])
  {
    hide CharLength, FirstScalar, IsScalar;
    if b != [] {
      var n := CharLength(b, false);
      StrictValue(b, FirstScalar(b, n));
      ScalarsFit(b[n..]);
    }
  }

  lemma StrictValue(b: seq<Byte>, v: CodePoint)
    requires CharLength(b, false) > 0 && v == FirstScalar(b, CharLength(b, false))
    ensures IsScalar(v)
  {
    hide CharLength, FirstScalar, StartsHigh, StartsLow, IsHigh, IsLow, Narrow, UnitBytes;
    StrictIsLax(b);
    CharValue(b, v);
    if v <= 0xFFFF {
      CharUnit(b, CharLength(b, true), v);
      NarrowKeepsRange(v);
    }
  }

  /** Utf8ToU16String maps well-formed UTF-8 to the UTF-16 form of the same scalar values. */
  lemma {:induction false} WellFormedDecodes(b: seq<Byte>)
    requires WellFormed(b)
    ensures forall k | 0 <= k < |Scalars(b)| :: Scalars(b)[k] <= 0x10FFFF
    ensures Decode(b) == Utf16Forms(Scalars(b))
  {
    hide CharLength, FirstScalar, IsScalar, Utf16Form, DecodeOne, StartsHigh, StartsLow;
    ScalarsFit(b);
    ScalarsAreSmall(Scalars(b));
    if b != [] {
      var n := CharLength(b, false);
      var v := FirstScalar(b, n);
      StrictIsLax(b);
      CharDecodes(b, v);
      WellFormedDecodes(b[n..]);
      assert Scalars(b)[1..] == Scalars(b[n..]);
    }
  }

  lemma ScalarsAreSmall(vs: seq<CodePoint>)
    requires forall k | 0 <= k < |vs| :: IsScalar(vs[k])
    ensures forall k | 0 <= k < |vs| :: vs[k] <= 0x10FFFF
  {
  }

  /** ... and U16StringToUtf8 brings the original bytes back. */
  lemma WellFormedRoundTrip(b: seq<Byte>)
    requires WellFormed(b)
    ensures Encode(Decode(b)) == b
  {
    WellFormedIsGeneralized(b);
    GeneralizedComesBack(b);
  }

  // ---------------------------------------------------------------- scalars to bytes and back

  /** On a character, the masks of the decoder compute the scalar value of the grammar. */
  lemma MasksComputeScalar(b: seq<Byte>, lax: bool)
    requires CharLength(b, lax) > 0
    ensures DecodeSequence(b, CharLength(b, lax)) == FirstScalar(b, CharLength(b, lax))
  {
    hide Payload2, Payload3, Payload4, Value2, Value3, Value4, IsTwo, IsFour, IsTail;
    var n := CharLength(b, lax);
    if n == 2 { TwoDecodes(b[0], b[1]); }
    if n == 3 { LaxThree(b[0], b[1], b[2], lax); ThreeDecodes(b[0], b[1], b[2]); }
    if n == 4 { FourDecodes(b[0], b[1], b[2], b[3]); }
  }

  lemma LaxThree(a: Byte, b: Byte, c: Byte, lax: bool)
    requires IsThree(a, b, c, lax)
    ensures IsThree(a, b, c, true)
  {
  }

  lemma NarrowScalar(v: CodePoint)
    requires IsScalar(v) && v <= 0xFFFF
    ensures Narrow(v) as CodePoint == v && !IsHigh(Narrow(v)) && !IsLow(Narrow(v))
  {
  }

  lemma NarrowScalarEncodes(v: CodePoint, rest: seq<Byte>)
    requires IsScalar(v) && v <= 0xFFFF
    ensures var p := UnitBytes(Narrow(v));
            CharLength(p + rest, false) == |p| && FirstScalar(p + rest, |p|) == v
  {
    hide UnitBytes, Narrow, IsHigh, IsLow, FirstScalar, CharLength, DecodeSequence, IsScalar;
    NarrowScalar(v);
    var p := UnitBytes(Narrow(v));
    UnitChar(Narrow(v), false, rest);
    UnitBits(Narrow(v));
    DecodeSequenceIsLocal(p, rest, |p|);
    MasksComputeScalar(p + rest, false);
  }

  lemma WideScalarEncodes(v: CodePoint, rest: seq<Byte>)
    requires 0x10000 <= v <= 0x10FFFF
    ensures IsHigh(HighOf(v)) && IsLow(LowOf(v))
    ensures var p := PairBytes(HighOf(v), LowOf(v));
            CharLength(p + rest, false) == 4 && FirstScalar(p + rest, 4) == v
  {
    hide PairBytes, PairValue, HighOf, LowOf, IsHigh, IsLow, FirstScalar, CharLength, Payload4;
    PairOfScalar(v);
    var p := PairBytes(HighOf(v), LowOf(v));
    PairChar(HighOf(v), LowOf(v), false, rest);
    PairBits(HighOf(v), LowOf(v));
    DecodeSequenceIsLocal(p, rest, 4);
    MasksComputeScalar(p + rest, false);
  }

  lemma FormEncodes(v: CodePoint, units: seq<CodeUnit>)
    requires IsScalar(v) && v <= 0x10FFFF
    ensures var u := Utf16Form(v) + units;
            && u != [] && u[EncodeOne(u).1..] == units
            && CharLength(Encode(u), false) == |EncodeOne(u).0|
            && FirstScalar(Encode(u), CharLength(Encode(u), false)) == v
  {
    hide PairBytes, UnitBytes, Narrow, HighOf, LowOf, IsHigh, IsLow, FirstScalar, CharLength, IsScalar;
    var u := Utf16Form(v) + units;
    if v >= 0x10000 {
      WideScalarEncodes(v, Encode(units));
      assert u[0] == HighOf(v) && u[1] == LowOf(v) && u[2..] == units;
    } else {
      NarrowScalar(v);
      NarrowScalarEncodes(v, Encode(units));
      assert u[0] == Narrow(v) && u[1..] == units;
    }
  }

  /** Every scalar sequence is encoded to well-formed UTF-8 that denotes it: the correspondence is onto. */
  lemma {:induction false} ScalarsRoundTrip(vs: seq<CodePoint>)
    requires forall k | 0 <= k < |vs| :: IsScalar(vs[k]) && vs[k] <= 0x10FFFF
    ensures WellFormed(Encode(Utf16Forms(vs))) && Scalars(Encode(Utf16Forms(vs))) == vs
  {
    hide EncodeOne, Utf16Form, FirstScalar, CharLength, IsScalar;
    if vs != [] {
      var units := Utf16Forms(vs[1..]);
      var u := Utf16Form(vs[0]) + units;
      FormEncodes(vs[0], units);
      ScalarsRoundTrip(vs[1..]);
      var n := |EncodeOne(u).0|;
      assert Encode(u)[n..] == Encode(units);
      assert vs == [vs[0]] + vs[1..];
    }
  }
}
