/**
 * The hand-written UTF-8 / UTF-16 converters of cpp/src/common/string_utils.cpp
 * (the path taken everywhere but on Windows), proved against the grammar of
 * section 4 of RFC 3629 and the surrogate rules of section 2.1 of RFC 2781.
 */
module Transcoding {
  import opened Wrappers

  type Byte = bv8
  type CodeUnit = bv16
  type CodePoint = bv32

  const REPLACEMENT: CodeUnit := 0xFFFD

  // ---------------------------------------------------------------- one step of each converter

  /** GetUtf8SequenceLength: the length announced by a first byte, 0 when it cannot start one. */
  function SequenceLength(first: Byte): (n: nat)
    ensures n <= 4
  {
    if first & 0x80 == 0 then 1
    else if first & 0xE0 == 0xC0 then 2
    else if first & 0xF0 == 0xE0 then 3
    else if first & 0xF8 == 0xF0 then 4
    else 0
  }

  // Payload bits of a sequence of two, three or four bytes; the two top bits of the bytes
  // after the first are never looked at.

  function Low6(b: Byte): CodePoint { (b & 0x3F) as CodePoint }

  function Low4(b: Byte): CodePoint { (b & 0x0F) as CodePoint }

  function Low3(b: Byte): CodePoint { (b & 0x07) as CodePoint }

  function Groups3(x: CodePoint, y: CodePoint, z: CodePoint): CodePoint {
    (x << 12) | (y << 6) | z
  }

  function Groups4(w: CodePoint, x: CodePoint, y: CodePoint, z: CodePoint): CodePoint {
    (w << 18) | (x << 12) | (y << 6) | z
  }

  function Payload2(a: Byte, b: Byte): CodePoint {
    (((a & 0x1F) as CodePoint) << 6) | Low6(b)
  }

  function Payload3(a: Byte, b: Byte, c: Byte): CodePoint {
    Groups3(Low4(a), Low6(b), Low6(c))
  }

  function Payload4(a: Byte, b: Byte, c: Byte, d: Byte): CodePoint {
    Groups4(Low3(a), Low6(b), Low6(c), Low6(d))
  }

  /** DecodeUtf8Sequence, for the lengths it is called with. */
  function DecodeSequence(s: seq<Byte>, length: nat): CodePoint
    requires 1 <= length <= 4 && length <= |s|
  {
    if length == 1 then s[0] as CodePoint
    else if length == 2 then Payload2(s[0], s[1])
    else if length == 3 then Payload3(s[0], s[1], s[2])
    else Payload4(s[0], s[1], s[2], s[3])
  }

  /** EncodeUtf16, whose exception is `None`. */
  function EncodeUtf16(cp: CodePoint): Option<seq<CodeUnit>> {
    if cp <= 0xFFFF then Some([Narrow(cp)])
    else if cp <= 0x10FFFF then
      var v := cp - 0x10000;
      Some([HighUnit(v >> 10), LowUnit(v & 0x3FF)])
    else None
  }

  function Narrow(cp: CodePoint): CodeUnit
    requires cp <= 0xFFFF
  {
    cp as CodeUnit
  }

  function HighUnit(h: CodePoint): CodeUnit
    requires h <= 0x3FF
  {
    (0xD800 + h) as CodeUnit
  }

  function LowUnit(l: CodePoint): CodeUnit
    requires l <= 0x3FF
  {
    (0xDC00 + l) as CodeUnit
  }

  /** Units produced and bytes consumed by one turn of the lenient decoder's loop. */
  function DecodeOne(b: seq<Byte>): (r: (seq<CodeUnit>, nat))
    requires b != []
    ensures 1 <= r.1 <= |b| && 1 <= |r.0| <= r.1
  {
    if b[0] <= 0x7F then ([b[0] as CodeUnit], 1)
    else
      var n := SequenceLength(b[0]);
      if n == 0 || n > |b| then ([REPLACEMENT], 1)
      else
        match EncodeUtf16(DecodeSequence(b, n))
        case Some(units) => DecodedUnitsFit(b, n); (units, n)
        case None => ([REPLACEMENT], n)
  }

  lemma DecodedUnitsFit(b: seq<Byte>, n: nat)
    requires b != [] && b[0] > 0x7F && n == SequenceLength(b[0]) && 1 <= n <= |b|
    ensures n >= 2
  {
    var first := b[0];
    assert first & 0x80 != 0;
  }

  predicate IsHigh(c: CodeUnit) { 0xD800 <= c <= 0xDBFF }

  predicate IsLow(c: CodeUnit) { 0xDC00 <= c <= 0xDFFF }

  function PairValue(hi: CodeUnit, lo: CodeUnit): CodePoint
    requires IsHigh(hi) && IsLow(lo)
  {
    0x10000 + ((((hi - 0xD800) as CodePoint) << 10) | ((lo - 0xDC00) as CodePoint))
  }

  function PairBytes(hi: CodeUnit, lo: CodeUnit): (r: seq<Byte>)
    requires IsHigh(hi) && IsLow(lo)
    ensures |r| == 4
  {
    var cp := PairValue(hi, lo);
    [(0xF0 | (cp >> 18)) as Byte, (0x80 | ((cp >> 12) & 0x3F)) as Byte,
     (0x80 | ((cp >> 6) & 0x3F)) as Byte, (0x80 | (cp & 0x3F)) as Byte]
  }

  /** Bytes of one unit outside a valid pair: a lone surrogate gets three bytes like any other. */
  function UnitBytes(c: CodeUnit): (r: seq<Byte>)
    ensures 1 <= |r| <= 3
  {
    if c <= 0x7F then [c as Byte]
    else if c <= 0x7FF then [(0xC0 | (c >> 6)) as Byte, (0x80 | (c & 0x3F)) as Byte]
    else [(0xE0 | (c >> 12)) as Byte, (0x80 | ((c >> 6) & 0x3F)) as Byte, (0x80 | (c & 0x3F)) as Byte]
  }

  /** Bytes produced and units consumed by one turn of the encoder's loop. */
  function EncodeOne(u: seq<CodeUnit>): (r: (seq<Byte>, nat))
    requires u != []
    ensures 1 <= r.1 <= |u| && 1 <= |r.0| <= 3 * r.1
  {
    if IsHigh(u[0]) && |u| > 1 && IsLow(u[1]) then (PairBytes(u[0], u[1]), 2)
    else (UnitBytes(u[0]), 1)
  }

  // ---------------------------------------------------------------- the whole conversions

  function Decode(b: seq<Byte>): (u: seq<CodeUnit>)
    ensures |u| <= |b|
  {
    if b == [] then [] else
      var (units, n) := DecodeOne(b);
      units + Decode(b[n..])
  }

  function Encode(u: seq<CodeUnit>): (b: seq<Byte>)
    ensures |b| <= 3 * |u|
  {
    if u == [] then [] else
      var (bytes, n) := EncodeOne(u);
      bytes + Encode(u[n..])
  }

  /** Utf8ToUtf16 without its loop; `None` is its exception. */
  function DecodeStrict(b: seq<Byte>): Option<seq<CodeUnit>> {
    if b == [] then Some([]) else
      var n := SequenceLength(b[0]);
      if n == 0 || n > |b| then None
      else
        match EncodeUtf16(DecodeSequence(b, n))
        case None => None
        case Some(units) => Prepend(units, DecodeStrict(b[n..]))
  }

  function Prepend(units: seq<CodeUnit>, rest: Option<seq<CodeUnit>>): Option<seq<CodeUnit>> {
    if rest.None? then None else Some(units + rest.value)
  }

  lemma DecodeStep(b: seq<Byte>, i: nat, before: seq<CodeUnit>)
    requires i < |b|
    ensures var (units, n) := DecodeOne(b[i..]);
            before + Decode(b[i..]) == before + units + Decode(b[i + n..])
  {
    hide DecodeOne;
    var (units, n) := DecodeOne(b[i..]);
    assert b[i..][n..] == b[i + n..];
    assert before + (units + Decode(b[i + n..])) == before + units + Decode(b[i + n..]);
  }

  lemma EncodeStep(u: seq<CodeUnit>, i: nat, before: seq<Byte>)
    requires i < |u|
    ensures var (bytes, n) := EncodeOne(u[i..]);
            before + Encode(u[i..]) == before + bytes + Encode(u[i + n..])
  {
    hide EncodeOne;
    var (bytes, n) := EncodeOne(u[i..]);
    assert u[i..][n..] == u[i + n..];
    assert before + (bytes + Encode(u[i + n..])) == before + bytes + Encode(u[i + n..]);
  }

  lemma Ends(b: seq<Byte>, u: seq<CodeUnit>)
    ensures b[0..] == b && Decode(b[|b|..]) == [] && DecodeStrict(b[|b|..]) == Some([])
    ensures u[0..] == u && Encode(u[|u|..]) == []
  {
  }

  /** Utf8ToU16String.  Its `catch` is never entered: a length it passes on is between 1 and 4. */
  method Utf8ToU16String(utf8: seq<Byte>) returns (result: seq<CodeUnit>)
    ensures result == Decode(utf8)
    ensures |result| <= |utf8|
  {
    hide SequenceLength, DecodeSequence, EncodeUtf16, Decode;
    Ends(utf8, []);
    result := [];
    var i := 0;
    while i < |utf8|
      invariant 0 <= i <= |utf8|
      invariant result + Decode(utf8[i..]) == Decode(utf8)
    {
      DecodeStep(utf8, i, result);
      var rest := utf8[i..];
      if utf8[i] <= 0x7F {
        result := result + [utf8[i] as CodeUnit];
        i := i + 1;
      } else {
        var seqLen := SequenceLength(utf8[i]);
        if seqLen == 0 || i + seqLen > |utf8| {
          result := result + [REPLACEMENT];
          i := i + 1;
        } else {
          var codePoint := DecodeSequence(rest, seqLen);
          match EncodeUtf16(codePoint) {
            case Some(units) => result := result + units;
            case None => result := result + [REPLACEMENT];
          }
          i := i + seqLen;
        }
      }
    }
  }

  /** U16StringToUtf8. */
  method U16StringToUtf8(u16: seq<CodeUnit>) returns (result: seq<Byte>)
    ensures result == Encode(u16)
  {
    hide PairBytes, UnitBytes, Encode;
    Ends([], u16);
    result := [];
    var i := 0;
    while i < |u16|
      invariant 0 <= i <= |u16|
      invariant result + Encode(u16[i..]) == Encode(u16)
    {
      EncodeStep(u16, i, result);
      var c := u16[i];
      if IsHigh(c) && i + 1 < |u16| && IsLow(u16[i + 1]) {
        result := result + PairBytes(c, u16[i + 1]);
        i := i + 1;  // skip the second surrogate
      } else {
        result := result + UnitBytes(c);
      }
      i := i + 1;
    }
  }

  /** WideToUtf8: short units are tested before surrogates, and only `length` units are read. */
  method WideToUtf8(wide: seq<CodeUnit>, length: int) returns (result: seq<Byte>)
    requires length <= |wide|
    ensures result == if length <= 0 then [] else Encode(wide[..length])
    ensures length > 0 ==> |result| <= 3 * length
  {
    hide PairBytes, UnitBytes, Encode;
    if length <= 0 {
      return [];
    }
    result := [];
    var i := 0;
    ghost var u16 := wide[..length];
    Ends([], u16);
    while i < length
      invariant 0 <= i <= length
      invariant result + Encode(u16[i..]) == Encode(u16)
    {
      EncodeStep(u16, i, result);
      var wc := wide[i];
      if wc <= 0x7FF {
        result := result + UnitBytes(wc);
      } else if IsHigh(wc) && i + 1 < length && IsLow(wide[i + 1]) {
        result := result + PairBytes(wc, wide[i + 1]);
        i := i + 1;  // the next unit is part of the pair
      } else {
        result := result + UnitBytes(wc);
      }
      i := i + 1;
    }
  }

  /** Utf8ToUtf16, which throws on the first sequence it cannot decode. */
  method Utf8ToUtf16(utf8: seq<Byte>) returns (result: Option<seq<CodeUnit>>)
    ensures result == DecodeStrict(utf8)
  {
    hide SequenceLength, DecodeSequence, EncodeUtf16;
    Ends(utf8, []);
    var units: seq<CodeUnit> := [];
    var i := 0;
    PrependNothing(DecodeStrict(utf8));
    while i < |utf8|
      invariant 0 <= i <= |utf8|
      invariant DecodeStrict(utf8) == Prepend(units, DecodeStrict(utf8[i..]))
    {
      var seqLen := SequenceLength(utf8[i]);
      if seqLen == 0 || i + seqLen > |utf8| {
        return None;
      }
      assert utf8[i..][seqLen..] == utf8[i + seqLen..];
      match EncodeUtf16(DecodeSequence(utf8[i..], seqLen)) {
        case None => return None;
        case Some(more) =>
          PrependTwice(units, more, DecodeStrict(utf8[i + seqLen..]));
          units := units + more;
      }
      i := i + seqLen;
    }
    assert units + [] == units;
    result := Some(units);
  }

  lemma PrependNothing(r: Option<seq<CodeUnit>>)
    ensures Prepend([], r) == r
  {
    if r.Some? { assert [] + r.value == r.value; }
  }

  lemma PrependTwice(a: seq<CodeUnit>, b: seq<CodeUnit>, r: Option<seq<CodeUnit>>)
    ensures Prepend(a, Prepend(b, r)) == Prepend(a + b, r)
  {
    if r.Some? { assert a + (b + r.value) == a + b + r.value; }
  }

  /** Where the strict decoder does not throw, the lenient one agrees with it. */
  lemma {:induction false} LenientAgreesWithStrict(b: seq<Byte>)
    requires DecodeStrict(b).Some?
    ensures DecodeStrict(b).value == Decode(b)
  {
    if b != [] {
      var n := SequenceLength(b[0]);
      AsciiStandsAlone(b[0]);
      LenientAgreesWithStrict(b[n..]);
    }
  }

  lemma AsciiStandsAlone(first: Byte)
    ensures first <= 0x7F <==> SequenceLength(first) == 1
  {
  }

  // ---------------------------------------------------------------- UTF-16 round trip

  // A code point above 0xFFFF, split into the four payloads and put back together.

  lemma PairCodePoint(hi: CodeUnit, lo: CodeUnit)
    requires IsHigh(hi) && IsLow(lo)
    ensures var cp := PairValue(hi, lo);
            && 0x10000 <= cp <= 0x10FFFF
            && (cp - 0x10000) >> 10 <= 0x3FF && HighUnit((cp - 0x10000) >> 10) == hi
            && (cp - 0x10000) & 0x3FF <= 0x3FF && LowUnit((cp - 0x10000) & 0x3FF) == lo
  {
  }

  lemma LeadBits(cp: CodePoint)
    requires cp <= 0x10FFFF
    ensures var p := (0xF0 | (cp >> 18)) as Byte;
            p > 0x7F && SequenceLength(p) == 4 && Low3(p) == cp >> 18
  {
  }

  lemma TailBits(x: CodePoint)
    ensures Low6((0x80 | (x & 0x3F)) as Byte) == x & 0x3F
  {
  }

  lemma SixBitGroups(cp: CodePoint)
    ensures Groups4(cp >> 18, (cp >> 12) & 0x3F, (cp >> 6) & 0x3F, cp & 0x3F) == cp
  {
  }

  lemma PairBits(hi: CodeUnit, lo: CodeUnit)
    requires IsHigh(hi) && IsLow(lo)
    ensures var p := PairBytes(hi, lo);
            && p[0] > 0x7F && SequenceLength(p[0]) == 4
            && Payload4(p[0], p[1], p[2], p[3]) == PairValue(hi, lo)
  {
    hide Low3, Low6, Groups4, PairValue, SequenceLength;
    PairCodePoint(hi, lo);
    var cp := PairValue(hi, lo);
    LeadBits(cp);
    TailBits(cp >> 12);
    TailBits(cp >> 6);
    TailBits(cp);
    SixBitGroups(cp);
  }

  lemma TwoBits(c: CodeUnit)
    requires 0x7F < c <= 0x7FF
    ensures var a, b := (0xC0 | (c >> 6)) as Byte, (0x80 | (c & 0x3F)) as Byte;
            a > 0x7F && SequenceLength(a) == 2 && Payload2(a, b) == c as CodePoint
  {
  }

  lemma ThreeBits(c: CodeUnit)
    requires 0x7FF < c
    ensures var a, b, d := (0xE0 | (c >> 12)) as Byte, (0x80 | ((c >> 6) & 0x3F)) as Byte, (0x80 | (c & 0x3F)) as Byte;
            a > 0x7F && SequenceLength(a) == 3 && Payload3(a, b, d) == c as CodePoint
  {
  }

  lemma UnitBits(c: CodeUnit)
    ensures var p := UnitBytes(c);
            && SequenceLength(p[0]) == |p|
            && DecodeSequence(p, |p|) == c as CodePoint
            && (p[0] <= 0x7F <==> c <= 0x7F)
  {
    hide Payload2, Payload3;
    if 0x7FF < c { ThreeBits(c); }
    else if 0x7F < c { TwoBits(c); }
  }

  lemma DecodeSequenceIsLocal(p: seq<Byte>, rest: seq<Byte>, n: nat)
    requires 1 <= n <= 4 && n <= |p|
    ensures DecodeSequence(p + rest, n) == DecodeSequence(p, n)
  {
    hide Payload2, Payload3, Payload4;
    assert forall k | 0 <= k < n :: (p + rest)[k] == p[k];
  }

  lemma UnitIsItsCodePoint(c: CodeUnit)
    ensures EncodeUtf16(c as CodePoint) == Some([c])
  {
  }

  lemma PairIsItsCodePoint(hi: CodeUnit, lo: CodeUnit)
    requires IsHigh(hi) && IsLow(lo)
    ensures EncodeUtf16(PairValue(hi, lo)) == Some([hi, lo])
  {
    PairCodePoint(hi, lo);
  }

  // ---------------------------------------------------------------- UTF-16 round trip

  /** A sequence of at least two bytes that announces its own length decodes to its code point. */
  lemma DecodeOneOf(p: seq<Byte>, rest: seq<Byte>, units: seq<CodeUnit>)
    requires 2 <= |p| <= 4 && p[0] > 0x7F && SequenceLength(p[0]) == |p|
    requires EncodeUtf16(DecodeSequence(p, |p|)) == Some(units)
    ensures DecodeOne(p + rest) == (units, |p|)
  {
    hide SequenceLength, EncodeUtf16, DecodeSequence;
    assert (p + rest)[0] == p[0];
    DecodeSequenceIsLocal(p, rest, |p|);
  }

  lemma PairDecodes(hi: CodeUnit, lo: CodeUnit, rest: seq<Byte>)
    requires IsHigh(hi) && IsLow(lo)
    ensures DecodeOne(PairBytes(hi, lo) + rest) == ([hi, lo], 4)
  {
    hide PairBytes, PairValue, SequenceLength, EncodeUtf16, Payload4, DecodeOne;
    PairBits(hi, lo);
    PairIsItsCodePoint(hi, lo);
    DecodeOneOf(PairBytes(hi, lo), rest, [hi, lo]);
  }

  lemma UnitDecodes(c: CodeUnit, rest: seq<Byte>)
    ensures DecodeOne(UnitBytes(c) + rest) == ([c], |UnitBytes(c)|)
  {
    var p := UnitBytes(c);
    if c <= 0x7F {
      assert (p + rest)[0] == p[0];
    } else {
      UnitIsLong(c);
      hide UnitBytes, SequenceLength, EncodeUtf16, DecodeSequence, DecodeOne;
      UnitBits(c);
      UnitIsItsCodePoint(c);
      DecodeOneOf(p, rest, [c]);
    }
  }

  lemma UnitIsLong(c: CodeUnit)
    ensures |UnitBytes(c)| == 1 <==> c <= 0x7F
  {
  }

  /** Decoding undoes one turn of the encoder, whatever follows. */
  lemma DecodeUndoesOne(u: seq<CodeUnit>, rest: seq<Byte>)
    requires u != []
    ensures var (bytes, n) := EncodeOne(u);
            DecodeOne(bytes + rest) == (u[..n], |bytes|)
  {
    hide PairBytes, UnitBytes, DecodeOne;
    if EncodeOne(u).1 == 2 {
      PairDecodes(u[0], u[1], rest);
      assert u[..2] == [u[0], u[1]];
    } else {
      UnitDecodes(u[0], rest);
      assert u[..1] == [u[0]];
    }
  }

  /** Utf8ToU16String undoes U16StringToUtf8 on every sequence of units, well formed or not. */
  lemma {:induction false} Utf16RoundTrip(u: seq<CodeUnit>)
    ensures Decode(Encode(u)) == u
  {
    hide DecodeOne, EncodeOne;
    if u != [] {
      var (bytes, n) := EncodeOne(u);
      var rest := Encode(u[n..]);
      DecodeUndoesOne(u, rest);
      assert (bytes + rest)[|bytes|..] == rest;
      Utf16RoundTrip(u[n..]);
      assert u == u[..n] + u[n..];
    }
  }
}
