/**
 * Numeric parameters: cpp/src/common/numeric_utils.cpp, and rescale and bind_numeric_struct
 * of cpp/src/core/bound_datum.cpp.
 *
 * A double is a real number here and DBL_EPSILON is zero, so modf, multiplication by ten
 * and pow(10, n) are exact.  Integer widths are kept: unsigned long long is below 2^64,
 * `int` wraps at 32 bits, SQLSCHAR at 8.
 */
module Numeric {
  import opened Wrappers

  type Byte = x: int | 0 <= x < 256

  const MAX_NUMERIC_LEN := 16
  const TWO_TO_64 := 0x1_0000_0000_0000_0000
  const TWO_TO_32 := 0x1_0000_0000
  const TWO_TO_31 := 0x8000_0000

  /** SQL_NUMERIC_STRUCT; `val` is the little-endian mantissa. */
  class NumericStruct {
    var precision: Byte
    var scale: int
    var sign: Byte
    const val: array<Byte>

    constructor ()
      ensures val.Length == MAX_NUMERIC_LEN && fresh(val)
    {
      val := new Byte[MAX_NUMERIC_LEN](_ => 0);
      precision, scale, sign := 0, 0, 0;
    }
  }

  function Power(b: nat, e: nat): (p: nat)
    ensures b > 0 ==> p > 0
  {
    if e == 0 then 1
    else
      var p := Power(b, e - 1);
      assert b > 0 ==> p * b > 0;
      p * b
  }

  /** The number little-endian bytes denote. */
  function LittleEndian(bytes: seq<Byte>): nat {
    if bytes == [] then 0 else bytes[0] + 256 * LittleEndian(bytes[1..])
  }

  function BigEndian(bytes: seq<Byte>): nat {
    if bytes == [] then 0 else BigEndian(bytes[..|bytes| - 1]) * 256 + bytes[|bytes| - 1]
  }

  // ---------------------------------------------------------------- hexadecimal text

  function Char2Int(c: char): int {
    if '0' <= c <= '9' then c as int - '0' as int
    else if 'A' <= c <= 'F' then c as int - 'A' as int + 10
    else if 'a' <= c <= 'f' then c as int - 'a' as int + 10
    else 0
  }

  predicate IsHex(s: string) {
    forall k | 0 <= k < |s| :: '0' <= s[k] <= '9' || 'A' <= s[k] <= 'F'
  }

  /** The number a hexadecimal numeral denotes, most significant digit first. */
  function HexValue(s: string): int {
    if s == [] then 0 else HexValue(s[..|s| - 1]) * 16 + Char2Int(s[|s| - 1])
  }

  /** The same with the least significant digit first. */
  function LowHexValue(s: string): int {
    if s == [] then 0 else Char2Int(s[0]) + 16 * LowHexValue(s[1..])
  }

  function Reversed<T>(s: seq<T>): (r: seq<T>)
    ensures |r| == |s|
  {
    seq(|s|, i requires 0 <= i < |s| => s[|s| - 1 - i])
  }

  lemma {:induction false} ReversedHexValue(s: string)
    ensures HexValue(Reversed(s)) == LowHexValue(s)
  {
    if s != [] {
      var r := Reversed(s);
      assert r[..|r| - 1] == Reversed(s[1..]);
      ReversedHexValue(s[1..]);
    }
  }

  lemma {:induction false} LowHexAppend(s: string, c: char)
    ensures LowHexValue(s + [c]) == LowHexValue(s) + Power(16, |s|) * Char2Int(c)
  {
    if s == [] {
      assert s + [c] == [c];
    } else {
      assert (s + [c])[1..] == s[1..] + [c];
      LowHexAppend(s[1..], c);
      var (p, d) := (Power(16, |s| - 1), Char2Int(c));
      assert 16 * (p * d) == p * 16 * d;
    }
  }

  /** One round of hexify's loop keeps the number split between digits and rest. */
  lemma HexRound(s: string, c: char, m: nat, n: nat)
    requires LowHexValue(s) + Power(16, |s|) * m == n && Char2Int(c) == m % 16
    ensures LowHexValue(s + [c]) + Power(16, |s + [c]|) * (m / 16) == n
  {
    hide Char2Int;
    LowHexAppend(s, c);
    SplitDigit(Power(16, |s|), m / 16, m % 16);
  }

  lemma SplitDigit(p: int, q: int, r: int)
    ensures p * (16 * q + r) == p * 16 * q + p * r
  {
  }

  lemma {:induction false} PowerMonotone(b: nat, i: nat, j: nat)
    requires b >= 1 && i <= j
    ensures Power(b, i) <= Power(b, j)
  {
    if i < j {
      PowerMonotone(b, i, j - 1);
      var p := Power(b, j - 1);
      assert p * b >= p;
    }
  }

  /** A number below 2^64 still has a digit to write only while fewer than 16 are written. */
  lemma SixteenDigits(length: nat, m: nat, low: nat, n: nat)
    requires m > 0 && low + Power(16, length) * m == n < TWO_TO_64
    ensures length < 16
  {
    AtLeast(Power(16, length), m);
    if length >= 16 { SixteenToThe16(length); }
  }

  lemma AtLeast(p: nat, m: nat)
    requires m > 0
    ensures p * m >= p
  {
  }

  lemma SixteenToThe16(length: nat)
    requires length >= 16
    ensures Power(16, length) >= TWO_TO_64
  {
    PowerMonotone(16, 16, length);
    assert Power(16, 4) == 65536;
    assert Power(16, 8) == 0x1_0000_0000;
    assert Power(16, 12) == 0x1_0000_0000_0000;
    assert Power(16, 16) == 0x1_0000_0000_0000_0000;
  }

  function HexDigit(d: int): (c: char)
    requires 0 <= d < 16
    ensures Char2Int(c) == d && IsHex([c])
  {
    "0123456789ABCDEF"[d]
  }

  lemma LowHexNatural(s: string)
    ensures LowHexValue(s) >= 0
  {
  }

  lemma HexStart(n: nat)
    ensures LowHexValue("") + Power(16, 0) * n == n
  {
  }

  method Hexify(n: nat) returns (res: string)
    requires n < TWO_TO_64
    ensures HexValue(res) == n && IsHex(res)
    ensures 1 <= |res| <= 16
  {
    hide Power, LowHexValue, HexValue, Char2Int, HexDigit;
    var digits: string, m := "", n;
    HexStart(n);
    while true
      invariant digits == [] || m > 0
      invariant IsHex(digits) && LowHexValue(digits) + Power(16, |digits|) * m == n
      invariant |digits| <= 16 && (|digits| == 16 ==> m == 0)
      decreases m
    {
      HexRound(digits, HexDigit(m % 16), m, n);
      digits := digits + [HexDigit(m % 16)];
      m := m / 16;
      if m == 0 {
        break;
      }
      LowHexNatural(digits);
      SixteenDigits(|digits|, m, LowHexValue(digits), n);
    }
    ReversedHexValue(digits);
    res := Reversed(digits);
  }

  /** What `len` bytes read from the pairs of hexadecimal digits of a string are. */
  predicate PairsOf(bytes: seq<Byte>, src: string) {
    && 2 * |bytes| <= |src|
    && forall k | 0 <= k < |bytes| :: bytes[k] == Char2Int(src[2 * k]) * 16 + Char2Int(src[2 * k + 1])
  }

  lemma {:induction false} PairsKeepTheValue(bytes: seq<Byte>, src: string)
    requires PairsOf(bytes, src)
    ensures BigEndian(bytes) == HexValue(src[..2 * |bytes|])
  {
    if bytes != [] {
      var n := |bytes|;
      PairsKeepTheValue(bytes[..n - 1], src);
      var s := src[..2 * n];
      assert s[..|s| - 1][..|s| - 2] == src[..2 * (n - 1)];
    }
  }

  lemma Char2IntRange(c: char)
    ensures 0 <= Char2Int(c) < 16
  {
  }

  /** Reads a zero-terminated string, or one that ends where the sequence does. */
  method Hex2Bin(src: string, target: array<Byte>) returns (len: nat)
    requires |src| / 2 <= target.Length
    modifies target
    ensures len <= target.Length && PairsOf(target[..len], src)
    ensures '\0' !in src ==> len == |src| / 2
    ensures target[len..] == old(target[..])[len..]
  {
    len := 0;
    while 2 * len + 1 < |src| && src[2 * len] != '\0' && src[2 * len + 1] != '\0'
      invariant 2 * len <= |src| && len <= target.Length
      invariant PairsOf(target[..len], src)
      invariant target[len..] == old(target[..])[len..]
    {
      Char2IntRange(src[2 * len]);
      Char2IntRange(src[2 * len + 1]);
      target[len] := Char2Int(src[2 * len]) * 16 + Char2Int(src[2 * len + 1]);
      len := len + 1;
    }
  }

  // ---------------------------------------------------------------- writing the mantissa

  lemma {:induction false} ZerosAreZero(bytes: seq<Byte>)
    requires forall k | 0 <= k < |bytes| :: bytes[k] == 0
    ensures LittleEndian(bytes) == 0
  {
    if bytes != [] {
      ZerosAreZero(bytes[1..]);
    }
  }

  lemma {:induction false} ReversedBytes(bytes: seq<Byte>, rest: seq<Byte>)
    requires forall k | 0 <= k < |rest| :: rest[k] == 0
    ensures LittleEndian(Reversed(bytes) + rest) == BigEndian(bytes)
  {
    var all := Reversed(bytes) + rest;
    if bytes == [] {
      assert all == rest;
      ZerosAreZero(rest);
    } else {
      var short := bytes[..|bytes| - 1];
      ReversedBytes(short, rest);
      assert all[1..] == Reversed(short) + rest;
    }
  }

  lemma PadKeepsTheValue(s: string)
    ensures HexValue("0" + s) == HexValue(s)
  {
    if s != [] {
      var t := "0" + s;
      assert t[..|t| - 1] == "0" + s[..|s| - 1];
      PadKeepsTheValue(s[..|s| - 1]);
    }
  }

  /** hexify, padding, hex2_bin and reversal, into the 16 bytes of a numeric's val. */
  method WriteMantissa(n: nat, val: array<Byte>)
    requires n < TWO_TO_64 && val.Length == MAX_NUMERIC_LEN
    modifies val
    ensures LittleEndian(val[..]) == n
  {
    hide HexValue, BigEndian, LittleEndian, PairsOf;
    var hex := new Byte[MAX_NUMERIC_LEN](_ => 0);
    Clear(val);
    var ss := Hexify(n);
    if |ss| % 2 == 1 {
      PadKeepsTheValue(ss);
      ss := "0" + ss;
    }
    assert |ss| % 2 == 0 && |ss| <= 16;
    assert forall k | 0 <= k < |ss| :: ss[k] != '\0';
    var len := Hex2Bin(ss, hex);
    ghost var bytes := hex[..len];
    PairsKeepTheValue(bytes, ss);
    assert ss[..2 * len] == ss;
    CopyReversed(hex, len, val);
  }

  /** The digits' bytes, last first, go to the front of val. */
  method CopyReversed(hex: array<Byte>, len: nat, val: array<Byte>)
    requires hex != val && len <= hex.Length == val.Length == MAX_NUMERIC_LEN
    requires forall k | 0 <= k < MAX_NUMERIC_LEN :: val[k] == 0
    modifies val
    ensures LittleEndian(val[..]) == BigEndian(hex[..len])
  {
    ghost var bytes := hex[..len];
    var i, j := len - 1, 0;
    while i >= 0
      invariant -1 <= i < len && j == len - 1 - i
      invariant hex[..len] == bytes
      invariant forall k | 0 <= k < j :: val[k] == bytes[len - 1 - k]
      invariant forall k | j <= k < MAX_NUMERIC_LEN :: val[k] == 0
    {
      val[j] := hex[i];
      i, j := i - 1, j + 1;
    }
    assert val[..] == Reversed(bytes) + val[len..];
    ReversedBytes(bytes, val[len..]);
  }

  /** memset(buffer, 0, length) */
  method Clear(buffer: array<Byte>)
    modifies buffer
    ensures forall k | 0 <= k < buffer.Length :: buffer[k] == 0
  {
    for i := 0 to buffer.Length
      invariant forall k | 0 <= k < i :: buffer[k] == 0
    {
      buffer[i] := 0;
    }
  }

  // ---------------------------------------------------------------- reading the mantissa

  /** The value a 32-bit int keeps of an integer. */
  function Wrap32(x: int): (r: int)
    ensures -TWO_TO_31 <= r < TWO_TO_31 && (-TWO_TO_31 <= x < TWO_TO_31 ==> r == x)
  {
    (x + TWO_TO_31) % TWO_TO_32 - TWO_TO_31
  }

  lemma {:induction false} LittleEndianSplit(bytes: seq<Byte>, k: nat)
    requires k <= |bytes|
    ensures LittleEndian(bytes) == LittleEndian(bytes[..k]) + Power(256, k) * LittleEndian(bytes[k..])
  {
    if k == 0 {
      assert bytes[0..] == bytes;
    } else {
      LittleEndianSplit(bytes[1..], k - 1);
      assert bytes[1..][..k - 1] == bytes[..k][1..] && bytes[1..][k - 1..] == bytes[k..];
      Regroup(Power(256, k - 1), LittleEndian(bytes[k..]));
    }
  }

  lemma Regroup(p: int, r: int)
    ensures 256 * (p * r) == p * 256 * r
  {
  }

  lemma LittleEndianNext(bytes: seq<Byte>, i: nat)
    requires i < |bytes|
    ensures LittleEndian(bytes[..i + 1]) == LittleEndian(bytes[..i]) + Power(256, i) * bytes[i]
  {
    var front := bytes[..i + 1];
    LittleEndianSplit(front, i);
    assert front[..i] == bytes[..i] && front[i..] == [bytes[i]];
    assert [bytes[i]][1..] == [];
    assert LittleEndian([bytes[i]]) == bytes[i];
  }

  lemma {:induction false} LittleEndianBound(bytes: seq<Byte>)
    ensures LittleEndian(bytes) < Power(256, |bytes|)
  {
    if bytes != [] {
      LittleEndianBound(bytes[1..]);
    }
  }

  /** What the loop of strtohextoval knows after `i` bytes; `last` has wrapped to zero after four. */
  ghost predicate Reading(val: seq<Byte>, i: nat, value: int, last: int)
    requires i <= |val| && |val| >= 4
  {
    if i < 4 then value == LittleEndian(val[..i]) && last == Power(256, i)
    else value == Wrap32(LittleEndian(val[..4])) && last == 0
  }

  lemma ReadByte(val: seq<Byte>, i: nat, value: int, last: int)
    requires i < |val| && |val| >= 4 && Reading(val, i, value, last)
    ensures (var a, b, last1 := val[i] % 16, val[i] / 16, Wrap32(last * 16);
             Reading(val, i + 1, value + Wrap32(last * a) + Wrap32(last1 * b), Wrap32(last1 * 16)))
  {
    hide LittleEndian, Wrap32, Power;
    SmallPowers();
    if i < 3 {
      LittleEndianNext(val, i);
      ReadLowByte(last, val[i]);
    } else if i == 3 {
      LittleEndianNext(val, i);
      LittleEndianBound(val[..3]);
      ReadFourthByte(value, val[3]);
    } else {
      WrapZero(val[i] % 16, val[i] / 16);
    }
  }

  lemma SmallPowers()
    ensures Power(256, 0) == 1 && Power(256, 1) == 256 && Power(256, 2) == 65536 && Power(256, 3) == 16777216
    ensures Power(256, 4) == TWO_TO_32
  {
  }

  lemma WrapZero(a: int, b: int)
    ensures Wrap32(0 * a) == 0 && Wrap32(0 * 16) == 0 && Wrap32(0 * b) == 0
  {
  }

  lemma ReadLowByte(last: int, byte: Byte)
    requires last == 1 || last == 256 || last == 65536
    ensures Wrap32(last * (byte % 16)) + Wrap32(Wrap32(last * 16) * (byte / 16)) == last * byte
    ensures Wrap32(Wrap32(last * 16) * 16) == last * 256
  {
  }

  lemma ReadFourthByte(low: int, byte: Byte)
    requires 0 <= low < 16777216
    ensures low + Wrap32(16777216 * (byte % 16)) + Wrap32(Wrap32(16777216 * 16) * (byte / 16))
        == Wrap32(low + 16777216 * byte)
    ensures Wrap32(Wrap32(16777216 * 16) * 16) == 0
  {
    var a, b := byte % 16, byte / 16;
    assert Wrap32(16777216 * a) == 16777216 * a;
    assert Wrap32(268435456 * b) == if b < 8 then 268435456 * b else 268435456 * b - 4294967296;
  }

  method StrToHexToVal(val: seq<Byte>) returns (value: int)
    requires |val| == MAX_NUMERIC_LEN
    ensures value == Wrap32(LittleEndian(val))
    ensures value == LittleEndian(val) <==> LittleEndian(val) < TWO_TO_31
  {
    value := 0;
    var last := 1;
    var i := 0;
    while i <= 15
      invariant 0 <= i <= 16 && Reading(val, i, value, last)
    {
      ReadByte(val, i, value, last);
      var current := val[i];
      var a, b := current % 16, current / 16;
      value := value + Wrap32(last * a);
      last := Wrap32(last * 16);
      value := value + Wrap32(last * b);
      last := Wrap32(last * 16);
      i := i + 1;
    }
    LowWordDecides(val);
  }

  lemma LowWordDecides(val: seq<Byte>)
    requires |val| >= 4
    ensures Wrap32(LittleEndian(val)) == Wrap32(LittleEndian(val[..4]))
  {
    hide LittleEndian, Wrap32, Power;
    LittleEndianSplit(val, 4);
    SmallPowers();
    WrapDropsHighWord(LittleEndian(val[..4]), LittleEndian(val[4..]));
  }

  lemma WrapDropsHighWord(low: nat, high: nat)
    ensures Wrap32(low + 0x1_0000_0000 * high) == Wrap32(low)
  {
  }

  // ---------------------------------------------------------------- decoding

  /** The `int` that decode_numeric_struct divides by. */
  function Divisor(scale: int): int {
    if scale <= 0 then 1 else Wrap32(Divisor(scale - 1) * 10)
  }

  /** The divisor is the power of ten it is meant to be for scales up to nine only. */
  lemma DivisorIsExactWhen(scale: nat)
    ensures Divisor(scale) == Power(10, scale) <==> scale <= 9
  {
    if scale <= 9 {
      SmallDivisor(scale);
    } else {
      PowerMonotone(10, 10, scale);
      assert Power(10, 5) == 100000;
      assert Power(10, 10) == 10000000000;
    }
  }

  lemma {:induction false} SmallDivisor(scale: nat)
    requires scale <= 9
    ensures Divisor(scale) == Power(10, scale) <= 1000000000
  {
    PowerMonotone(10, scale, 9);
    assert Power(10, 5) == 100000;
    assert Power(10, 9) == 1000000000;
    if scale > 0 {
      SmallDivisor(scale - 1);
    }
  }

  function Signed(negative: bool, x: real): real {
    if negative then -x else x
  }

  /** What decode_numeric_struct returns; None where it divides by zero. */
  function Decoded(val: seq<Byte>, scale: int, sign: Byte): Option<real> {
    if Divisor(scale) == 0 then None
    else Some(Signed(sign == 0, Wrap32(LittleEndian(val)) as real / Divisor(scale) as real))
  }

  method DecodeNumericStruct(numeric: NumericStruct) returns (v: Option<real>)
    requires numeric.val.Length == MAX_NUMERIC_LEN
    ensures v == Decoded(numeric.val[..], numeric.scale, numeric.sign)
  {
    var myvalue := StrToHexToVal(numeric.val[..]);
    var divisor := 1;
    if numeric.scale > 0 {
      for i := 0 to numeric.scale
        invariant divisor == Divisor(i)
      {
        divisor := Wrap32(divisor * 10);
      }
    }
    if divisor == 0 {
      return None;
    }
    var finalVal := myvalue as real / divisor as real;
    var sign := if numeric.sign == 0 then -1 else 1;
    v := Some(finalVal * sign as real);
  }

  // ---------------------------------------------------------------- encoding

  predicate IsInteger(x: real) {
    x == x.Floor as real
  }

  /** x with its decimal point moved n places: x * 10^n. */
  function Shift(x: real, n: nat): (r: real)
    ensures x >= 0.0 ==> r >= x
    ensures x < 0.0 ==> r <= x
  {
    if n == 0 then x else Shift(x, n - 1) * 10.0
  }

  lemma {:induction false} ShiftIsProduct(x: real, n: nat)
    ensures Shift(x, n) == x * Power(10, n) as real
  {
    if n > 0 {
      ShiftIsProduct(x, n - 1);
      TimesTen(x, Power(10, n - 1));
    }
  }

  lemma TimesTen(x: real, p: int)
    ensures x * p as real * 10.0 == x * (p * 10) as real
  {
    assert (p * 10) as real == p as real * 10.0;
  }

  lemma {:induction false} ShiftFirst(x: real, n: nat)
    requires n > 0
    ensures Shift(x, n) == Shift(x * 10.0, n - 1)
  {
    if n > 1 { ShiftFirst(x, n - 1); }
  }

  lemma {:induction false} ShiftGrows(x: real, s: nat, t: nat)
    requires x >= 0.0 && s <= t
    ensures Shift(x, s) <= Shift(x, t)
  {
    if s < t { ShiftGrows(x, s, t - 1); }
  }

  function Magnitude(x: real): real {
    if x < 0.0 then -x else x
  }

  lemma {:induction false} ShiftAbs(x: real, n: nat)
    ensures Magnitude(Shift(x, n)) == Shift(Magnitude(x), n)
  {
    if n > 0 { ShiftAbs(x, n - 1); }
  }

  lemma ShiftedIsNatural(v: real, s: nat)
    ensures Shift(Magnitude(v), s) >= 0.0
  {
  }

  /** The number of decimals kept: as many as x has, and at most `limit`. */
  function Scale(x: real, limit: nat): (s: nat)
    ensures s <= limit
    decreases limit
  {
    if limit == 0 || IsInteger(x) then 0 else 1 + Scale(x * 10.0, limit - 1)
  }

  /** Scale is the least number of decimals that is enough, unless the limit comes first. */
  lemma {:induction false} ScaleIsLeast(x: real, limit: nat)
    ensures Scale(x, limit) < limit ==> IsInteger(Shift(x, Scale(x, limit)))
    ensures forall t | 0 <= t < Scale(x, limit) :: !IsInteger(Shift(x, t))
    decreases limit
  {
    if limit > 0 && !IsInteger(x) {
      ScaleIsLeast(x * 10.0, limit - 1);
      var s := Scale(x, limit);
      forall t | 0 <= t < s ensures !IsInteger(Shift(x, t)) {
        if t > 0 { ShiftFirst(x, t); }
      }
      ShiftFirst(x, s);
    }
  }

  /** The integer that is encoded: x cut off after the decimals kept. */
  function Mantissa(x: real, limit: nat): int {
    Shift(x, Scale(x, limit)).Floor
  }

  function UpscaleLimit(limit: int): nat {
    if limit <= 0 then 8 else limit
  }

  function AsSignedChar(x: int): int {
    (x + 128) % 256 - 128
  }

  /** The scaling loop of encode_numeric_struct. */
  method Upscale(x: real, limit: nat) returns (scale: nat, encode: real)
    ensures scale == Scale(x, limit) && encode == Shift(x, scale)
  {
    encode, scale := x, 0;
    while scale < limit && encode - encode.Floor as real > 0.0
      invariant scale <= limit && encode == Shift(x, scale)
      invariant scale + Scale(encode, limit - scale) == Scale(x, limit)
    {
      scale := scale + 1;
      encode := encode * 10.0;
    }
  }

  /** The cast to unsigned long long: defined below 2^64, some number or other from there on. */
  method ToUnsignedLongLong(x: real) returns (n: nat)
    requires x >= 0.0
    ensures n < TWO_TO_64 && (x.Floor < TWO_TO_64 ==> n == x.Floor)
  {
    n := if x.Floor < TWO_TO_64 then x.Floor else 0;
  }

  /** `logPrecision` is the conversion of log10(encode) + 1, used only where no precision is given. */
  method EncodeNumericStruct(v: real, precision: int, upscaleLimit: int, logPrecision: Byte, numeric: NumericStruct)
    requires numeric.val.Length == MAX_NUMERIC_LEN
    modifies numeric, numeric.val
    ensures (var mantissa := Mantissa(Magnitude(v), UpscaleLimit(upscaleLimit));
             mantissa < TWO_TO_64 ==> LittleEndian(numeric.val[..]) == mantissa)
    ensures numeric.sign == if v >= 0.0 then 1 else 0
    ensures numeric.scale == AsSignedChar(Scale(Magnitude(v), UpscaleLimit(upscaleLimit)))
    ensures numeric.precision == if precision > 0 then precision % 256 else logPrecision
  {
    hide Scale, Shift, AsSignedChar, LittleEndian;
    var limit: nat := if upscaleLimit <= 0 then 8 else upscaleLimit;
    var scale, encode := Upscale(Magnitude(v), limit);
    ShiftedIsNatural(v, scale);
    var ull := ToUnsignedLongLong(encode);
    WriteMantissa(ull, numeric.val);
    numeric.sign := if v >= 0.0 then 1 else 0;
    numeric.precision := if precision > 0 then precision % 256 else logPrecision;
    numeric.scale := AsSignedChar(if scale < limit then scale else limit);
  }

  // ---------------------------------------------------------------- decimals that are enough

  /** The scale chosen represents x exactly when the limit would. */
  lemma EnoughDecimals(x: real, limit: nat)
    ensures IsInteger(Shift(x, Scale(x, limit))) <==> IsInteger(Shift(x, limit))
  {
    hide IsInteger, Shift, Scale;
    var s := Scale(x, limit);
    ScaleIsLeast(x, limit);
    if s < limit { MoreDecimals(x, s, limit); }
  }

  lemma {:induction false} MoreDecimals(x: real, s: nat, t: nat)
    requires s <= t && IsInteger(Shift(x, s))
    ensures IsInteger(Shift(x, t))
  {
    if s < t {
      MoreDecimals(x, s, t - 1);
      var y := Shift(x, t - 1);
      assert y * 10.0 == (y.Floor * 10) as real;
    }
  }

  // ---------------------------------------------------------------- binding with a declared scale

  /** rescale: multiplied by the full scale when the value has fewer decimals than declared. */
  function Rescaled(d: real, digits: nat): real {
    if AsSignedChar(Scale(Magnitude(d), digits)) < digits then Shift(d, digits) else d
  }

  method Rescale(d: real, paramSize: int, digits: int) returns (scaled: real)
    requires digits > 0
    ensures scaled == Rescaled(d, digits)
  {
    hide Shift, Power, Scale, Mantissa, LittleEndian, IsInteger;
    var ns := new NumericStruct();
    EncodeNumericStruct(d, paramSize, digits, 0, ns);
    scaled := d;
    if ns.scale < digits {
      var powers := Power(10, digits) as real;
      ShiftIsProduct(d, digits);
      scaled := scaled * powers;
    }
  }

  /** Whichever branch rescale takes, encoding its result gives the declared number of decimals. */
  lemma EitherBranchScales(d: real, digits: nat)
    requires 1 <= digits <= 127
    ensures Mantissa(Magnitude(Rescaled(d, digits)), digits) == Shift(Magnitude(d), digits).Floor
    ensures Rescaled(d, digits) >= 0.0 <==> d >= 0.0
  {
    hide Shift, Scale, IsInteger;
    var x := Magnitude(d);
    if Scale(x, digits) < digits {
      EnoughDecimals(x, digits);
      ScaleIsLeast(x, digits);
      ShiftAbs(d, digits);
      IntegersStay(Shift(x, digits), digits);
    }
  }

  /**
   * A declared scale past 127 never looks reached, as the struct keeps a signed byte, so that the
   * number is always scaled, and then scaled again by its encoding where it still has a fraction.
   * The mantissa is the one asked for exactly when there is none, or nothing of it is left.
   */
  lemma LongScaleIsRightExactlyWhen(d: real, digits: nat)
    requires digits > 127
    ensures (var y := Shift(Magnitude(d), digits);
             && Magnitude(Rescaled(d, digits)) == y
             && (Mantissa(y, digits) == y.Floor <==> IsInteger(y) || Shift(y, digits) < 1.0))
  {
    hide Shift, Scale, IsInteger;
    ShiftAbs(d, digits);
    ScaledTwice(Shift(Magnitude(d), digits), digits);
  }

  lemma ScaledTwice(y: real, digits: nat)
    requires y >= 0.0 && digits > 0
    ensures Mantissa(y, digits) == y.Floor <==> IsInteger(y) || Shift(y, digits) < 1.0
  {
    hide Shift, Scale, IsInteger;
    if IsInteger(y) {
      IntegersStay(y, digits);
    } else {
      var s := Scale(y, digits);
      FractionsScale(y, digits);
      ScaleIsLeast(y, digits);
      ShiftGrows(y, 1, s);
      ShiftGrows(y, s, digits);
      OnePlace(y);
      FloorsDiffer(y, Shift(y, s), Shift(y, digits));
    }
  }

  lemma FractionsScale(y: real, limit: nat)
    requires !IsInteger(y) && limit > 0
    ensures Scale(y, limit) > 0
  {
  }

  lemma FloorsDiffer(y: real, z: real, w: real)
    requires y >= 0.0 && !IsInteger(y) && y * 10.0 <= z <= w && (IsInteger(z) || z == w)
    ensures z.Floor == y.Floor <==> w < 1.0
  {
    if w < 1.0 {
      assert z.Floor == 0 == y.Floor;
    } else if y >= 1.0 {
      assert z > y + 1.0;
    } else {
      assert y.Floor == 0 && z.Floor >= 1;
    }
  }

  lemma OnePlace(y: real)
    ensures Shift(y, 1) == y * 10.0
  {
    assert Shift(y, 0) == y;
  }

  lemma IntegersStay(y: real, limit: nat)
    requires IsInteger(y)
    ensures Scale(y, limit) == 0 && Shift(y, 0) == y
  {
  }

  /** The fields of BoundDatum that binding a numeric reads and assigns. */
  class BoundNumeric {
    var paramSize: nat
    var digits: int

    constructor (paramSize: nat, digits: int)
      ensures this.paramSize == paramSize && this.digits == digits
    {
      this.paramSize, this.digits := paramSize, digits;
    }

    /**
     * With a declared scale a numeric holds the decimals asked for, cut off, not rounded.  The
     * scale is stored in a signed byte: beyond 127 it is not the one declared, and the number is
     * scaled once more where it has decimals left.
     */
    method BindNumericStruct(d: real, logPrecision: Byte, ns: NumericStruct)
      requires ns.val.Length == MAX_NUMERIC_LEN && digits < 32768
      modifies this, ns, ns.val
      ensures 0 < old(digits) <= 127 && Shift(Magnitude(d), old(digits)).Floor < TWO_TO_64 ==>
                LittleEndian(ns.val[..]) == Shift(Magnitude(d), old(digits)).Floor
      ensures old(digits) > 127 && Mantissa(Shift(Magnitude(d), old(digits)), old(digits)) < TWO_TO_64 ==>
                LittleEndian(ns.val[..]) == Mantissa(Shift(Magnitude(d), old(digits)), old(digits))
      ensures 0 < old(digits) ==> digits == old(digits) && (ns.scale == digits <==> digits <= 127)
      ensures old(digits) <= 0 && Mantissa(Magnitude(d), 8) < TWO_TO_64 ==>
                LittleEndian(ns.val[..]) == Mantissa(Magnitude(d), 8)
      ensures old(digits) <= 0 ==> ns.scale == Scale(Magnitude(d), 8) == digits
      ensures ns.sign == if d >= 0.0 then 1 else 0
      ensures paramSize == if old(paramSize) == 0 then ns.precision else old(paramSize)
    {
      hide Shift, Scale, Mantissa, Rescaled, LittleEndian;
      var value := d;
      if digits > 0 {
        value := Rescale(d, paramSize, digits);
        RescaleKeepsSign(d, digits);
        if digits <= 127 { EitherBranchScales(d, digits); } else { LongScaleIsRightExactlyWhen(d, digits); }
      }
      EncodeNumericStruct(value, paramSize, digits, logPrecision, ns);
      if paramSize <= 0 {
        paramSize := ns.precision;
      }
      if digits <= 0 {
        digits := ns.scale % 256;
      } else {
        ns.scale := AsSignedChar(digits);
      }
    }
  }

  /** Both conversions to unsigned long long are of numbers below 2^64. */
  predicate CastsAreDefined(d: real, digits: int) {
    if digits > 0
    then Mantissa(Magnitude(d), digits) < TWO_TO_64 && Mantissa(Magnitude(Rescaled(d, digits)), digits) < TWO_TO_64
    else Mantissa(Magnitude(d), 8) < TWO_TO_64
  }

  lemma RescaleKeepsSign(d: real, digits: nat)
    ensures Rescaled(d, digits) >= 0.0 <==> d >= 0.0
  {
    hide Scale;
  }

  /** For a scale that can be stored they are defined whenever the mantissa asked for is below 2^64. */
  lemma CastsAreDefinedWhen(d: real, digits: nat)
    requires 1 <= digits <= 127
    ensures CastsAreDefined(d, digits) <==> Shift(Magnitude(d), digits).Floor < TWO_TO_64
  {
    hide Scale, Rescaled;
    EitherBranchScales(d, digits);
    if Shift(Magnitude(d), digits).Floor < TWO_TO_64 { RescaleFits(d, digits); }
  }

  lemma RescaleFits(d: real, digits: nat)
    requires Shift(Magnitude(d), digits).Floor < TWO_TO_64
    ensures Mantissa(Magnitude(d), digits) < TWO_TO_64
  {
    ShiftGrows(Magnitude(d), Scale(Magnitude(d), digits), digits);
  }
}
