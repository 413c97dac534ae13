/**
 * Reading back an encoded numeric: decode_numeric_struct after encode_numeric_struct, of
 * cpp/src/common/numeric_utils.cpp, for every number, every limit of decimals and every
 * mantissa that 16 bytes hold.
 *
 * Up to nine decimals the divisor is the power of ten it should be.  Beyond, it is what a
 * 32-bit int keeps of it: zero from 32 decimals on, and before that a number that never
 * happens to give the right quotient.
 */
module NumericReadBack {
  import opened Numeric
  import opened Wrappers

  // ---------------------------------------------------------------- up to nine decimals

  lemma DecodedIs(v: real, val: seq<Byte>, scale: int, sign: Byte)
    requires sign == if v >= 0.0 then 1 else 0
    ensures Decoded(val, scale, sign) == Some(v)
            <==> Divisor(scale) != 0 && Wrap32(LittleEndian(val)) as real / Divisor(scale) as real == Magnitude(v)
  {
    hide LittleEndian, Divisor, Wrap32;
  }

  lemma SmallScale(s: nat)
    requires s <= 9
    ensures Divisor(s) > 0 && AsSignedChar(s) == s
  {
    hide Divisor;
    SmallDivisor(s);
  }

  lemma DividedIs(n: int, s: nat, x: real)
    requires s <= 9 && Divisor(s) > 0
    ensures n as real / Divisor(s) as real == x <==> n as real == Shift(x, s)
  {
    hide Divisor, Shift, Power;
    SmallDivisor(s);
    QuotientIs(n, Divisor(s), x);
    ShiftIsProduct(x, s);
  }

  /** The low 31 bits of a mantissa are the shifted number only if nothing was cut off either way. */
  lemma ReadBack(n: int, y: real)
    requires y >= 0.0 && n == y.Floor
    ensures Wrap32(n) as real == y <==> IsInteger(y) && n < TWO_TO_31
  {
  }

  lemma QuotientIs(n: int, p: int, x: real)
    requires p > 0
    ensures n as real / p as real == x <==> n as real == x * p as real
  {
    var q := p as real;
    if n as real / q == x { assert (n as real / q) * q == n as real; }
    if n as real == x * q { assert x * q / q == x; }
  }

  lemma AbsInteger(x: real)
    ensures IsInteger(Magnitude(x)) <==> IsInteger(x)
  {
    if x == x.Floor as real { assert -x == (-(x.Floor)) as real; }
    if -x == (-x).Floor as real { assert x == (-((-x).Floor)) as real; }
  }

  lemma FewDecimals(v: real, limit: nat, val: seq<Byte>, sign: Byte)
    requires Scale(Magnitude(v), limit) <= 9
    requires LittleEndian(val) == Mantissa(Magnitude(v), limit) && sign == if v >= 0.0 then 1 else 0
    ensures Decoded(val, AsSignedChar(Scale(Magnitude(v), limit)), sign) == Some(v)
            <==> IsInteger(Shift(v, limit)) && Mantissa(Magnitude(v), limit) < TWO_TO_31
  {
    hide LittleEndian, Power, Shift, Scale, Divisor, Wrap32, IsInteger, Magnitude, Decoded, AsSignedChar;
    var x, s := Magnitude(v), Scale(Magnitude(v), limit);
    SmallScale(s);
    DecodedIs(v, val, s, sign);
    DividedIs(Wrap32(LittleEndian(val)), s, x);
    ShiftedIsNatural(v, s);
    ReadBack(LittleEndian(val), Shift(x, s));
    EnoughDecimals(x, limit);
    ShiftAbs(v, limit);
    AbsInteger(Shift(v, limit));
  }

  // ---------------------------------------------------------------- the wrapped divisor

  lemma WrapTimesTen(p: int)
    ensures Wrap32(Wrap32(p) * 10) == Wrap32(p * 10)
  {
    WrapSplit(p);
    WrapDrops(Wrap32(p) * 10, 10 * ((p - Wrap32(p)) / TWO_TO_32));
  }

  lemma WrapSplit(p: int)
    ensures p == Wrap32(p) + (p - Wrap32(p)) / TWO_TO_32 * TWO_TO_32
  {
  }

  lemma WrapDrops(x: int, k: int)
    ensures Wrap32(x + k * TWO_TO_32) == Wrap32(x)
  {
  }

  lemma {:induction false} DivisorIsWrapped(s: nat)
    ensures Divisor(s) == Wrap32(Power(10, s))
  {
    if s > 0 {
      DivisorIsWrapped(s - 1);
      WrapTimesTen(Power(10, s - 1));
    }
  }

  lemma {:induction false} PowersOfTen(s: nat)
    ensures Power(10, s) == Power(2, s) * Power(5, s)
  {
    if s > 0 {
      PowersOfTen(s - 1);
      Interchange(Power(2, s - 1), Power(5, s - 1));
    }
  }

  lemma Interchange(t: int, f: int)
    ensures t * f * 10 == (t * 2) * (f * 5)
  {
  }

  lemma {:induction false} PowerSum(b: nat, i: nat, j: nat)
    ensures Power(b, i + j) == Power(b, i) * Power(b, j)
  {
    if j > 0 {
      PowerSum(b, i, j - 1);
      Associates(Power(b, i), Power(b, j - 1), b);
    }
  }

  lemma Associates(x: int, y: int, z: int)
    ensures x * y * z == x * (y * z)
  {
  }

  lemma TwoTo32()
    ensures Power(2, 32) == TWO_TO_32
  {
    assert Power(2, 8) == 256;
    assert Power(2, 16) == 65536;
    assert Power(2, 24) == 16777216;
  }

  /** From 32 decimals on the divisor is zero. */
  lemma DivisorVanishes(s: nat)
    requires s >= 32
    ensures Divisor(s) == 0
  {
    hide Divisor, Power, Wrap32;
    DivisorIsWrapped(s);
    PowersOfTen(s);
    PowerSum(2, 32, s - 32);
    TwoTo32();
    Associates(TWO_TO_32, Power(2, s - 32), Power(5, s));
    WrapDrops(0, Power(2, s - 32) * Power(5, s));
  }

  // ---------------------------------------------------------------- what the quotient would have to be

  lemma NextPower(b: nat, e: nat)
    requires e > 0
    ensures Power(b, e) == Power(b, e - 1) * b
  {
  }

  /** A product that is a multiple of p^e, one factor of which p does not divide. */
  lemma {:induction false} PrimePower(n: int, m: int, k: int, p: nat, e: nat) returns (d: int)
    requires (p == 2 || p == 5) && n % p != 0 && n * m == k * Power(p, e)
    ensures m == d * Power(p, e)
    decreases e
  {
    if e == 0 {
      d := m;
    } else {
      hide Power;
      var q := Power(p, e - 1);
      NextPower(p, e);
      Associates(k, q, p);
      PrimeFactor(n, m, k * q, p);
      Cancel(n, m / p, k * q, p);
      d := PrimePower(n, m / p, k, p, e - 1);
      Associates(d, q, p);
    }
  }

  lemma PrimeFactor(n: int, m: int, q: int, p: nat)
    requires (p == 2 || p == 5) && n % p != 0 && n * m == q * p
    ensures m % p == 0
  {
    var a, b, r, t := n / p, m / p, n % p, m % p;
    Expand(p, a, r, b, t);
    var z := q - (p * a * b + a * t + b * r);
    assert r * t == p * z;
    if p == 2 { SmallProducts2(r, t, z); } else { SmallProducts5(r, t, z); }
  }

  lemma Expand(p: int, a: int, r: int, b: int, t: int)
    ensures (p * a + r) * (p * b + t) == p * (p * a * b + a * t + b * r) + r * t
  {
  }

  lemma SmallProducts2(r: int, t: int, z: int)
    requires r == 1 && 0 <= t < 2 && r * t == 2 * z
    ensures t == 0
  {
  }

  lemma SmallProducts5(r: int, t: int, z: int)
    requires 1 <= r < 5 && 0 <= t < 5 && r * t == 5 * z
    ensures t == 0
  {
    if r == 1 {} else if r == 2 {} else if r == 3 {} else { assert r == 4; }
  }

  lemma Cancel(n: int, m: int, q: int, p: nat)
    requires p > 0 && n * (m * p) == q * p
    ensures n * m == q
  {
    Associates(n, m, p);
    assert (n * m - q) * p == 0;
  }

  /** A number below one in size that is an integer is zero: the fraction of a quotient by a 32-bit int. */
  lemma ExactQuotient(x: real, p: int, d: int, b: int, w: int, a: int)
    requires d != 0 && -TWO_TO_31 <= d <= TWO_TO_31 && x * d as real == w as real
    requires p == d + b * TWO_TO_32 && (x * p as real).Floor == w + a * TWO_TO_32
    ensures x * p as real == (w + a * TWO_TO_32) as real
    ensures w * p == (w + a * TWO_TO_32) * d
  {
    var z := x * b as real;
    SplitProduct(x, d, b);
    var excess := z - a as real;
    assert 0.0 <= excess * TWO_TO_32 as real < 1.0;
    TimesDivisor(x, d, b, a, w);
    TinyInteger(excess, d, w * b - a * d);
    assert excess == 0.0;
    IntegerProducts(w, d, a, b);
  }

  lemma SplitProduct(x: real, d: int, b: int)
    ensures x * (d + b * TWO_TO_32) as real == x * d as real + x * b as real * TWO_TO_32 as real
  {
    assert (d + b * TWO_TO_32) as real == d as real + b as real * TWO_TO_32 as real;
  }

  lemma TimesDivisor(x: real, d: int, b: int, a: int, w: int)
    requires x * d as real == w as real
    ensures (x * b as real - a as real) * d as real == (w * b - a * d) as real
  {
    var dr, br, ar := d as real, b as real, a as real;
    assert (x * br - ar) * dr == x * dr * br - ar * dr;
    assert w as real * br == (w * b) as real;
    assert ar * dr == (a * d) as real;
  }

  lemma TinyInteger(excess: real, d: int, k: int)
    requires d != 0 && -TWO_TO_31 <= d <= TWO_TO_31
    requires 0.0 <= excess * TWO_TO_32 as real < 1.0 && excess * d as real == k as real
    ensures k == 0 && excess == 0.0
  {
    var dr := d as real;
    if d > 0 {
      SmallerFactor(excess, dr, TWO_TO_31 as real);
    } else {
      SmallerFactor(excess, -dr, TWO_TO_31 as real);
      assert excess * -dr == -(excess * dr);
    }
    assert -1 < k < 1;
  }

  lemma SmallerFactor(x: real, d: real, limit: real)
    requires x >= 0.0 && 0.0 < d <= limit
    ensures 0.0 <= x * d <= x * limit
    ensures x * d == 0.0 ==> x == 0.0
  {
  }

  lemma IntegerProducts(w: int, d: int, a: int, b: int)
    requires w * b - a * d == 0
    ensures w * (d + b * TWO_TO_32) == (w + a * TWO_TO_32) * d
  {
  }

  /** A mantissa is no multiple of ten: one decimal less would have been enough. */
  lemma NotTenfold(x: real, limit: nat, n: int)
    requires Scale(x, limit) >= 1 && Shift(x, Scale(x, limit)) == n as real
    ensures n % 10 != 0
  {
    hide Scale, IsInteger;
    var s := Scale(x, limit);
    ScaleIsLeast(x, limit);
    TenTimes(Shift(x, s - 1), n);
  }

  lemma TenTimes(y: real, n: int)
    requires y * 10.0 == n as real
    ensures n % 10 == 0 ==> IsInteger(y)
  {
    if n % 10 == 0 { assert y == (n / 10) as real; }
  }

  // ---------------------------------------------------------------- it is never that

  /** Powers of five in 32 bits. */
  function Residue(s: nat): int {
    if s == 0 then 1 else Residue(s - 1) * 5 % TWO_TO_32
  }

  lemma {:induction false} ResidueOf(s: nat)
    ensures Residue(s) == Power(5, s) % TWO_TO_32
  {
    if s > 0 {
      ResidueOf(s - 1);
      TimesFive(Power(5, s - 1));
    }
  }

  lemma TimesFive(x: int)
    ensures x % TWO_TO_32 * 5 % TWO_TO_32 == x * 5 % TWO_TO_32
  {
  }

  /** The residues from the s-th, which is r, to the 31st are all more than 2^21 from a multiple of 2^32. */
  predicate FarFrom(s: nat, r: int)
    decreases 32 - s
  {
    s > 31 || (0x20_0000 < r < TWO_TO_32 - 0x20_0000 && FarFrom(s + 1, r * 5 % TWO_TO_32))
  }

  lemma FarStep(s: nat, r: int, quotient: int, next: int)
    requires 0x20_0000 < r < TWO_TO_32 - 0x20_0000 && 0 <= next < TWO_TO_32
    requires r * 5 == quotient * TWO_TO_32 + next && FarFrom(s + 1, next)
    ensures FarFrom(s, r)
  {
    assert r * 5 % TWO_TO_32 == next;
  }

  lemma FarEnds(r: int)
    ensures FarFrom(32, r)
  {
  }

  lemma ResiduesAreFar()
    ensures FarFrom(10, 9765625)
  {
    hide FarFrom;
    FarEnds(2242703233);
    FarStep(31, 2166527565, 2, 2242703233);
    FarStep(30, 433305513, 0, 2166527565);
    FarStep(29, 1804648021, 2, 433305513);
    FarStep(28, 3796903441, 4, 1804648021);
    FarStep(27, 4195354525, 4, 3796903441);
    FarStep(26, 839070905, 0, 4195354525);
    FarStep(25, 167814181, 0, 839070905);
    FarStep(24, 3469536673, 4, 167814181);
    FarStep(23, 2411894253, 2, 3469536673);
    FarStep(22, 2200365769, 2, 2411894253);
    FarStep(21, 1299066613, 1, 2200365769);
    FarStep(20, 1977800241, 2, 1299066613);
    FarStep(19, 3831533885, 4, 1977800241);
    FarStep(18, 766306777, 0, 3831533885);
    FarStep(17, 2730241733, 3, 766306777);
    FarStep(16, 2264035265, 2, 2730241733);
    FarStep(15, 452807053, 0, 2264035265);
    FarStep(14, 1808548329, 2, 452807053);
    FarStep(13, 1220703125, 1, 1808548329);
    FarStep(12, 244140625, 0, 1220703125);
    FarStep(11, 48828125, 0, 244140625);
    FarStep(10, 9765625, 0, 48828125);
  }

  lemma {:induction false} FarAt(i: nat, s: nat)
    requires FarFrom(i, Residue(i)) && i <= s <= 31
    ensures 0x20_0000 < Residue(s) < TWO_TO_32 - 0x20_0000
    decreases s - i
  {
    if i < s { FarAt(i + 1, s); }
  }

  lemma TenthResidue()
    ensures Residue(10) == 9765625
  {
    hide Residue;
    ResidueOf(10);
    assert Power(5, 5) == 3125;
  }

  lemma Congruent(x: int, e: int, f: int)
    requires -0x20_0000 <= e <= 0x20_0000 && 0x20_0000 < x % TWO_TO_32 < TWO_TO_32 - 0x20_0000
    ensures x - e != f * TWO_TO_32
  {
  }

  /** Nothing within 2^21 of zero agrees with 5^s in 32 bits. */
  lemma TooFar(s: nat, e: int, f: int)
    requires 10 <= s <= 31 && -0x20_0000 <= e <= 0x20_0000
    ensures Power(5, s) - e != f * TWO_TO_32
  {
    hide FarFrom, Residue, Power;
    ResidueOf(s);
    ResiduesAreFar();
    TenthResidue();
    FarAt(10, s);
    Congruent(Power(5, s), e, f);
  }

  lemma TwoTo10()
    ensures Power(2, 10) == 1024
  {
  }

  lemma TwoTo31()
    ensures Power(2, 31) == TWO_TO_31
  {
    assert Power(2, 8) == 256;
    assert Power(2, 16) == 65536;
    assert Power(2, 24) == 16777216;
  }

  lemma SmallTwo(s: nat)
    requires 10 <= s <= 31
    ensures 1024 <= Power(2, s) <= TWO_TO_31
  {
    hide Power;
    TwoTo10();
    TwoTo31();
    PowerMonotone(2, 10, s);
    PowerMonotone(2, s, 31);
  }

  lemma {:induction false} OddFive(s: nat)
    ensures Power(5, s) % 2 == 1 && (s >= 1 ==> Power(5, s) >= 5)
  {
    if s > 0 {
      hide Power;
      OddFive(s - 1);
      NextPower(5, s);
      OddTimesFive(Power(5, s - 1));
    }
  }

  lemma OddTimesFive(x: int)
    requires x % 2 == 1 && x > 0
    ensures x * 5 % 2 == 1 && x * 5 >= 5
  {
    assert x * 5 == 2 * (5 * (x / 2) + 2) + 1;
  }

  lemma BigPower(s: nat)
    requires s >= 10
    ensures Power(10, s) > TWO_TO_31
  {
    PowerMonotone(10, 10, s);
    assert Power(10, 5) == 100000;
    assert Power(10, 10) == 10000000000;
  }

  lemma Distribute(f: int, t: int, c: int)
    ensures f * (t - c) == t * f - c * f
  {
  }

  lemma Times(x: int, y: int, z: int)
    requires x >= 0 && y <= z
    ensures x * y <= x * z
  {
  }

  lemma Quotient(f: int, c: int, d: int)
    requires f >= 5 && d == c * f && -TWO_TO_31 <= d < TWO_TO_31
    ensures -TWO_TO_31 < c < TWO_TO_31
  {
    if c >= 0 { Times(c, 5, f); } else { Times(-c, 5, f); }
  }

  lemma OddPartIsSmall(d: int, e: int, t: int)
    requires t >= 1024 && d == e * t && -TWO_TO_31 <= d < TWO_TO_31
    ensures -0x20_0000 <= e <= 0x20_0000
  {
    if e >= 0 { Times(e, 1024, t); } else { Times(-e, 1024, t); }
  }

  /** A divisor that is a multiple of 5^s is the power of ten itself. */
  lemma ByFiveIsExact(s: nat, d: int, c: int, b: int)
    requires 10 <= s <= 31 && -TWO_TO_31 <= d < TWO_TO_31
    requires Power(10, s) == d + b * TWO_TO_32 && d == c * Power(5, s)
    ensures d == Power(10, s)
  {
    hide Power;
    var t, f := Power(2, s), Power(5, s);
    PowersOfTen(s);
    SmallTwo(s);
    OddFive(s);
    Distribute(f, t, c);
    TwoTo32();
    var e := PrimePower(f, t - c, b, 2, 32);
    Quotient(f, c, d);
    assert e == 0;
  }

  /** Between 10 and 31 decimals no mantissa gives the right quotient. */
  lemma NoQuotient(s: nat, d: int, b: int, n: int, w: int, a: int)
    requires 10 <= s <= 31 && -TWO_TO_31 <= d < TWO_TO_31 && Power(10, s) == d + b * TWO_TO_32
    requires n % 10 != 0 && n == w + a * TWO_TO_32
    ensures w * Power(10, s) != n * d
  {
    hide Power;
    PowersOfTen(s);
    if n % 5 != 0 { NoQuotientByFive(s, d, b, n, w); } else { NoOddQuotient(s, d, n, w, a); }
  }

  lemma NoQuotientByFive(s: nat, d: int, b: int, n: int, w: int)
    requires 10 <= s <= 31 && -TWO_TO_31 <= d < TWO_TO_31 && Power(10, s) == d + b * TWO_TO_32 && n % 5 != 0
    ensures w * (Power(2, s) * Power(5, s)) != n * d
  {
    hide Power;
    var t, f := Power(2, s), Power(5, s);
    BigPower(s);
    if w * (t * f) == n * d {
      Associates(w, t, f);
      var c := PrimePower(n, d, w * t, 5, s);
      ByFiveIsExact(s, d, c, b);
    }
  }

  lemma NoOddQuotient(s: nat, d: int, n: int, w: int, a: int)
    requires 10 <= s <= 31 && -TWO_TO_31 <= d < TWO_TO_31 && n % 2 != 0 && n == w + a * TWO_TO_32
    ensures w * (Power(2, s) * Power(5, s)) != n * d
  {
    hide Power;
    var t, f := Power(2, s), Power(5, s);
    SmallTwo(s);
    TwoTo32();
    if w * (t * f) == n * d {
      Reorder(w, t, f);
      var e := PrimePower(n, d, w * f, 2, s);
      OddPartIsSmall(d, e, t);
      Cancel(n, e, w * f, t);
      Remainders(n, f, e, w, a);
      var g := PrimePower(n, f - e, a * f, 2, 32);
      TooFar(s, e, g);
    }
  }

  lemma Reorder(w: int, t: int, f: int)
    ensures w * (t * f) == w * f * t
  {
  }

  lemma Remainders(n: int, f: int, e: int, w: int, a: int)
    requires n == w + a * TWO_TO_32 && n * e == w * f
    ensures n * (f - e) == a * f * TWO_TO_32
  {
  }

  // ---------------------------------------------------------------- ten decimals and more

  lemma NotWithin31(x: real, limit: nat, n: int)
    requires 10 <= Scale(x, limit) <= 31 && n == Mantissa(x, limit) && Divisor(Scale(x, limit)) != 0
    ensures Wrap32(n) as real / Divisor(Scale(x, limit)) as real != x
  {
    hide Shift, Scale, Divisor, Power;
    var s := Scale(x, limit);
    var d, w, p := Divisor(s), Wrap32(n), Power(10, s);
    DivisorIsWrapped(s);
    WrapSplit(p);
    WrapSplit(n);
    var b, a := (p - d) / TWO_TO_32, (n - w) / TWO_TO_32;
    if w as real / d as real == x {
      AnyQuotient(w, d, x);
      ShiftIsProduct(x, s);
      ExactQuotient(x, p, d, b, w, a);
      NotTenfold(x, limit, n);
      NoQuotient(s, d, b, n, w, a);
    }
  }

  lemma AnyQuotient(w: int, d: int, x: real)
    requires d != 0 && w as real / d as real == x
    ensures x * d as real == w as real
  {
  }

  /** Past 127 the scale wraps too, but such a number is too small for any quotient. */
  lemma NotPast127(x: real, limit: nat, n: int, d: int)
    requires Scale(x, limit) >= 64 && n == Mantissa(x, limit) < Power(256, MAX_NUMERIC_LEN)
    requires x >= 0.0 && d != 0 && -TWO_TO_31 <= d < TWO_TO_31
    ensures Wrap32(n) as real / d as real != x
  {
    hide Scale;
    var s, w := Scale(x, limit), Wrap32(n);
    if w as real / d as real == x {
      AnyQuotient(w, d, x);
      TooSmall(x, s);
      TinyInteger(x, d, w);
      assert IsInteger(0.0);
      ScaleOfZero(limit);
    }
  }

  lemma ScaleOfZero(limit: nat)
    ensures Scale(0.0, limit) == 0
  {
  }

  lemma TooSmall(x: real, s: nat)
    requires s >= 64 && x >= 0.0 && Shift(x, s) < Power(256, MAX_NUMERIC_LEN) as real + 1.0
    ensures 0.0 <= x * TWO_TO_32 as real < 1.0
  {
    hide Shift, Power;
    ShiftGrows(x, 64, s);
    ShiftIsProduct(x, 64);
    LargePowers();
    TinyFactor(x, Power(10, 64) as real);
  }

  lemma TinyFactor(x: real, p: real)
    requires p == 10000000000000000000000000000000000000000000000000000000000000000.0
    requires 0.0 <= x * p < 0x1_0000_0000_0000_0000_0000_0000_0000_0000 as real + 1.0
    ensures 0.0 <= x * TWO_TO_32 as real < 1.0
  {
    assert x * p == x * 10000000000000000000000000000000000000000000000000000000000000000.0;
    assert TWO_TO_32 as real == 4294967296.0;
    assert 0x1_0000_0000_0000_0000_0000_0000_0000_0000 as real == 340282366920938463463374607431768211456.0;
  }

  lemma LargePowers()
    ensures Power(10, 64) == 10000000000000000000000000000000000000000000000000000000000000000
    ensures Power(256, 16) == 0x1_0000_0000_0000_0000_0000_0000_0000_0000
  {
    assert Power(10, 8) == 100000000;
    assert Power(10, 16) == 10000000000000000;
    PowerSum(10, 16, 16);
    PowerSum(10, 32, 32);
    assert Power(256, 4) == 0x1_0000_0000;
    assert Power(256, 8) == 0x1_0000_0000_0000_0000;
    PowerSum(256, 8, 8);
  }

  lemma ManyDecimals(v: real, limit: nat, val: seq<Byte>, sign: Byte)
    requires Scale(Magnitude(v), limit) >= 10 && |val| == MAX_NUMERIC_LEN
    requires LittleEndian(val) == Mantissa(Magnitude(v), limit) && sign == if v >= 0.0 then 1 else 0
    ensures Decoded(val, AsSignedChar(Scale(Magnitude(v), limit)), sign) != Some(v)
  {
    hide LittleEndian, Power, Scale, Divisor, Wrap32, Shift, Decoded, Mantissa, AsSignedChar;
    var x, s := Magnitude(v), Scale(Magnitude(v), limit);
    var c := AsSignedChar(s);
    DecodedIs(v, val, c, sign);
    ScaleInAByte(s);
    if s <= 31 {
      if Divisor(s) != 0 { NotWithin31(x, limit, LittleEndian(val)); }
    } else if s <= 127 {
      DivisorVanishes(s);
    } else if Divisor(c) != 0 {
      DivisorFits(c);
      LittleEndianBound(val);
      NotPast127(x, limit, LittleEndian(val), Divisor(c));
    }
  }

  lemma ScaleInAByte(s: nat)
    ensures s <= 127 ==> AsSignedChar(s) == s
  {
  }

  lemma DivisorFits(c: int)
    ensures -TWO_TO_31 <= Divisor(c) < TWO_TO_31
  {
  }

  // ---------------------------------------------------------------- the theorem

  /**
   * The driver reads back the number it encoded exactly when the decimals allowed are enough,
   * at most nine of them are needed, and the mantissa fits 31 bits.
   */
  lemma DecodeAfterEncode(v: real, limit: nat, val: seq<Byte>, sign: Byte)
    requires |val| == MAX_NUMERIC_LEN && LittleEndian(val) == Mantissa(Magnitude(v), limit)
    requires sign == if v >= 0.0 then 1 else 0
    ensures Decoded(val, AsSignedChar(Scale(Magnitude(v), limit)), sign) == Some(v)
            <==> (&& IsInteger(Shift(v, limit)) && Scale(Magnitude(v), limit) <= 9
                  && Mantissa(Magnitude(v), limit) < TWO_TO_31)
  {
    hide LittleEndian, Shift, Scale, Decoded, Mantissa, AsSignedChar, IsInteger;
    if Scale(Magnitude(v), limit) <= 9 {
      FewDecimals(v, limit, val, sign);
    } else {
      ManyDecimals(v, limit, val, sign);
    }
  }

  // ---------------------------------------------------------------- two numbers that are not read back

  /** A number that is 1 once shifted by k places needs all k. */
  lemma {:induction false} ScaleOfUnit(x: real, k: nat)
    requires Shift(x, k) == 1.0
    ensures Scale(x, k) == k && Mantissa(x, k) == 1
    decreases k
  {
    if k > 0 {
      ShiftFirst(x, k);
      ScaleOfUnit(x * 10.0, k - 1);
      if x >= 0.0 { ShiftGrows(x, 1, k); }
      assert Shift(x, 1) == x * 10.0;
      assert 0.0 < x <= 0.1;
      ShiftFirst(x, k);
    }
  }

  const ONE: seq<Byte> := [1, 0, 0, 0, 0, 0, 0, 0, 0, 0, 0, 0, 0, 0, 0, 0]
  const TWO_TO_31_BYTES: seq<Byte> := [0, 0, 0, 128, 0, 0, 0, 0, 0, 0, 0, 0, 0, 0, 0, 0]

  lemma ValueOfOne()
    ensures LittleEndian(ONE) == 1
  {
    ZerosAreZero(ONE[1..]);
  }

  lemma ValueOf2To31()
    ensures LittleEndian(TWO_TO_31_BYTES) == TWO_TO_31
  {
    var b := TWO_TO_31_BYTES;
    ZerosAreZero(b[4..]);
    assert b[1..][1..] == b[2..] && b[2..][1..] == b[3..] && b[3..][1..] == b[4..];
    assert LittleEndian(b[3..]) == 128;
    assert LittleEndian(b[2..]) == 32768;
  }

  /** 10^-10, encoded with ten decimals as 1, is read back as 1/1410065408. */
  lemma TenthDecimalIsMisread()
    ensures (var v := 1.0 / 10000000000.0;
             && LittleEndian(ONE) == Mantissa(v, 10) == 1 && Scale(v, 10) == 10
             && Decoded(ONE, 10, 1) == Some(1.0 / 1410065408.0) && Decoded(ONE, 10, 1) != Some(v))
  {
    hide LittleEndian, Scale, Shift, Power, Divisor, Mantissa, Wrap32;
    var v := 1.0 / 10000000000.0;
    TenToTheTenth();
    ShiftIsProduct(v, 10);
    ScaleOfUnit(v, 10);
    ValueOfOne();
    assert Wrap32(1) == 1;
  }

  lemma TenToTheTenth()
    ensures Power(10, 10) == 10000000000 && Divisor(10) == 1410065408
  {
    assert Power(10, 5) == 100000;
  }

  /** 2147483648, encoded without decimals, is read back negative. */
  lemma LargeMantissaIsMisread()
    ensures (var v := 2147483648.0;
             && LittleEndian(TWO_TO_31_BYTES) == Mantissa(v, 8) && Scale(v, 8) == 0
             && Decoded(TWO_TO_31_BYTES, 0, 1) == Some(-2147483648.0))
  {
    hide LittleEndian;
    ValueOf2To31();
  }
}
