/** Exact decimal arithmetic in the way the send form uses bignumber.js: a value
    is NaN or a finite decimal m / 10^e. Every value the operations below return
    is canonical (no trailing zero in its fraction), so two canonical values are
    equal exactly when they denote the same number. */
module BigDecimal {
  import opened Text

  datatype Big = NaN | Num(m: int, e: nat)

  /** The number a finite value denotes. */
  ghost function Value(b: Big): real
    requires b.Num?
  {
    b.m as real / Pow10(b.e) as real
  }

  /** The fraction has no trailing zero. */
  predicate Canonical(b: Big)
  {
    b.Num? ==> b.e == 0 || b.m % 10 != 0
  }

  lemma ScaleQuotient(a: int, p: nat, k: nat)
    requires p > 0 && k > 0
    ensures (a * k) as real / (p * k) as real == a as real / p as real
  {
    var q := a as real / p as real;
    assert q * p as real == a as real;
    assert (a * k) as real == a as real * k as real;
    assert (p * k) as real == p as real * k as real;
    assert q * (p * k) as real == (a * k) as real;
  }

  lemma SumQuotient(x: int, y: int, p: nat)
    requires p > 0
    ensures (x + y) as real / p as real == x as real / p as real + y as real / p as real
  {
  }

  lemma ProductQuotient(x: int, p: nat, y: int, q: nat)
    requires p > 0 && q > 0
    ensures (x * y) as real / (p * q) as real == (x as real / p as real) * (y as real / q as real)
  {
    var u, v := x as real / p as real, y as real / q as real;
    assert u * p as real == x as real;
    assert v * q as real == y as real;
    assert (x * y) as real == x as real * y as real;
    assert (p * q) as real == p as real * q as real;
    assert (u * v) * (p * q) as real == (u * p as real) * (v * q as real);
  }

  /** Equal quotients over positive denominators cross-multiply. */
  lemma CrossMultiply(x: int, p: nat, y: int, q: nat)
    requires p > 0 && q > 0
    requires x as real / p as real == y as real / q as real
    ensures x * q == y * p
  {
    var u := x as real / p as real;
    assert u * p as real == x as real;
    assert u * q as real == y as real;
    assert (x * q) as real == x as real * q as real == u * p as real * q as real;
    assert (y * p) as real == y as real * p as real == u * q as real * p as real;
  }

  /** Two canonical values are the same value exactly when they denote the
      same number. */
  lemma CanonicalUnique(a: Big, b: Big)
    requires a.Num? && b.Num? && Canonical(a) && Canonical(b)
    requires Value(a) == Value(b)
    ensures a == b
  {
    if a.e <= b.e {
      CanonicalUniqueOrdered(a, b);
    } else {
      CanonicalUniqueOrdered(b, a);
    }
  }

  lemma CanonicalUniqueOrdered(a: Big, b: Big)
    requires a.Num? && b.Num? && Canonical(a) && Canonical(b)
    requires Value(a) == Value(b) && a.e <= b.e
    ensures a == b
  {
    var k := b.e - a.e;
    var pa, pk := Pow10(a.e), Pow10(k);
    Pow10Add(a.e, k);
    assert Pow10(b.e) == pa * pk;
    CrossMultiply(a.m, pa, b.m, Pow10(b.e));
    assert a.m * (pa * pk) == b.m * pa;
    Regroup(a.m, pa, pk);
    Cancel(a.m * pk, b.m, pa);
    if k > 0 {
      TimesPowerOfTen(a.m, k);
    } else {
      assert pk == 1;
    }
  }

  lemma Regroup(x: int, p: int, q: int)
    ensures x * (p * q) == (x * q) * p
  {
  }

  /** A positive factor cancels on both sides. */
  lemma Cancel(x: int, y: int, p: int)
    requires p > 0 && x * p == y * p
    ensures x == y
  {
    assert (x - y) * p == x * p - y * p == 0;
  }

  lemma TimesPowerOfTen(x: int, k: nat)
    requires k > 0
    ensures (x * Pow10(k)) % 10 == 0
  {
    var q := x * Pow10(k - 1);
    assert Pow10(k) == 10 * Pow10(k - 1);
    assert x * Pow10(k) == q * 10 by {
      assert x * (10 * Pow10(k - 1)) == (x * Pow10(k - 1)) * 10;
    }
  }

  /** Strips trailing zeros of the fraction without changing the value. */
  function Normalize(m: int, e: nat): (b: Big)
    ensures b.Num? && Canonical(b)
    ensures Value(b) == m as real / Pow10(e) as real
    decreases e
  {
    if e > 0 && m % 10 == 0 then
      ScaleQuotient(m / 10, Pow10(e - 1), 10);
      Normalize(m / 10, e - 1)
    else
      Num(m, e)
  }

  lemma NormalizeCanonical(b: Big)
    requires b.Num? && Canonical(b)
    ensures Normalize(b.m, b.e) == b
  {
  }

  /** The canonical spelling of any value. */
  function Canon(b: Big): (c: Big)
    ensures Canonical(c) && c.Num? == b.Num?
    ensures c.Num? ==> Value(c) == Value(b)
  {
    if b.NaN? then NaN else Normalize(b.m, b.e)
  }

  function Max(a: nat, b: nat): nat { if a < b then b else a }

  /** The numerator of b over the common denominator 10^e. */
  function Scaled(b: Big, e: nat): int
    requires b.Num? && b.e <= e
  {
    b.m * Pow10(e - b.e)
  }

  lemma ScaledValue(b: Big, e: nat)
    requires b.Num? && b.e <= e
    ensures Scaled(b, e) as real / Pow10(e) as real == Value(b)
  {
    Pow10Add(b.e, e - b.e);
    assert Pow10(e) == Pow10(b.e) * Pow10(e - b.e);
    ScaleQuotient(b.m, Pow10(b.e), Pow10(e - b.e));
  }

  /** BigNumber.plus: NaN if either operand is NaN, otherwise the exact sum. */
  function Plus(a: Big, b: Big): (r: Big)
    ensures Canonical(r) && (r.Num? <==> a.Num? && b.Num?)
    ensures r.Num? ==> Value(r) == Value(a) + Value(b)
  {
    if a.NaN? || b.NaN? then NaN
    else
      var e := Max(a.e, b.e);
      ScaledValue(a, e);
      ScaledValue(b, e);
      SumQuotient(Scaled(a, e), Scaled(b, e), Pow10(e));
      Normalize(Scaled(a, e) + Scaled(b, e), e)
  }

  function Negated(b: Big): (r: Big)
    ensures Canonical(r) && r.Num? == b.Num?
    ensures r.Num? ==> Value(r) == -Value(b)
  {
    if b.NaN? then NaN
    else
      NegatedQuotient(b.m, Pow10(b.e));
      Normalize(-b.m, b.e)
  }

  lemma NegatedQuotient(m: int, p: nat)
    requires p > 0
    ensures (-m) as real / p as real == -(m as real / p as real)
  {
    var q := m as real / p as real;
    assert q * p as real == m as real;
    assert (-q) * p as real == (-m) as real;
  }

  /** BigNumber.minus. */
  function Minus(a: Big, b: Big): (r: Big)
    ensures Canonical(r) && (r.Num? <==> a.Num? && b.Num?)
    ensures r.Num? ==> Value(r) == Value(a) - Value(b)
  {
    Plus(a, Negated(b))
  }

  /** BigNumber.times. */
  function Times(a: Big, b: Big): (r: Big)
    ensures Canonical(r) && (r.Num? <==> a.Num? && b.Num?)
    ensures r.Num? ==> Value(r) == Value(a) * Value(b)
  {
    if a.NaN? || b.NaN? then NaN
    else
      Pow10Add(a.e, b.e);
      ProductQuotient(a.m, Pow10(a.e), b.m, Pow10(b.e));
      Normalize(a.m * b.m, a.e + b.e)
  }

  /** Scaling both numerators to one denominator preserves their order. */
  lemma ScaledOrder(a: Big, b: Big)
    requires a.Num? && b.Num?
    ensures Scaled(a, Max(a.e, b.e)) < Scaled(b, Max(a.e, b.e)) <==> Value(a) < Value(b)
  {
    var e := Max(a.e, b.e);
    ScaledValue(a, e);
    ScaledValue(b, e);
    QuotientOrder(Scaled(a, e) as real, Scaled(b, e) as real, Pow10(e) as real);
  }

  lemma QuotientOrder(x: real, y: real, p: real)
    requires p > 0.0
    ensures x / p < y / p <==> x < y
  {
    var u, v := x / p, y / p;
    assert u * p == x && v * p == y;
    assert (v - u) * p == y - x;
    SignOfProduct(v - u, p);
  }

  lemma SignOfProduct(d: real, p: real)
    requires p > 0.0
    ensures d > 0.0 <==> d * p > 0.0
  {
  }

  /** BigNumber.isLessThan: false whenever either operand is NaN. */
  predicate IsLessThan(a: Big, b: Big)
    ensures IsLessThan(a, b) <==> a.Num? && b.Num? && Value(a) < Value(b)
  {
    if a.NaN? || b.NaN? then false
    else
      ScaledOrder(a, b);
      Scaled(a, Max(a.e, b.e)) < Scaled(b, Max(a.e, b.e))
  }

  /** BigNumber.isGreaterThan. */
  predicate IsGreaterThan(a: Big, b: Big)
    ensures IsGreaterThan(a, b) <==> a.Num? && b.Num? && Value(a) > Value(b)
  {
    IsLessThan(b, a)
  }

  /** BigNumber.lte. */
  predicate IsLessThanOrEqualTo(a: Big, b: Big)
    ensures IsLessThanOrEqualTo(a, b) <==> a.Num? && b.Num? && Value(a) <= Value(b)
  {
    a.Num? && b.Num? && !IsLessThan(b, a)
  }

  ghost predicate IsWhole(x: real) { x == x.Floor as real }

  lemma CanonicalFractionNotWhole(c: Big)
    requires c.Num? && Canonical(c) && c.e > 0
    ensures !IsWhole(Value(c))
  {
    if IsWhole(Value(c)) {
      WholeIsMultipleOfTen(c);
    }
  }

  /** A whole value with fraction digits has a numerator ending in 0. */
  lemma WholeIsMultipleOfTen(c: Big)
    requires c.Num? && c.e > 0 && IsWhole(Value(c))
    ensures c.m % 10 == 0
  {
    var k := Value(c).Floor;
    var p := Pow10(c.e);
    assert Value(c) == k as real;
    assert Value(c) * p as real == c.m as real;
    assert (k * p) as real == k as real * p as real;
    assert c.m == k * p;
    TimesPowerOfTen(k, c.e);
  }

  /** BigNumber.isInteger: a finite value with no fractional part. */
  predicate IsInteger(b: Big)
    ensures IsInteger(b) <==> b.Num? && IsWhole(Value(b))
  {
    if b.NaN? then false
    else
      var c := Normalize(b.m, b.e);
      if c.e > 0 then CanonicalFractionNotWhole(c); false
      else WholeAtScaleZero(c); true
  }

  lemma WholeAtScaleZero(c: Big)
    requires c.Num? && c.e == 0
    ensures IsWhole(Value(c))
  {
    assert Pow10(0) == 1;
    assert Value(c) == c.m as real / 1 as real == c.m as real;
    assert (c.m as real).Floor == c.m;
  }

  // Text form

  /** First index of c in s, or |s| when there is none. */
  function IndexOf(s: string, c: char): (i: nat)
    ensures i <= |s| && (i < |s| ==> s[i] == c)
    ensures forall j :: 0 <= j < i ==> s[j] != c
  {
    if s == [] then 0
    else if s[0] == c then 0
    else 1 + IndexOf(s[1..], c)
  }

  /** An unsigned decimal read as its digits without the point, and the
      number of digits after the point. */
  datatype Unsigned = Malformed | Digits(mag: nat, scale: nat)

  function ParseUnsigned(body: string): Unsigned
  {
    var k := IndexOf(body, '.');
    var ip := body[..k];
    var fp := if k < |body| then body[k + 1..] else "";
    if AllDigits(ip) && AllDigits(fp) && |ip| + |fp| > 0 then
      DigitsValueAppend(ip, fp);
      Digits(DigitsValue(ip + fp), |fp|)
    else
      Malformed
  }

  /** new BigNumber(s) for the plain decimal syntax -?(digits(.digits?)?|.digits);
      every other string is NaN. */
  function Parse(s: string): (b: Big)
    ensures Canonical(b)
  {
    var neg := |s| > 0 && s[0] == '-';
    match ParseUnsigned(if neg then s[1..] else s)
    case Malformed => NaN
    case Digits(mag, scale) => Normalize(if neg then -(mag as int) else mag, scale)
  }

  function Abs(m: int): nat { if m < 0 then -m else m }

  lemma DivMod(a: nat, p: nat)
    requires p > 0
    ensures 0 <= a / p && 0 <= a % p < p && a == (a / p) * p + a % p
  {
  }

  /** The digits before the point. */
  function IntPart(c: Big): nat
    requires c.Num?
  {
    DivMod(Abs(c.m), Pow10(c.e));
    Abs(c.m) / Pow10(c.e)
  }

  /** The digits after the point, as a number below 10^e. */
  function FracPart(c: Big): nat
    requires c.Num?
  {
    DivMod(Abs(c.m), Pow10(c.e));
    Abs(c.m) % Pow10(c.e)
  }

  function Fraction(c: Big): string
    requires c.Num?
  {
    if c.e > 0 then "." + PadZeros(NatToString(FracPart(c)), c.e) else ""
  }

  /** The magnitude's spelling: integer part and fraction. */
  function Magnitude(c: Big): string
    requires c.Num?
  {
    NatToString(IntPart(c)) + Fraction(c)
  }

  /** Plain spelling of a canonical value: sign, then the magnitude. */
  function Spell(c: Big): string
    requires c.Num?
  {
    if c.m < 0 then "-" + Magnitude(c) else Magnitude(c)
  }

  /** BigNumber.toFixed() (and toString() below 1e21): "NaN" or the plain
      decimal spelling; reading it back gives the same value. */
  function Format(b: Big): (s: string)
    ensures Parse(s) == Canon(b)
  {
    if b.NaN? then "NaN"
    else
      var c := Normalize(b.m, b.e);
      SpellParses(c);
      Spell(c)
  }

  lemma FractionShape(c: Big)
    requires c.Num?
    ensures c.e == 0 ==> Fraction(c) == ""
    ensures c.e > 0 ==> |Fraction(c)| == c.e + 1 && Fraction(c)[0] == '.'
    ensures c.e > 0 ==> AllDigits(Fraction(c)[1..])
    ensures c.e > 0 ==> DigitsValue(Fraction(c)[1..]) == Abs(c.m) % Pow10(c.e)
  {
    if c.e > 0 {
      var r := Abs(c.m) % Pow10(c.e);
      NatToStringLength(r, c.e);
      PadZerosValue(NatToString(r), c.e);
      NatToStringValue(r);
      assert Fraction(c)[1..] == PadZeros(NatToString(r), c.e);
    }
  }

  lemma UnsignedParses(c: Big)
    requires c.Num?
    ensures ParseUnsigned(Magnitude(c)) == Digits(Abs(c.m), c.e)
  {
    var ip := NatToString(IntPart(c));
    var tail := Fraction(c);
    var body := ip + tail;
    assert Magnitude(c) == body;
    FractionShape(c);
    var k := IndexOf(body, '.');
    assert forall j :: 0 <= j < |ip| ==> body[j] == ip[j] && body[j] != '.';
    if c.e > 0 {
      assert body[|ip|] == '.';
      assert k == |ip|;
      assert body[k + 1..] == tail[1..];
    } else {
      assert body == ip;
    }
    assert k == |ip| && body[..k] == ip;
    var fp := if k < |body| then body[k + 1..] else "";
    assert |fp| == c.e;
    DigitsValueAppend(ip, fp);
    NatToStringValue(IntPart(c));
    DivMod(Abs(c.m), Pow10(c.e));
    assert DigitsValue(fp) == FracPart(c);
    assert DigitsValue(ip + fp) == Abs(c.m);
  }

  lemma ParseSigned(s: string, mag: nat, scale: nat)
    requires |s| > 0 && s[0] == '-' && ParseUnsigned(s[1..]) == Digits(mag, scale)
    ensures Parse(s) == Normalize(-(mag as int), scale)
  {
  }

  lemma ParsePlain(s: string, mag: nat, scale: nat)
    requires |s| > 0 && s[0] != '-' && ParseUnsigned(s) == Digits(mag, scale)
    ensures Parse(s) == Normalize(mag, scale)
  {
  }

  lemma SpellParses(c: Big)
    requires c.Num? && Canonical(c)
    ensures Parse(Spell(c)) == c
  {
    var body := Magnitude(c);
    UnsignedParses(c);
    NormalizeCanonical(c);
    if c.m < 0 {
      var s := "-" + body;
      assert Spell(c) == s;
      assert s[1..] == body;
      ParseSigned(s, Abs(c.m), c.e);
      assert -(Abs(c.m) as int) == c.m;
    } else {
      assert Spell(c) == body;
      assert body[0] == NatToString(IntPart(c))[0];
      assert IsDigit(body[0]);
      ParsePlain(body, Abs(c.m), c.e);
      assert Abs(c.m) as int == c.m;
    }
  }

  const Zero: Big := Num(0, 0)

  lemma CanonCanonical(b: Big)
    requires Canonical(b)
    ensures Canon(b) == b
  {
    if b.Num? { NormalizeCanonical(b); }
  }

  /** Reading a canonical value's spelling gives the value back. */
  lemma ParseFormat(b: Big)
    requires Canonical(b)
    ensures Parse(Format(b)) == b
  {
    CanonCanonical(b);
  }

  /** Spelling what was read from a spelling gives the same spelling. */
  lemma FormatParseFormat(b: Big)
    ensures Format(Parse(Format(b))) == Format(b)
  {
    if b.Num? {
      var c := Normalize(b.m, b.e);
      NormalizeCanonical(c);
      assert Parse(Format(b)) == c;
    }
  }

  /** A natural number's decimal spelling reads back as that number. */
  lemma ParseNatToString(n: nat)
    ensures Parse(NatToString(n)) == Num(n, 0)
  {
    var c := Num(n, 0);
    assert Pow10(0) == 1;
    assert IntPart(c) == n;
    assert Fraction(c) == "";
    assert Magnitude(c) == NatToString(n) + "" == NatToString(n);
    assert Spell(c) == NatToString(n);
    SpellParses(c);
  }

  /** "0" reads as zero. */
  lemma ParseZeroString()
    ensures Parse("0") == Zero && Value(Zero) == 0.0
  {
    ParseNatToString(0);
    assert NatToString(0) == "0";
    assert Pow10(0) == 1;
  }

  /** A canonical integer's spelling comes out of Format unchanged. */
  lemma FormatNat(n: nat)
    ensures Format(Num(n, 0)) == NatToString(n)
  {
    var c := Num(n, 0);
    assert Pow10(0) == 1;
    assert IntPart(c) == n;
    assert Fraction(c) == "";
    assert Magnitude(c) == NatToString(n) + "" == NatToString(n);
  }

  /** Zero is the identity of addition. */
  lemma PlusZero(b: Big)
    requires Canonical(b)
    ensures Plus(Zero, b) == b
  {
    if b.Num? {
      assert Value(Zero) == 0.0;
      CanonicalUnique(Plus(Zero, b), b);
    }
  }

  /** Subtracting and adding back the same number gives the value back. */
  lemma MinusPlus(a: Big, b: Big)
    requires Canonical(a) && a.Num? && b.Num?
    ensures Plus(Minus(a, b), b) == a
  {
    CanonicalUnique(Plus(Minus(a, b), b), a);
  }
}
