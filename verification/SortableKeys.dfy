/** Integer keys whose order is the order of the floats they stand for. A pattern is its bits,
    most significant first, so the two bit operations of the map are what they are in the code:
    inverting every bit, and flipping the sign bit. All results hold at every width; the code
    uses 64 and 32 bits. */
module SortableKeys {
  import opened Naturals

  type Bits = seq<bool>

  // ---------------------------------------------------------------------------
  // Bits as unsigned numbers
  // ---------------------------------------------------------------------------

  function Pow2(n: nat): (r: nat)
    ensures r > 0
  {
    if n == 0 then 1 else 2 * Pow2(n - 1)
  }

  function Value(b: Bits): (v: nat)
    ensures v < Pow2(|b|)
  {
    if b == [] then 0 else (if b[0] then Pow2(|b| - 1) else 0) + Value(b[1..])
  }

  function Not(b: Bits): (r: Bits)
    ensures |r| == |b| && forall i | 0 <= i < |b| :: r[i] == !b[i]
  {
    seq(|b|, i requires 0 <= i < |b| => !b[i])
  }

  lemma {:induction false} NotValue(b: Bits)
    ensures Value(Not(b)) == Pow2(|b|) - 1 - Value(b)
  {
    if b != [] {
      NotValue(b[1..]);
      assert Not(b)[1..] == Not(b[1..]);
    }
  }

  lemma {:induction false} ValueInjective(a: Bits, b: Bits)
    requires |a| == |b| && Value(a) == Value(b)
    ensures a == b
  {
    if a != [] {
      ValueInjective(a[1..], b[1..]);
      assert a == [a[0]] + a[1..] && b == [b[0]] + b[1..];
    }
  }

  lemma {:induction false} ValueConcat(a: Bits, b: Bits)
    ensures Value(a + b) == Value(a) * Pow2(|b|) + Value(b)
  {
    if a == [] {
      assert a + b == b;
    } else {
      ValueConcat(a[1..], b);
      assert (a + b)[1..] == a[1..] + b;
      Pow2Sum(|a| - 1, |b|);
      Distribute(Pow2(|a| - 1), Value(a[1..]), Pow2(|b|));
    }
  }

  lemma {:induction false} Pow2Sum(m: nat, n: nat)
    ensures Pow2(m + n) == Pow2(m) * Pow2(n)
  {
    if m > 0 {
      Pow2Sum(m - 1, n);
      assert Pow2(m) * Pow2(n) == 2 * (Pow2(m - 1) * Pow2(n));
    }
  }

  // ---------------------------------------------------------------------------
  // The keys
  // ---------------------------------------------------------------------------

  /** Invert every bit of a negative pattern, flip only the sign bit of any other. */
  function ToSortable(b: Bits): (r: Bits)
    requires b != []
    ensures |r| == |b|
  {
    if b[0] then Not(b) else [true] + b[1..]
  }

  function FromSortable(k: Bits): (r: Bits)
    requires k != []
    ensures |r| == |k|
  {
    if k[0] then [false] + k[1..] else Not(k)
  }

  /** The map is a bijection on the patterns of each width. */
  lemma KeyRoundTrip(b: Bits)
    requires b != []
    ensures FromSortable(ToSortable(b)) == b
    ensures ToSortable(FromSortable(b)) == b
  {
    assert b == [b[0]] + b[1..];
    assert Not(Not(b)) == b;
  }

  /** Complementing keys, as a descending sort does, reverses their order. */
  lemma ComplementReverses(a: Bits, b: Bits)
    requires |a| == |b|
    ensures Value(Not(a)) < Value(Not(b)) <==> Value(b) < Value(a)
  {
    NotValue(a);
    NotValue(b);
  }

  // ---------------------------------------------------------------------------
  // Reference: the total order of section 5.10 of IEEE 754-2008, on decoded floats
  // ---------------------------------------------------------------------------

  datatype Format = Format(exponentBits: nat, fractionBits: nat) {
    function Width(): nat { 1 + exponentBits + fractionBits }
  }

  const BINARY64 := Format(11, 52)
  const BINARY32 := Format(8, 23)

  /** A number is an integer multiple of the smallest positive one, or infinite. The payload of
      a NaN has the quiet bit on top. */
  datatype Float = Number(negative: bool, multiple: nat) | Infinite(negative: bool) | NaN(negative: bool, payload: nat)

  function ExponentOf(f: Format, b: Bits): nat
    requires |b| == f.Width()
  {
    Value(b[1..][..f.exponentBits])
  }

  function FractionOf(f: Format, b: Bits): nat
    requires |b| == f.Width()
  {
    Value(b[1..][f.exponentBits..])
  }

  /** Subnormal below exponent one; above, the implicit leading bit and the scale. */
  function Multiple(f: Format, exponent: nat, fraction: nat): nat {
    if exponent == 0 then fraction else (Pow2(f.fractionBits) + fraction) * Pow2(exponent - 1)
  }

  function Decode(f: Format, b: Bits): Float
    requires |b| == f.Width()
  {
    var e, m := ExponentOf(f, b), FractionOf(f, b);
    if e < Pow2(f.exponentBits) - 1 then Number(b[0], Multiple(f, e, m))
    else if m == 0 then Infinite(b[0])
    else NaN(b[0], m)
  }

  /** Numeric order, with the infinities at the ends and the two zeros equal. */
  predicate NumericLess(x: Float, y: Float)
    requires !x.NaN? && !y.NaN?
  {
    if x.Infinite? then x.negative && y != x
    else if y.Infinite? then !y.negative
    else Signed(x) < Signed(y)
  }

  function Signed(x: Float): int
    requires x.Number?
  {
    if x.negative then -(x.multiple as int) else x.multiple
  }

  predicate TotalLess(x: Float, y: Float) {
    if x.NaN? && y.NaN? then
      if x.negative != y.negative then x.negative
      else if x.negative then y.payload < x.payload else x.payload < y.payload
    else if x.NaN? then x.negative
    else if y.NaN? then !y.negative
    else NumericLess(x, y) || (!NumericLess(y, x) && x.negative && !y.negative)
  }

  // ---------------------------------------------------------------------------
  // The keys follow the total order
  // ---------------------------------------------------------------------------

  lemma Scale(a: nat, b: nat, p: nat)
    ensures a <= b ==> a * p <= b * p
    ensures a < b && p > 0 ==> a * p < b * p
  {
    if a <= b { Distribute(a, b - a, p); }
  }

  lemma {:induction false} Pow2Monotone(m: nat, n: nat)
    requires m <= n
    ensures Pow2(m) <= Pow2(n)
  {
    if m < n { Pow2Monotone(m, n - 1); }
  }

  /** All numbers of exponent `e` lie below `Bound(f, e)`, and those of exponent `e + 1` do not. */
  function Bound(f: Format, e: nat): nat {
    Pow2(f.fractionBits) * Pow2(e)
  }

  lemma WithinBounds(f: Format, e: nat, m: nat)
    requires m < Pow2(f.fractionBits)
    ensures Multiple(f, e, m) < Bound(f, e)
    ensures e > 0 ==> Bound(f, e - 1) <= Multiple(f, e, m)
  {
    var p := Pow2(f.fractionBits);
    if e > 0 {
      var q := Pow2(e - 1);
      Scale(p + m, 2 * p, q);
      Scale(p, p + m, q);
      Doubling(p, q);
    }
  }

  lemma Doubling(p: nat, q: nat)
    ensures (2 * p) * q == p * (2 * q)
  {
  }

  lemma BoundMonotone(f: Format, e: nat, e': nat)
    requires e <= e'
    ensures Bound(f, e) <= Bound(f, e')
  {
    Pow2Monotone(e, e');
    Scale(Pow2(e), Pow2(e'), Pow2(f.fractionBits));
  }

  /** Larger exponent, or equal exponent and larger fraction: a larger number. */
  lemma MultipleMonotone(f: Format, e: nat, m: nat, e': nat, m': nat)
    requires m < Pow2(f.fractionBits) && m' < Pow2(f.fractionBits)
    requires e < e' || (e == e' && m < m')
    ensures Multiple(f, e, m) < Multiple(f, e', m')
  {
    if e < e' {
      WithinBounds(f, e, m);
      WithinBounds(f, e', m');
      BoundMonotone(f, e, e' - 1);
    } else if e > 0 {
      Scale(Pow2(f.fractionBits) + m, Pow2(f.fractionBits) + m', Pow2(e - 1));
    }
  }

  /** Without their signs, patterns compare by exponent and then by fraction. */
  lemma FieldsOrder(f: Format, a: Bits, b: Bits)
    requires |a| == |b| == f.Width()
    ensures Value(a[1..]) < Value(b[1..]) <==>
      ExponentOf(f, a) < ExponentOf(f, b) || (ExponentOf(f, a) == ExponentOf(f, b) && FractionOf(f, a) < FractionOf(f, b))
  {
    var p := Pow2(f.fractionBits);
    FieldsValue(f, a);
    FieldsValue(f, b);
    var e, m, e', m' := ExponentOf(f, a), FractionOf(f, a), ExponentOf(f, b), FractionOf(f, b);
    if e < e' { Lexicographic(p, e, m, e', m'); }
    else if e' < e { Lexicographic(p, e', m', e, m); }
  }

  lemma FieldsValue(f: Format, a: Bits)
    requires |a| == f.Width()
    ensures Value(a[1..]) == ExponentOf(f, a) * Pow2(f.fractionBits) + FractionOf(f, a)
    ensures FractionOf(f, a) < Pow2(f.fractionBits) && ExponentOf(f, a) < Pow2(f.exponentBits)
  {
    ValueConcat(a[1..][..f.exponentBits], a[1..][f.exponentBits..]);
    assert a[1..] == a[1..][..f.exponentBits] + a[1..][f.exponentBits..];
  }

  lemma Lexicographic(p: nat, e: nat, m: nat, e': nat, m': nat)
    requires e < e' && m < p
    ensures e * p + m < e' * p + m'
  {
    Distribute(e, 1, p);
    Scale(e + 1, e', p);
  }

  /** For patterns of one sign, the unsigned order of the rest is the total order, reversed for
      negatives. */
  lemma SameSignOrder(f: Format, a: Bits, b: Bits)
    requires |a| == |b| == f.Width() && a[0] == b[0]
    ensures TotalLess(Decode(f, a), Decode(f, b)) <==>
      if a[0] then Value(b[1..]) < Value(a[1..]) else Value(a[1..]) < Value(b[1..])
  {
    FieldsValue(f, a);
    FieldsValue(f, b);
    FieldsOrder(f, a, b);
    FieldsOrder(f, b, a);
    var e, m, e', m' := ExponentOf(f, a), FractionOf(f, a), ExponentOf(f, b), FractionOf(f, b);
    if e < e' || (e == e' && m < m') { MultipleMonotone(f, e, m, e', m'); }
    if e' < e || (e == e' && m' < m) { MultipleMonotone(f, e', m', e, m); }
  }

  lemma SignedValue(b: Bits)
    requires b != []
    ensures Value(b) == (if b[0] then Pow2(|b| - 1) else 0) + Value(b[1..])
  {
  }

  lemma SortableValue(b: Bits)
    requires b != []
    ensures Value(ToSortable(b)) ==
      if b[0] then Pow2(|b| - 1) - 1 - Value(b[1..]) else Pow2(|b| - 1) + Value(b[1..])
  {
    if b[0] {
      NotValue(b);
      SignedValue(b);
      assert Pow2(|b|) == 2 * Pow2(|b| - 1);
    } else {
      SignedValue([true] + b[1..]);
      assert ([true] + b[1..])[1..] == b[1..];
    }
  }

  lemma OtherSignOrder(f: Format, a: Bits, b: Bits)
    requires |a| == |b| == f.Width() && a[0] != b[0]
    ensures TotalLess(Decode(f, a), Decode(f, b)) <==> a[0]
  {
  }

  /** The main result: unsigned key order is the total order on the floats, for every pair of
      patterns, NaNs, infinities, zeros and subnormals included. */
  lemma KeyOrderIsTotalOrder(f: Format, a: Bits, b: Bits)
    requires |a| == |b| == f.Width()
    ensures Value(ToSortable(a)) < Value(ToSortable(b)) <==> TotalLess(Decode(f, a), Decode(f, b))
  {
    SortableValue(a);
    SortableValue(b);
    if a[0] == b[0] { SameSignOrder(f, a, b); } else { OtherSignOrder(f, a, b); }
  }

  /** At the two widths of the code. */
  lemma KeyOrder64And32(a: Bits, b: Bits)
    ensures |a| == |b| == 64 ==>
      (Value(ToSortable(a)) < Value(ToSortable(b)) <==> TotalLess(Decode(BINARY64, a), Decode(BINARY64, b)))
    ensures |a| == |b| == 32 ==>
      (Value(ToSortable(a)) < Value(ToSortable(b)) <==> TotalLess(Decode(BINARY32, a), Decode(BINARY32, b)))
  {
    if |a| == |b| == 64 { KeyOrderIsTotalOrder(BINARY64, a, b); }
    if |a| == |b| == 32 { KeyOrderIsTotalOrder(BINARY32, a, b); }
  }
}
