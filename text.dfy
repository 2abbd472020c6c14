/**
 * The pieces of Go's strconv and strings packages that the endpoint functions use
 * to turn arguments into query values: strconv.FormatInt(n, 10), strconv.FormatBool,
 * strconv.FormatFloat(x, 'f', 20, 64) and strings.Join. Each one is paired with a
 * reader that recovers what was written.
 */
module Text {
  import opened Model

  predicate IsDigit(c: char) { '0' <= c <= '9' }

  predicate AllDigits(s: string) { forall i :: 0 <= i < |s| ==> IsDigit(s[i]) }

  function Digit(d: nat): (c: char)
    requires d < 10
    ensures IsDigit(c)
  {
    ('0' as int + d) as char
  }

  function DigitValue(c: char): (d: nat)
    requires IsDigit(c)
    ensures d < 10 && Digit(d) == c
  {
    c as int - '0' as int
  }

  function Pow10(k: nat): (p: nat)
    ensures p >= 1
  {
    if k == 0 then 1 else 10 * Pow10(k - 1)
  }

  /** The shortest decimal numeral of `n`, most significant digit first. */
  function NatToDecimal(n: nat): (s: string)
    ensures |s| >= 1 && AllDigits(s)
  {
    if n < 10 then [Digit(n)] else NatToDecimal(n / 10) + [Digit(n % 10)]
  }

  /** The value of the numeral `s` (0 for the empty numeral). */
  function DecimalToNat(s: string): nat
    requires AllDigits(s)
  {
    if s == [] then 0 else DecimalToNat(s[..|s| - 1]) * 10 + DigitValue(s[|s| - 1])
  }

  lemma {:induction false} DecimalRoundTrip(n: nat)
    ensures DecimalToNat(NatToDecimal(n)) == n
  {
    var s := NatToDecimal(n);
    if n >= 10 {
      assert s[..|s| - 1] == NatToDecimal(n / 10);
      DecimalRoundTrip(n / 10);
    } else {
      assert s[..|s| - 1] == [];
    }
  }

  /** strconv.FormatInt(n, 10): an optional minus sign, then the decimal numeral of |n|. */
  function FormatInt(n: int): string
  {
    if n < 0 then "-" + NatToDecimal(-n) else NatToDecimal(n)
  }

  /** Reads back what FormatInt writes; None for anything else. */
  function ParseInt(s: string): Option<int>
  {
    if |s| > 1 && s[0] == '-' && AllDigits(s[1..]) then Some(-(DecimalToNat(s[1..]) as int))
    else if |s| > 0 && AllDigits(s) then Some(DecimalToNat(s))
    else None
  }

  lemma ParseFormatInt(n: int)
    ensures ParseInt(FormatInt(n)) == Some(n)
  {
    var digits := NatToDecimal(if n < 0 then -n else n);
    DecimalRoundTrip(if n < 0 then -n else n);
    assert IsDigit(digits[0]);
    if n < 0 {
      var s := "-" + digits;
      assert s[1..] == digits;
      assert ParseInt(s) == Some(-(DecimalToNat(digits) as int));
    } else {
      assert ParseInt(digits) == Some(DecimalToNat(digits));
    }
  }

  /** strconv.FormatBool. */
  function FormatBool(b: bool): (s: string)
    ensures b <==> s == "true"
  {
    if b then "true" else "false"
  }

  /** The first index of `c` in `s`, or |s| when `c` does not occur. */
  function IndexOf(s: string, c: char): (i: nat)
    ensures i <= |s| && (i < |s| ==> s[i] == c)
    ensures forall j :: 0 <= j < i ==> s[j] != c
  {
    if s == [] then 0 else if s[0] == c then 0 else 1 + IndexOf(s[1..], c)
  }

  /** strings.Join(xs, sep). */
  function Join(xs: seq<string>, sep: string): string
  {
    if |xs| == 0 then "" else if |xs| == 1 then xs[0] else xs[0] + sep + Join(xs[1..], sep)
  }

  /** strings.Split(s, [c]): the pieces of `s` between occurrences of `c`. */
  function Split(s: string, c: char): (r: seq<string>)
    ensures |r| >= 1
    decreases |s|
  {
    var i := IndexOf(s, c);
    if i == |s| then [s] else [s[..i]] + Split(s[i + 1..], c)
  }

  /** Splitting at the first separator peels off the piece before it. */
  lemma SplitAtFirst(head: string, c: char, rest: string)
    requires c !in head
    ensures Split(head + [c] + rest, c) == [head] + Split(rest, c)
  {
    var s := head + [c] + rest;
    assert forall j :: 0 <= j < |head| ==> s[j] == head[j] && head[j] in head;
    assert s[|head|] == c;
    assert IndexOf(s, c) == |head|;
    assert s[..|head|] == head;
    assert s[|head| + 1..] == rest;
  }

  lemma SplitWithout(s: string, c: char)
    requires c !in s
    ensures Split(s, c) == [s]
  {
    assert forall j :: 0 <= j < |s| ==> s[j] in s;
  }

  /** Joining pieces that do not contain the separator loses nothing: splitting gives them back, in order. */
  lemma {:induction false} SplitJoin(xs: seq<string>, c: char)
    requires |xs| >= 1
    requires forall k :: 0 <= k < |xs| ==> c !in xs[k]
    ensures Split(Join(xs, [c]), c) == xs
  {
    if |xs| == 1 {
      SplitWithout(xs[0], c);
    } else {
      SplitJoin(xs[1..], c);
      SplitAtFirst(xs[0], c, Join(xs[1..], [c]));
    }
  }

  // ---- strconv.FormatFloat(x, 'f', 20, 64) ----

  /** Number of digits FormatFloat writes after the decimal point. */
  const FloatPrecision: nat := 20

  /** 10^FloatPrecision: one unit in the last written place is 1 / FloatUnit. */
  const FloatUnit: nat := 100_000_000_000_000_000_000

  lemma FloatUnitIsPow10()
    ensures Pow10(FloatPrecision) == FloatUnit
  {
    assert Pow10(10) == 10_000_000_000;
    assert Pow10(20) == Pow10(10) * Pow10(10);
  }

  function Abs(x: real): (m: real)
    ensures m >= 0.0 && (m == x || m == -x)
  {
    if x < 0.0 then -x else x
  }

  /** The nearest integer to `y`, ties to the even one (strconv's rounding of exact decimals). */
  function RoundHalfEven(y: real): (n: nat)
    requires y >= 0.0
    ensures n as real - y <= 0.5 && y - n as real <= 0.5
  {
    var f := y.Floor;
    var frac := y - f as real;
    if frac < 0.5 then f
    else if frac > 0.5 then f + 1
    else if f % 2 == 0 then f
    else f + 1
  }

  /** The last `width` decimal digits of `n`, zero-padded on the left. */
  function PadDecimal(n: nat, width: nat): (s: string)
    ensures |s| == width && AllDigits(s)
  {
    if width == 0 then [] else PadDecimal(n / 10, width - 1) + [Digit(n % 10)]
  }

  lemma MulBound(m: int, k: int)
    requires m > 0
    ensures k >= 1 ==> m * k >= m
    ensures k <= -1 ==> m * k <= -m
  {
  }

  lemma ModUnique(n: int, m: int, c: int, r: int)
    requires m > 0 && 0 <= r < m && n == m * c + r
    ensures n % m == r
  {
    var c', r' := n / m, n % m;
    assert m * (c - c') == r' - r;
    MulBound(m, c - c');
  }

  lemma ModTen(n: nat, p: nat)
    requires p >= 1
    ensures (n / 10) % p * 10 + n % 10 == n % (10 * p)
  {
    var a, b := n / 10, n % 10;
    var c, d := a / p, a % p;
    assert n == (10 * p) * c + (10 * d + b);
    ModUnique(n, 10 * p, c, 10 * d + b);
  }

  lemma {:induction false} PadDecimalValue(n: nat, width: nat)
    ensures DecimalToNat(PadDecimal(n, width)) == n % Pow10(width)
  {
    if width > 0 {
      var s := PadDecimal(n, width);
      assert s[..|s| - 1] == PadDecimal(n / 10, width - 1);
      PadDecimalValue(n / 10, width - 1);
      ModTen(n, Pow10(width - 1));
    }
  }

  /** A decimal numeral read back exactly: the value is units / 10^places. */
  datatype FixedPoint = FixedPoint(units: int, places: nat)

  /** |x| scaled so that one unit is the last written place. */
  function Scaled(x: real): (y: real)
    ensures y >= 0.0
  {
    NonNegativeProduct(Abs(x), FloatUnit as real);
    Abs(x) * FloatUnit as real
  }

  lemma NonNegativeProduct(a: real, b: real)
    requires a >= 0.0 && b >= 0.0
    ensures a * b >= 0.0
  {
  }

  /** The numeral of `q` units of 10^-20: sign, integer part, point, 20 fraction digits. */
  function FixedText(negative: bool, q: nat): string
  {
    (if negative then "-" else "") + NatToDecimal(q / FloatUnit) + "." + PadDecimal(q, FloatPrecision)
  }

  /**
   * strconv.FormatFloat(x, 'f', 20, 64) of a float64 whose exact value is `x`:
   * a minus sign for negative values, the integer part, a point and exactly 20
   * fraction digits, rounded half to even.
   */
  function FormatFloat(x: real): string
  {
    FixedText(x < 0.0, RoundHalfEven(Scaled(x)))
  }

  /** Reads a fixed-point numeral "[-]digits.digits" back into its exact value. */
  function FixedValue(s: string): Option<FixedPoint>
  {
    var negative := |s| > 0 && s[0] == '-';
    var unsigned := if negative then s[1..] else s;
    var parts := Split(unsigned, '.');
    if |parts| == 2 && |parts[0]| > 0 && AllDigits(parts[0]) && AllDigits(parts[1]) then
      var magnitude := DecimalToNat(parts[0]) * Pow10(|parts[1]|) + DecimalToNat(parts[1]);
      Some(FixedPoint(if negative then -magnitude else magnitude, |parts[1]|))
    else
      None
  }

  lemma NoPointInDigits(s: string)
    requires AllDigits(s)
    ensures '.' !in s
  {
    forall i | 0 <= i < |s| ensures s[i] != '.' {
      assert IsDigit(s[i]);
    }
  }

  /** A fixed-point numeral, split at its point, gives the integer digits and the 20 fraction digits. */
  lemma FixedTextPieces(negative: bool, q: nat)
    ensures var s := FixedText(negative, q);
      var minus := |s| > 0 && s[0] == '-';
      var unsigned := if minus then s[1..] else s;
      && minus == negative
      && Split(unsigned, '.') == [NatToDecimal(q / FloatUnit), PadDecimal(q, FloatPrecision)]
  {
    var whole, frac := NatToDecimal(q / FloatUnit), PadDecimal(q, FloatPrecision);
    var s := FixedText(negative, q);
    var body := whole + ['.'] + frac;
    assert s == (if negative then "-" else "") + body;
    assert !negative ==> s[0] == whole[0] && IsDigit(whole[0]);
    assert (if negative then s[1..] else s) == body;
    NoPointInDigits(whole);
    SplitAtFirst(whole, '.', frac);
    NoPointInDigits(frac);
    SplitWithout(frac, '.');
  }

  /** The integer part and the zero-padded fraction digits together denote `q`. */
  lemma FixedDigits(q: nat)
    ensures DecimalToNat(NatToDecimal(q / FloatUnit)) * FloatUnit + DecimalToNat(PadDecimal(q, FloatPrecision)) == q
  {
    DecimalRoundTrip(q / FloatUnit);
    FloatUnitIsPow10();
    PadDecimalValue(q, FloatPrecision);
  }

  lemma RoundedScale(x: real, q: real)
    requires q - Scaled(x) <= 0.5 && Scaled(x) - q <= 0.5
    ensures var units := if x < 0.0 then -q else q;
      units - x * FloatUnit as real <= 0.5 && x * FloatUnit as real - units <= 0.5
  {
    if x < 0.0 {
      assert Scaled(x) == -(x * FloatUnit as real);
    }
  }

  /**
   * The query value FormatFloat writes reads back as a numeral with 20 fraction
   * digits whose value is `x` to within half a unit in the last place.
   */
  lemma FormatFloatValue(x: real)
    ensures FixedValue(FormatFloat(x)).Some?
    ensures var v := FixedValue(FormatFloat(x)).value;
      && v.places == FloatPrecision
      && v.units as real - x * FloatUnit as real <= 0.5
      && x * FloatUnit as real - v.units as real <= 0.5
  {
    var q := RoundHalfEven(Scaled(x));
    FixedTextPieces(x < 0.0, q);
    FloatUnitIsPow10();
    FixedDigits(q);
    RoundedScale(x, q as real);
  }
}
