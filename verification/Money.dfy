/** Exact decimal amounts: rendering to two places, reading back, and the echoed confirmation. */
module Money {
  import opened Strings

  /** A finite decimal as the runtime keeps it: a sign, digits and a power of ten. */
  datatype Decimal = Decimal(negative: bool, coefficient: nat, exponent: int)

  /** Coefficients of a rounding stay below ten to the 28th, the default arithmetic precision. */
  const COEFFICIENT_LIMIT: nat := 10_000_000_000_000_000_000_000_000_000

  function Pow10(n: nat): (r: nat)
    ensures r >= 1
  {
    if n == 0 then 1 else 10 * Pow10(n - 1)
  }

  function Signed(d: Decimal): int { if d.negative then -(d.coefficient as int) else d.coefficient }

  /** Numeric equality, whatever the exponents. */
  predicate SameValue(a: Decimal, b: Decimal) {
    var low := if a.exponent <= b.exponent then a.exponent else b.exponent;
    Signed(a) * Pow10(a.exponent - low) == Signed(b) * Pow10(b.exponent - low)
  }

  predicate NoLess(a: Decimal, b: Decimal) {
    var low := if a.exponent <= b.exponent then a.exponent else b.exponent;
    Signed(a) * Pow10(a.exponent - low) >= Signed(b) * Pow10(b.exponent - low)
  }

  function Scaled(n: nat, shift: nat): nat { n * Pow10(shift) }

  /** `a / unit`, a tie going up. */
  function RoundHalfUp(a: nat, unit: nat): nat
    requires unit >= 1
  {
    a / unit + if 2 * (a % unit) >= unit then 1 else 0
  }

  /** How many parts of `d`'s own size make one cent, and how many of them `d` is. */
  function Unit(d: Decimal): (unit: nat)
    ensures unit >= 1
  {
    if d.exponent >= -2 then 1 else Pow10(-2 - d.exponent)
  }

  function Parts(d: Decimal): nat {
    if d.exponent >= -2 then Scaled(d.coefficient, d.exponent + 2) else d.coefficient
  }

  /** How many cents `d` is, apart from its sign, with ties rounded away from zero. */
  function Cents(d: Decimal): nat { RoundHalfUp(Parts(d), Unit(d)) }

  function Quantized(d: Decimal): Decimal { Decimal(d.negative, Cents(d), -2) }

  predicate WholeCents(d: Decimal) { Parts(d) % Unit(d) == 0 }

  function DigitChar(n: nat): char
    requires n < 10
  {
    '0' + n as char
  }

  function DigitValue(c: char): nat
    requires '0' <= c <= '9'
  {
    (c - '0') as nat
  }

  function DigitsText(n: nat): string {
    if n < 10 then [DigitChar(n)] else DigitsText(n / 10) + [DigitChar(n % 10)]
  }

  function Rendered(negative: bool, whole: string, fraction: string): string {
    (if negative then "-" else "") + (whole + ("." + fraction))
  }

  function Fraction(cents: nat): string { [DigitChar(cents / 10 % 10), DigitChar(cents % 10)] }

  /** Two decimals, always in plain notation; none when the rounding overflows the context. */
  function MoneyText(d: Decimal): Option<string> {
    if Cents(d) >= COEFFICIENT_LIMIT then None
    else Some(Rendered(d.negative, DigitsText(Cents(d) / 100), Fraction(Cents(d))))
  }

  predicate AllDigits(s: string) { forall i | 0 <= i < |s| :: '0' <= s[i] <= '9' }

  function Number(s: string): nat
    requires AllDigits(s)
  {
    if s == [] then 0 else 10 * Number(s[..|s| - 1]) + DigitValue(s[|s| - 1])
  }

  /** Length of the longest run of digits `s` starts with. */
  function Span(s: string): (n: nat)
    ensures n <= |s| && AllDigits(s[..n])
    ensures n < |s| ==> !('0' <= s[n] <= '9')
  {
    if s == [] || !('0' <= s[0] <= '9') then 0
    else
      var n := Span(s[1..]);
      assert s[..n + 1] == [s[0]] + s[1..][..n];
      n + 1
  }

  function ParseExponent(s: string): Option<int> {
    if s == [] then Some(0)
    else if s[0] != 'e' && s[0] != 'E' then None
    else
      var negative := |s| > 1 && s[1] == '-';
      var digits := if |s| > 1 && (s[1] == '-' || s[1] == '+') then s[2..] else s[1..];
      if digits == [] || !AllDigits(digits) then None
      else Some(if negative then -(Number(digits) as int) else Number(digits))
  }

  function ParseUnsigned(negative: bool, s: string): Option<Decimal> {
    var i := Span(s);
    var whole, rest := s[..i], s[i..];
    var pointed := rest != [] && rest[0] == '.';
    var j := if pointed then Span(rest[1..]) else 0;
    var fraction := if pointed then rest[1..][..j] else [];
    var tail := if pointed then rest[1..][j..] else rest;
    assert AllDigits(whole + fraction);
    if whole + fraction == [] then None
    else match ParseExponent(tail)
      case None => None
      case Some(e) => Some(Decimal(negative, Number(whole + fraction), e - |fraction|))
  }

  /** Reading a decimal from text: outer white space and underscores are ignored. */
  function ParseDecimal(text: string): Option<Decimal> {
    var s := Without(Strip(text), '_');
    if s != [] && (s[0] == '-' || s[0] == '+') then ParseUnsigned(s[0] == '-', s[1..]) else ParseUnsigned(false, s)
  }

  datatype AmountCheck = Confirmed | Missing | Mismatch

  /** The gate in front of a top-up: the caller must echo the quoted amount. */
  function CheckConfirmedAmount(amount: Decimal, confirmed: string): AmountCheck {
    var candidate := Without(Strip(confirmed), ',');
    if candidate == [] then Missing
    else match ParseDecimal(candidate)
      case None => Mismatch
      case Some(d) => if SameValue(d, amount) then Confirmed else Mismatch
  }

  // ------------------------------------------------------------------ rounding

  /** `cents` whole units are nearest to `a`, a tie going up: twice the error is at most one unit,
      and only an error on the low side may reach it. */
  ghost predicate Nearest(a: nat, unit: nat, cents: nat) {
    var distance: int := a - cents * unit;
    -1 * unit <= 2 * distance < unit
  }

  lemma {:induction false} ProductStep(a: nat, b: nat, unit: nat)
    requires a < b
    ensures a * unit + unit <= b * unit
  {
    if a + 1 < b { ProductStep(a, b - 1, unit); }
    assert b * unit == (b - 1) * unit + unit;
  }

  lemma QuotientIsUnique(a: nat, unit: nat, q: nat)
    requires unit >= 1 && q * unit <= a < q * unit + unit
    ensures q == a / unit && a - q * unit == a % unit
  {
    var p := a / unit;
    assert a == p * unit + a % unit;
    if p < q { ProductStep(p, q, unit); }
    if q < p { ProductStep(q, p, unit); }
  }

  lemma RoundedIsNearest(a: nat, unit: nat)
    requires unit >= 1
    ensures Nearest(a, unit, RoundHalfUp(a, unit))
  {
    var q, r := a / unit, a % unit;
    assert a == q * unit + r;
    assert (q + 1) * unit == q * unit + unit;
  }

  lemma NearestIsRounded(a: nat, unit: nat, cents: nat)
    requires unit >= 1 && Nearest(a, unit, cents)
    ensures cents == RoundHalfUp(a, unit)
  {
    var product := cents * unit;
    if product <= a {
      QuotientIsUnique(a, unit, cents);
    } else {
      assert cents >= 1;
      assert (cents - 1) * unit == product - unit;
      QuotientIsUnique(a, unit, cents - 1);
    }
  }

  /** Rounding is the one number that meets the declarative reading. */
  lemma RoundingIsNearest(a: nat, unit: nat, cents: nat)
    requires unit >= 1
    ensures Nearest(a, unit, cents) <==> cents == RoundHalfUp(a, unit)
  {
    RoundedIsNearest(a, unit);
    if Nearest(a, unit, cents) { NearestIsRounded(a, unit, cents); }
  }

  // ------------------------------------------------------------------ round trip

  lemma {:induction false} DigitsTextIsDigits(n: nat)
    ensures AllDigits(DigitsText(n)) && DigitsText(n) != [] && Number(DigitsText(n)) == n
  {
    if n >= 10 {
      DigitsTextIsDigits(n / 10);
      var s := DigitsText(n / 10);
      assert (s + [DigitChar(n % 10)])[..|s|] == s;
    } else {
      assert [DigitChar(n)][..0] == [];
    }
  }

  lemma {:induction false} SpanOfDigits(s: string, t: string)
    requires AllDigits(s) && (t == [] || !('0' <= t[0] <= '9'))
    ensures Span(s + t) == |s|
  {
    if s == [] {
      assert s + t == t;
    } else {
      assert (s + t)[1..] == s[1..] + t;
      SpanOfDigits(s[1..], t);
    }
  }

  lemma NumberOfTwo(s: string, a: nat, b: nat)
    requires AllDigits(s) && a < 10 && b < 10
    ensures AllDigits(s + [DigitChar(a), DigitChar(b)])
    ensures Number(s + [DigitChar(a), DigitChar(b)]) == 100 * Number(s) + 10 * a + b
  {
    var t := s + [DigitChar(a), DigitChar(b)];
    assert t[..|t| - 1] == s + [DigitChar(a)];
    assert (s + [DigitChar(a)])[..|s|] == s;
  }

  /** A plain amount splits into its digits, the point and its two decimals. */
  lemma SpansOfPlain(whole: string, fraction: string)
    requires AllDigits(whole) && AllDigits(fraction)
    ensures var s := whole + ("." + fraction);
      && Span(s) == |whole| && s[..|whole|] == whole && s[|whole|..] == "." + fraction
      && ("." + fraction)[1..] == fraction && Span(fraction) == |fraction|
  {
    SpanOfDigits(whole, "." + fraction);
    SpanOfDigits(fraction, "");
    assert fraction + "" == fraction;
  }

  lemma ParsePlain(negative: bool, whole: string, fraction: string)
    requires AllDigits(whole) && AllDigits(fraction) && whole != []
    ensures AllDigits(whole + fraction)
    ensures ParseUnsigned(negative, whole + ("." + fraction))
         == Some(Decimal(negative, Number(whole + fraction), -|fraction|))
  {
    SpansOfPlain(whole, fraction);
    assert fraction[..|fraction|] == fraction && fraction[|fraction|..] == [];
  }

  predicate MoneyChar(c: char) { c == '-' || c == '.' || '0' <= c <= '9' }

  lemma MoneyCharsHoldNo(s: string, c: char)
    requires (forall i | 0 <= i < |s| :: MoneyChar(s[i])) && !MoneyChar(c)
    ensures Without(s, c) == s
  {
    assert c !in s;
    WithoutNothing(s, c);
  }

  lemma MoneyCharsAreTrimmed(s: string)
    requires forall i | 0 <= i < |s| :: MoneyChar(s[i])
    ensures Trimmed(s)
  {
  }

  lemma MoneyCharsAreKept(s: string)
    requires forall i | 0 <= i < |s| :: MoneyChar(s[i])
    ensures Strip(s) == s && Without(s, ',') == s && Without(s, '_') == s
  {
    MoneyCharsHoldNo(s, ',');
    MoneyCharsHoldNo(s, '_');
    MoneyCharsAreTrimmed(s);
    TrimmedIsKept(s);
  }

  lemma ParseSigned(negative: bool, body: string)
    requires body != [] && body[0] != '-' && body[0] != '+'
    requires var s := (if negative then "-" else "") + body; Without(Strip(s), '_') == s
    ensures ParseDecimal((if negative then "-" else "") + body) == ParseUnsigned(negative, body)
  {
    var s := (if negative then "-" else "") + body;
    if negative { assert s[0] == '-' && s[1..] == body; } else { assert s == body; }
  }

  lemma MoneyTextShape(d: Decimal) returns (whole: string, fraction: string)
    requires MoneyText(d).Some?
    ensures AllDigits(whole) && AllDigits(fraction) && whole != [] && |fraction| == 2
    ensures AllDigits(whole + fraction) && Number(whole + fraction) == Cents(d)
    ensures MoneyText(d).value == Rendered(d.negative, whole, fraction)
  {
    var cents := Cents(d);
    DigitsTextIsDigits(cents / 100);
    whole, fraction := DigitsText(cents / 100), Fraction(cents);
    NumberOfTwo(whole, cents / 10 % 10, cents % 10);
    TwoLastDigits(cents);
  }

  lemma TwoLastDigits(n: nat)
    ensures 100 * (n / 100) + 10 * (n / 10 % 10) + n % 10 == n
  {
    assert n / 10 / 10 == n / 100;
  }

  lemma RenderedIsKept(negative: bool, whole: string, fraction: string)
    requires AllDigits(whole) && AllDigits(fraction)
    ensures var s := Rendered(negative, whole, fraction);
      Strip(s) == s && Without(s, ',') == s && Without(s, '_') == s
  {
    var body := whole + ("." + fraction);
    forall i | 0 <= i < |body| ensures MoneyChar(body[i]) {
      if i < |whole| { assert body[i] == whole[i]; }
      if i > |whole| { assert body[i] == fraction[i - |whole| - 1]; }
    }
    MoneyCharsAreKept(Rendered(negative, whole, fraction));
  }

  /** Reading a rendered amount gives back exactly the rounded amount, sign and scale included. */
  lemma MoneyTextRoundTrip(d: Decimal)
    requires MoneyText(d).Some?
    ensures ParseDecimal(MoneyText(d).value) == Some(Quantized(d))
  {
    var whole, fraction := MoneyTextShape(d);
    RenderedIsKept(d.negative, whole, fraction);
    ParsePlain(d.negative, whole, fraction);
    ParseSigned(d.negative, whole + ("." + fraction));
  }

  lemma ExactRounding(a: nat, unit: nat)
    requires unit >= 1
    ensures RoundHalfUp(a, unit) * unit == a <==> a % unit == 0
  {
    var c := RoundHalfUp(a, unit);
    assert a == a / unit * unit + a % unit;
    if c * unit == a { QuotientIsUnique(a, unit, c); }
  }

  /** An amount equals its own rounding exactly when it is a whole number of cents. */
  lemma RoundingKeepsValueIffWholeCents(d: Decimal)
    ensures SameValue(Quantized(d), d) <==> WholeCents(d)
  {
    var q := Quantized(d);
    ExactRounding(Parts(d), Unit(d));
    assert Pow10(0) == 1;
    if d.exponent >= -2 {
      assert Parts(d) / 1 == Parts(d) && Parts(d) % 1 == 0;
      assert SameValue(q, d) <==> Signed(q) == Signed(d) * Pow10(d.exponent + 2);
      NegatedProduct(d.coefficient, Pow10(d.exponent + 2));
    } else {
      assert SameValue(q, d) <==> Signed(q) * Unit(d) == Signed(d);
      NegatedProduct(q.coefficient, Unit(d));
    }
  }

  lemma NegatedProduct(a: nat, b: nat)
    ensures (-(a as int)) * b == -(a * b)
  {
  }

  /** Echoing the advertised amount, with or without thousands separators and outer space, is
      accepted exactly when the quoted amount is a whole number of cents. */
  lemma EchoIsAcceptedIffWholeCents(amount: Decimal, confirmed: string)
    requires MoneyText(amount).Some? && Without(Strip(confirmed), ',') == MoneyText(amount).value
    ensures CheckConfirmedAmount(amount, confirmed) == if WholeCents(amount) then Confirmed else Mismatch
  {
    MoneyTextRoundTrip(amount);
    ConfirmationStatesTheAmount(amount, confirmed, Quantized(amount));
    RoundingKeepsValueIffWholeCents(amount);
  }

  /** Whatever text passes the gate states the quoted amount; an amount it does not state is refused. */
  lemma ConfirmationStatesTheAmount(amount: Decimal, confirmed: string, stated: Decimal)
    requires ParseDecimal(Without(Strip(confirmed), ',')) == Some(stated)
    ensures CheckConfirmedAmount(amount, confirmed) == if SameValue(stated, amount) then Confirmed else Mismatch
  {
    NothingIsNoAmount();
  }

  lemma NothingIsNoAmount()
    ensures ParseDecimal("") == None
  {
    assert Strip("") == "";
  }
}
