/** Comparing a price with a balance, exactly, and reading the method a user chose. */
module Pricing {
  import opened Strings
  import opened Money
  import opened Quotes

  function Finer(a: Decimal, b: Decimal): int { if a.exponent <= b.exponent then a.exponent else b.exponent }

  /** `d` in units of ten to the `low`. */
  function Units(d: Decimal, low: int): int
    requires low <= d.exponent
  {
    Signed(d) * Pow10(d.exponent - low)
  }

  function OfUnits(units: int, exponent: int): Decimal {
    if units < 0 then Decimal(true, -units, exponent) else Decimal(false, units, exponent)
  }

  function Minus(a: Decimal, b: Decimal): Decimal {
    var low := Finer(a, b);
    OfUnits(Units(a, low) - Units(b, low), low)
  }

  /** A balance beside a price: what would be left of it, or what it lacks. */
  datatype Cover = Cover(sufficient: bool, remaining: Option<Decimal>, shortfall: Option<Decimal>)

  function EvaluateWallet(balance: Decimal, price: Decimal): Cover {
    if NoLess(balance, price) then Cover(true, Some(Minus(balance, price)), None)
    else Cover(false, None, Some(Minus(price, balance)))
  }

  /** Nothing is lost or made up: what is left and the price make the balance, what is lacking and the
      balance make the price, and a shortfall is more than nothing. */
  lemma CoverAddsUp(balance: Decimal, price: Decimal)
    ensures var c := EvaluateWallet(balance, price);
      var low := Finer(balance, price);
      && (c.sufficient <==> NoLess(balance, price))
      && c.remaining.Some? == c.sufficient && c.shortfall.None? == c.sufficient
      && (c.sufficient ==>
            && c.remaining.value.exponent == low && Units(c.remaining.value, low) >= 0
            && Units(c.remaining.value, low) + Units(price, low) == Units(balance, low))
      && (!c.sufficient ==>
            && c.shortfall.value.exponent == low && Units(c.shortfall.value, low) > 0
            && Units(balance, low) + Units(c.shortfall.value, low) == Units(price, low))
  {
    var low := Finer(balance, price);
    assert Pow10(0) == 1;
  }

  function ParsePaymentMethod(value: string): Option<PaymentMethod> {
    var candidate := Lower(Strip(value));
    if candidate == "wallet" then Some(Wallet) else if candidate == "card" then Some(Card) else None
  }

  function MethodName(m: PaymentMethod): string { match m case Wallet => "Wallet" case Card => "Card" }

  /** A method is understood however it is cased or spaced, and no other word is taken for one. */
  lemma MethodsRoundTrip(m: PaymentMethod, value: string)
    ensures ParsePaymentMethod(value) == Some(m) <==> Lower(Strip(value)) == Lower(MethodName(m))
  {
    assert Lower("Wallet") == "wallet" && Lower("Card") == "card";
  }
}
