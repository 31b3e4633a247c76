/** VAT pricing of the invoice lines. Prices in a request are gross (VAT
    included); the net price is derived by dividing by 1 + VAT rate. Amounts
    are exact rationals here. */
module Pricing {

  /** One entry of the request's `products` array. */
  datatype Product = Product(name: string, qty: real, priceGross: real)

  /** The VAT rate, 24 %. */
  const VatRate: real := 0.24

  /** What a net price is multiplied by to give the gross price. */
  const VatFactor: real := 1.0 + VatRate

  /** Net unit price of a gross unit price. */
  function NetEach(priceGross: real): (net: real)
    ensures net * VatFactor == priceGross
    ensures priceGross >= 0.0 ==> net >= 0.0
  {
    priceGross / VatFactor
  }

  /** Gross amount of one invoice line: unit price times quantity. */
  function LineGross(p: Product): (gross: real)
    ensures p.priceGross >= 0.0 && p.qty >= 0.0 ==> gross >= 0.0
  {
    p.priceGross * p.qty
  }

  /** Net amount of one invoice line: net unit price times quantity. */
  function LineNet(p: Product): (net: real)
    ensures net * VatFactor == LineGross(p)
    ensures p.priceGross >= 0.0 && p.qty >= 0.0 ==> net >= 0.0 && LineGross(p) >= 0.0
  {
    var each := NetEach(p.priceGross);
    assert each * p.qty * VatFactor == each * VatFactor * p.qty;
    each * p.qty
  }

  /** Every price and quantity is non-negative. */
  predicate NonNegative(ps: seq<Product>)
  {
    forall i :: 0 <= i < |ps| ==> ps[i].priceGross >= 0.0 && ps[i].qty >= 0.0
  }

  /** Dropping the last line keeps every price and quantity non-negative. */
  lemma NonNegativePrefix(ps: seq<Product>)
    requires ps != [] && NonNegative(ps)
    ensures NonNegative(ps[..|ps| - 1])
  {
    var init := ps[..|ps| - 1];
    forall i | 0 <= i < |init| ensures init[i] == ps[i] { }
  }

  /** Sum of the line net amounts, added up in order from 0; never negative
      when every price and quantity is non-negative. */
  function TotalNet(ps: seq<Product>): (total: real)
    ensures NonNegative(ps) ==> total >= 0.0
  {
    if ps == [] then 0.0
    else
      assert NonNegative(ps) ==> NonNegative(ps[..|ps| - 1]) by {
        if NonNegative(ps) { NonNegativePrefix(ps); }
      }
      TotalNet(ps[..|ps| - 1]) + LineNet(ps[|ps| - 1])
  }

  /** Sum of the line gross amounts, added up in order from 0; never
      negative when every price and quantity is non-negative. */
  function TotalGross(ps: seq<Product>): (total: real)
    ensures NonNegative(ps) ==> total >= 0.0
  {
    if ps == [] then 0.0
    else
      assert NonNegative(ps) ==> NonNegative(ps[..|ps| - 1]) by {
        if NonNegative(ps) { NonNegativePrefix(ps); }
      }
      TotalGross(ps[..|ps| - 1]) + LineGross(ps[|ps| - 1])
  }

  /** Adding the next line to the running totals gives the totals of the
      longer prefix. */
  lemma TotalsStep(ps: seq<Product>, i: nat)
    requires i < |ps|
    ensures TotalNet(ps[..i + 1]) == TotalNet(ps[..i]) + LineNet(ps[i])
    ensures TotalGross(ps[..i + 1]) == TotalGross(ps[..i]) + LineGross(ps[i])
  {
    assert ps[..i + 1][..i] == ps[..i];
  }

  /** The net total converts to the gross total exactly as each line does. */
  lemma {:induction false} TotalsRoundTrip(ps: seq<Product>)
    ensures TotalNet(ps) * VatFactor == TotalGross(ps)
  {
    if ps != [] {
      var init, last := ps[..|ps| - 1], ps[|ps| - 1];
      TotalsRoundTrip(init);
      assert LineNet(last) * VatFactor == LineGross(last);
      assert TotalNet(ps) * VatFactor == TotalNet(init) * VatFactor + LineNet(last) * VatFactor;
    }
  }

  /** The VAT amount: gross total minus net total. It is the VAT rate's share
      of the gross total, and it is never negative for non-negative prices. */
  function VatAmount(ps: seq<Product>): (vat: real)
    ensures vat == TotalGross(ps) * VatRate / VatFactor
    ensures vat == TotalNet(ps) * VatRate
    ensures NonNegative(ps) ==> vat >= 0.0
  {
    TotalsRoundTrip(ps);
    TotalGross(ps) - TotalNet(ps)
  }

  /** One line of two items at 12.40 gross: 10.00 net each, 20.00 net,
      24.80 gross, 4.80 VAT. */
  lemma SingleLineExample()
    ensures var ps := [Product("Widget", 2.0, 12.40)];
      && NetEach(12.40) == 10.0
      && TotalNet(ps) == 20.0 && TotalGross(ps) == 24.8 && VatAmount(ps) == 4.8
  {
    var ps := [Product("Widget", 2.0, 12.40)];
    assert ps[..0] == [];
  }
}
