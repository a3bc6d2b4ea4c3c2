/**
 * The shopper-facing price of a product (src/lib/utils.ts): metal value at
 * the current per-gram rate, plus a making charge, plus 3% GST, rounded to
 * a whole rupee. Money is exact `real` arithmetic.
 */
module Pricing {
  import opened Types

  datatype Breakdown = Breakdown(metalPrice: real, makingCharges: real, gst: real, subTotal: real)

  datatype PriceDetails = PriceDetails(total: int, breakdown: Breakdown)

  /** `Math.round(x)`: the nearest integer, halves rounded up. */
  function Round(x: real): (n: int)
    ensures x - 0.5 < n as real <= x + 0.5
  {
    (x + 0.5).Floor
  }

  /** The GST rate, 3%. */
  const Gst: real := 0.03

  /** `calculateProductPrice(product, metalRate)` */
  function CalculateProductPrice(product: Product, metalRate: real): (r: PriceDetails)
    ensures r.breakdown.subTotal == r.breakdown.metalPrice + r.breakdown.makingCharges
    ensures r.breakdown.subTotal + r.breakdown.gst - 0.5 < r.total as real <= r.breakdown.subTotal + r.breakdown.gst + 0.5
  {
    var metalPrice := product.weight * metalRate;
    var makingCharges :=
      if product.making_charge_type == MakingChargeType.Percentage.Spelling()
      then metalPrice * (product.making_charge_value / 100.0)
      else product.making_charge_value;
    var subTotal := metalPrice + makingCharges;
    var gst := subTotal * Gst;
    PriceDetails(Round(subTotal + gst), Breakdown(metalPrice, makingCharges, gst, subTotal))
  }

  /**
   * The price in closed form: a percentage charge scales the metal value by
   * (1 + value/100); any other charge type adds the value as a flat amount;
   * GST multiplies the subtotal by 103/100.
   */
  lemma PriceClosedForm(p: Product, rate: real)
    ensures var d := CalculateProductPrice(p, rate);
      && d.breakdown.metalPrice == p.weight * rate
      && d.breakdown.gst == d.breakdown.subTotal * 3.0 / 100.0
      && (p.making_charge_type == "percentage" ==>
            && d.breakdown.makingCharges == p.weight * rate * p.making_charge_value / 100.0
            && d.total == Round(p.weight * rate * (1.0 + p.making_charge_value / 100.0) * 103.0 / 100.0))
      && (p.making_charge_type != "percentage" ==>
            && d.breakdown.makingCharges == p.making_charge_value
            && d.total == Round((p.weight * rate + p.making_charge_value) * 103.0 / 100.0))
  {
    var m := p.weight * rate;
    var v := p.making_charge_value;
    if p.making_charge_type == "percentage" {
      assert (m + m * (v / 100.0)) + (m + m * (v / 100.0)) * Gst == m * (1.0 + v / 100.0) * 103.0 / 100.0;
    } else {
      assert (m + v) + (m + v) * Gst == (m + v) * 103.0 / 100.0;
    }
  }

  /** The two worked examples: gold at 10 g, 7200/g, 10%; silver at 5 g, 85/g, flat 200. */
  lemma WorkedExamples(gold: Product, silver: Product)
    requires gold.weight == 10.0 && gold.making_charge_type == "percentage" && gold.making_charge_value == 10.0
    requires silver.weight == 5.0 && silver.making_charge_type == "fixed" && silver.making_charge_value == 200.0
    ensures CalculateProductPrice(gold, 7200.0) ==
      PriceDetails(81576, Breakdown(72000.0, 7200.0, 2376.0, 79200.0))
    ensures CalculateProductPrice(silver, 85.0) ==
      PriceDetails(644, Breakdown(425.0, 200.0, 18.75, 625.0))
  {
    assert Round(79200.0 + 2376.0) == 81576;
    assert Round(625.0 + 18.75) == 644;
  }

  /**
   * A zero rate prices a percentage-charged product at 0, but a product with
   * a flat making charge still costs that charge plus GST.
   */
  lemma ZeroRate(p: Product)
    ensures p.making_charge_type == "percentage" ==> CalculateProductPrice(p, 0.0).total == 0
    ensures p.making_charge_type != "percentage" ==>
      CalculateProductPrice(p, 0.0).total == Round(p.making_charge_value * 103.0 / 100.0)
  {
    PriceClosedForm(p, 0.0);
  }

  /** Non-negative weight, rate and charge value give a non-negative price. */
  lemma NonNegativePrice(p: Product, rate: real)
    requires p.weight >= 0.0 && rate >= 0.0 && p.making_charge_value >= 0.0
    ensures CalculateProductPrice(p, rate).total >= 0
  {
    var m := p.weight * rate;
    assert m >= 0.0;
    assert m * (p.making_charge_value / 100.0) >= 0.0;
  }

  /** For a non-negative weight and charge value, a higher rate never lowers the price. */
  lemma PriceMonotoneInRate(p: Product, rate1: real, rate2: real)
    requires p.weight >= 0.0 && p.making_charge_value >= 0.0
    requires rate1 <= rate2
    ensures CalculateProductPrice(p, rate1).total <= CalculateProductPrice(p, rate2).total
  {
    var w, v := p.weight, p.making_charge_value;
    var m1, m2 := w * rate1, w * rate2;
    assert m2 - m1 == w * (rate2 - rate1);
    assert m1 <= m2;
    var s1 := CalculateProductPrice(p, rate1).breakdown.subTotal;
    var s2 := CalculateProductPrice(p, rate2).breakdown.subTotal;
    if p.making_charge_type == "percentage" {
      assert m2 * (v / 100.0) - m1 * (v / 100.0) == (m2 - m1) * (v / 100.0);
    }
    assert s1 <= s2;
    assert s1 + s1 * Gst <= s2 + s2 * Gst;
  }
}
