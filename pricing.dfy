/**
 * The pricing formula.  A product's selling price is its total cost (the
 * supply lines plus the fixed costs) divided by one minus the sum of the
 * percentage settings, so that tax, other percentage costs and profit are
 * shares of the selling price.  Amounts are exact reals.
 */
module Pricing {

  /** One supply line as the formula sees it. */
  datatype PricingSupply = PricingSupply(unitPrice: real, quantity: real)

  /** The four settings the formula reads. */
  datatype PricingSettings = PricingSettings(
    taxRate: real,
    profitMargin: real,
    otherFixedCosts: real,
    otherPercentageCosts: real)

  datatype Breakdown = Breakdown(taxRate: real, otherPercentageCosts: real, profitMargin: real)

  datatype PriceCalculationResult = PriceCalculationResult(
    suppliesCost: real,
    fixedCosts: real,
    totalCost: real,
    percentagesTotal: real,
    sellingPrice: real,
    breakdown: Breakdown)

  function LineCost(s: PricingSupply): real {
    s.unitPrice * s.quantity
  }

  /** The `reduce` over the lines, from the left, starting at 0. */
  function SuppliesCost(lines: seq<PricingSupply>): real {
    if lines == [] then 0.0
    else SuppliesCost(lines[..|lines| - 1]) + LineCost(lines[|lines| - 1])
  }

  function PercentagesTotal(s: PricingSettings): real {
    s.taxRate + s.otherPercentageCosts + s.profitMargin
  }

  /** The selling price is defined unless the percentages add up to exactly 100. */
  predicate Priceable(s: PricingSettings) {
    PercentagesTotal(s) != 100.0
  }

  /**
   * `calculatePrice`: every field of the result as the formula defines it.
   * Dividing by `1 - percentagesTotal / 100` means the selling price, once the
   * percentages are taken off it, leaves exactly the total cost.
   */
  function CalculatePrice(lines: seq<PricingSupply>, settings: PricingSettings): (r: PriceCalculationResult)
    requires Priceable(settings)
    ensures r.suppliesCost == SuppliesCost(lines)
    ensures r.fixedCosts == settings.otherFixedCosts
    ensures r.totalCost == r.suppliesCost + r.fixedCosts
    ensures r.percentagesTotal == settings.taxRate + settings.otherPercentageCosts + settings.profitMargin
    ensures r.sellingPrice * (1.0 - r.percentagesTotal / 100.0) == r.totalCost
    ensures r.percentagesTotal == 0.0 ==> r.sellingPrice == r.totalCost
    ensures r.breakdown == Breakdown(settings.taxRate, settings.otherPercentageCosts, settings.profitMargin)
  {
    var suppliesCost := SuppliesCost(lines);
    var fixedCosts := settings.otherFixedCosts;
    var totalCost := suppliesCost + fixedCosts;
    var percentagesTotal := settings.taxRate + settings.otherPercentageCosts + settings.profitMargin;
    var percentageDecimal := percentagesTotal / 100.0;
    var sellingPrice := totalCost / (1.0 - percentageDecimal);
    PriceCalculationResult(
      suppliesCost, fixedCosts, totalCost, percentagesTotal, sellingPrice,
      Breakdown(settings.taxRate, settings.otherPercentageCosts, settings.profitMargin))
  }

  /** `calculatePriceFromCost`: the same formula with the supplies cost given directly. */
  function CalculatePriceFromCost(suppliesCost: real, settings: PricingSettings): (r: PriceCalculationResult)
    requires Priceable(settings)
    ensures r.suppliesCost == suppliesCost
    ensures r.fixedCosts == settings.otherFixedCosts
    ensures r.totalCost == suppliesCost + settings.otherFixedCosts
    ensures r.percentagesTotal == settings.taxRate + settings.otherPercentageCosts + settings.profitMargin
    ensures r.sellingPrice * (1.0 - r.percentagesTotal / 100.0) == r.totalCost
    ensures r.breakdown == Breakdown(settings.taxRate, settings.otherPercentageCosts, settings.profitMargin)
  {
    var fixedCosts := settings.otherFixedCosts;
    var totalCost := suppliesCost + fixedCosts;
    var percentagesTotal := settings.taxRate + settings.otherPercentageCosts + settings.profitMargin;
    var percentageDecimal := percentagesTotal / 100.0;
    var sellingPrice := totalCost / (1.0 - percentageDecimal);
    PriceCalculationResult(
      suppliesCost, fixedCosts, totalCost, percentagesTotal, sellingPrice,
      Breakdown(settings.taxRate, settings.otherPercentageCosts, settings.profitMargin))
  }

  /** The two entry points agree once the lines are summed. */
  lemma FromCostAgrees(lines: seq<PricingSupply>, settings: PricingSettings)
    requires Priceable(settings)
    ensures CalculatePriceFromCost(SuppliesCost(lines), settings) == CalculatePrice(lines, settings)
  {
  }

  /** The sum over no lines is zero, and over one line is that line's cost. */
  lemma SuppliesCostSmall(s: PricingSupply)
    ensures SuppliesCost([]) == 0.0
    ensures SuppliesCost([s]) == s.unitPrice * s.quantity
  {
    assert [s][..0] == [];
  }

  /** The cost of two groups of lines is the sum of their costs. */
  lemma {:induction false} SuppliesCostAppend(a: seq<PricingSupply>, b: seq<PricingSupply>)
    ensures SuppliesCost(a + b) == SuppliesCost(a) + SuppliesCost(b)
    decreases |b|
  {
    if b == [] {
      assert a + b == a;
    } else {
      var n := |b| - 1;
      assert (a + b)[..|a + b| - 1] == a + b[..n];
      SuppliesCostAppend(a, b[..n]);
    }
  }

  /** Extending a prefix by one line adds that line's cost. */
  lemma SuppliesCostPrefix(a: seq<PricingSupply>, i: nat)
    requires i < |a|
    ensures SuppliesCost(a[..i + 1]) == SuppliesCost(a[..i]) + LineCost(a[i])
  {
    assert a[..i + 1][..i] == a[..i];
  }

  /** Taking one line out of the list takes its cost off the total. */
  lemma SuppliesCostRemove(a: seq<PricingSupply>, i: nat)
    requires i < |a|
    ensures SuppliesCost(a) == SuppliesCost(a[..i] + a[i + 1..]) + LineCost(a[i])
  {
    assert a == a[..i + 1] + a[i + 1..];
    SuppliesCostAppend(a[..i + 1], a[i + 1..]);
    SuppliesCostPrefix(a, i);
    SuppliesCostAppend(a[..i], a[i + 1..]);
  }

  /** Taking one element out of a list takes it out of the list's multiset. */
  lemma MultisetRemove<T>(a: seq<T>, i: nat)
    requires i < |a|
    ensures multiset(a[..i] + a[i + 1..]) == multiset(a) - multiset{a[i]}
  {
    assert a == a[..i] + [a[i]] + a[i + 1..];
  }

  /** Reordering the lines does not change their total cost. */
  lemma {:induction false} SuppliesCostPermutation(a: seq<PricingSupply>, b: seq<PricingSupply>)
    requires multiset(a) == multiset(b)
    ensures SuppliesCost(a) == SuppliesCost(b)
    decreases |a|
  {
    if a != [] {
      var n := |b| - 1;
      assert |b| == |multiset(b)| == |multiset(a)| == |a|;
      assert b[n] in multiset(a);
      var i :| 0 <= i < |a| && a[i] == b[n];
      MultisetRemove(a, i);
      MultisetRemove(b, n);
      SuppliesCostPermutation(a[..i] + a[i + 1..], b[..n] + b[n + 1..]);
      SuppliesCostRemove(a, i);
      SuppliesCostRemove(b, n);
    }
  }

  /** The calculation depends on the supply lines only through their multiset. */
  lemma PriceIndependentOfLineOrder(a: seq<PricingSupply>, b: seq<PricingSupply>, settings: PricingSettings)
    requires Priceable(settings)
    requires multiset(a) == multiset(b)
    ensures CalculatePrice(a, settings) == CalculatePrice(b, settings)
  {
    SuppliesCostPermutation(a, b);
  }

  /** The percentages are shares of the selling price: what is added on top of the cost. */
  lemma PercentagesAreSharesOfPrice(lines: seq<PricingSupply>, settings: PricingSettings)
    requires Priceable(settings)
    ensures var r := CalculatePrice(lines, settings);
            r.sellingPrice - r.totalCost == r.sellingPrice * r.percentagesTotal / 100.0
  {
  }

  /** Below 100 percent in all, the selling price covers a non-negative cost. */
  lemma PriceCoversCost(lines: seq<PricingSupply>, settings: PricingSettings)
    requires 0.0 <= PercentagesTotal(settings) < 100.0
    ensures var r := CalculatePrice(lines, settings);
            r.totalCost >= 0.0 ==> r.sellingPrice >= r.totalCost
  {
    var r := CalculatePrice(lines, settings);
    var d := 1.0 - r.percentagesTotal / 100.0;
    assert 0.0 < d <= 1.0;
    assert r.sellingPrice == r.totalCost / d;
    if r.totalCost >= 0.0 {
      assert r.sellingPrice * d == r.totalCost;
      assert r.sellingPrice >= 0.0;
      assert r.sellingPrice * d <= r.sellingPrice;
    }
  }

  /**
   * The worked example: supplies 10 x 5 and 20 x 2, fixed costs 10, tax 15%,
   * other percentages 5%, profit 30% give a selling price of 200.
   */
  lemma DocumentedExample()
    ensures var r := CalculatePrice([PricingSupply(10.0, 5.0), PricingSupply(20.0, 2.0)],
                                    PricingSettings(15.0, 30.0, 10.0, 5.0));
            r.suppliesCost == 90.0 && r.totalCost == 100.0 && r.percentagesTotal == 50.0
            && r.sellingPrice == 200.0
  {
    var lines := [PricingSupply(10.0, 5.0), PricingSupply(20.0, 2.0)];
    assert lines[..1] == [PricingSupply(10.0, 5.0)];
    SuppliesCostSmall(PricingSupply(10.0, 5.0));
    assert SuppliesCost(lines) == 50.0 + 40.0;
  }
}
