/**
 * The price breakdown panel: the recommended price for the product's
 * current lines, and how the price the user charges compares with it.
 */
module PriceBreakdown {
  import opened Wrappers
  import opened Store
  import opened Pricing
  import opened Supplies
  import opened Settings
  import SettingsService
  import opened ProductEditor

  /** The memoised calculation: nothing without lines, else the formula over the priced lines. */
  function Calculation(product: ProductData, catalogue: seq<Listed<Supply>>, settings: SettingsData)
    : (r: Option<PriceCalculationResult>)
    requires product.supplies != [] ==> Priceable(SettingsService.AsPricing(settings))
    ensures r.None? <==> product.supplies == []
    ensures r.Some? ==> r.value == Recalculated(product.supplies, catalogue, settings)
    ensures r.Some? ==> r.value.suppliesCost == TotalCost(product.supplies, catalogue)
  {
    if |product.supplies| == 0 then None
    else
      TotalCostIsSuppliesCost(product.supplies, catalogue);
      Some(CalculatePrice(ToPricingSupplies(product.supplies, catalogue), SettingsService.AsPricing(settings)))
  }

  /** `hasPriceIssue`: the price charged is below the recommended one. */
  function HasPriceIssue(currentPrice: Option<real>, calculation: PriceCalculationResult): (b: bool)
    ensures b <==> currentPrice.Some? && PriceDifference(currentPrice, calculation) < 0.0
    ensures currentPrice.Some? && !b ==> PriceDifference(currentPrice, calculation) >= 0.0
  {
    currentPrice.Some? && currentPrice.value < calculation.sellingPrice
  }

  /** `priceDifference`: how far the price charged is above the recommended one; 0 without one. */
  function PriceDifference(currentPrice: Option<real>, calculation: PriceCalculationResult): (d: real)
    ensures currentPrice.None? ==> d == 0.0
    ensures currentPrice.Some? ==> calculation.sellingPrice + d == currentPrice.value
  {
    if currentPrice.Some? then currentPrice.value - calculation.sellingPrice else 0.0
  }

  /**
   * The warning and the difference agree: an issue is a negative
   * difference, and a price charged without an issue is at least the
   * recommended one.
   */
  lemma IssueIsNegativeDifference(currentPrice: Option<real>, calculation: PriceCalculationResult)
    ensures HasPriceIssue(currentPrice, calculation) <==> PriceDifference(currentPrice, calculation) < 0.0
  {
  }

  /**
   * After the editor's recalculation the panel shows the editor's price as
   * the recommended one, and a product priced for the first time has no
   * issue.
   */
  lemma EditorPriceIsRecommended(before: ProductData, after: ProductData, catalogue: seq<Listed<Supply>>, settings: SettingsData)
    requires before.supplies != [] && Priceable(SettingsService.AsPricing(settings))
    requires after.supplies == before.supplies
    requires after.price == Recalculated(before.supplies, catalogue, settings).sellingPrice
    requires after.currentPrice == (if before.currentPrice.None? then Some(after.price) else before.currentPrice)
    ensures Calculation(after, catalogue, settings).value.sellingPrice == after.price
    ensures before.currentPrice.None? ==> !HasPriceIssue(after.currentPrice, Calculation(after, catalogue, settings).value)
  {
  }
}
