/**
 * The product editor: the product being edited, its supply lines, the
 * automatic price recalculation when the lines change, and the check made
 * on submit.  The supplies catalogue and the account's settings are fixed
 * for the editor's lifetime.
 */
module ProductEditor {
  import opened Wrappers
  import opened Store
  import opened Pricing
  import opened Supplies
  import opened Settings
  import SettingsService

  /** A line of the product: which supply, and how much of it. */
  datatype ProductSupply = ProductSupply(supplyId: Id, quantity: real)

  /** The product as the editor holds it. */
  datatype ProductData = ProductData(
    name: string,
    description: Option<string>,
    price: real,
    currentPrice: Option<real>,  // the price the user charges today; the recommended one is `price`
    supplies: seq<ProductSupply>)

  /** An edit of one field of a line. */
  datatype LineEdit = SetSupplyId(supplyId: Id) | SetQuantity(quantity: real)

  const NoSuppliesInCatalogue := "Você precisa cadastrar materiais antes de criar um produto"
  const NoLinesOnSubmit := "Adicione pelo menos um material ao produto"

  /**
   * The editor's starting state: the product being edited, with a missing
   * description read as empty, or a blank product.
   */
  function InitialProduct(initial: Option<ProductData>): (p: ProductData)
    ensures initial.None? ==> p == ProductData("", Some(""), 0.0, None, [])
    ensures initial.Some? ==> p == initial.value.(description := Some(initial.value.description.GetOr("")))
  {
    match initial
    case None => ProductData("", Some(""), 0.0, None, [])
    case Some(q) => ProductData(q.name, Some(q.description.GetOr("")), q.price, q.currentPrice, q.supplies)
  }

  /** `supplies.find(s => s.id === supplyId)`: the index of the first catalogue entry with that id. */
  function FindSupply(catalogue: seq<Listed<Supply>>, id: Id): (k: Option<nat>)
    ensures k.None? ==> forall j :: 0 <= j < |catalogue| ==> catalogue[j].id != id
    ensures k.Some? ==> IsFirstEntry(catalogue, id, k.value)
  {
    if catalogue == [] then None
    else if catalogue[0].id == id then Some(0)
    else match FindSupply(catalogue[1..], id)
      case None => None
      case Some(k) => Some(k + 1)
  }

  /** `k` is the first catalogue entry with this id, the one `find` returns. */
  predicate IsFirstEntry(catalogue: seq<Listed<Supply>>, id: Id, k: nat) {
    k < |catalogue| && catalogue[k].id == id && forall j :: 0 <= j < k ==> catalogue[j].id != id
  }

  /** Some catalogue entry has this id. */
  predicate Known(catalogue: seq<Listed<Supply>>, id: Id) {
    exists j :: 0 <= j < |catalogue| && catalogue[j].id == id
  }

  /** `supply?.cost || 0`: the cost of the entry `find` returns, 0 when there is none. */
  function UnitCost(catalogue: seq<Listed<Supply>>, id: Id): real {
    match FindSupply(catalogue, id)
    case None => 0.0
    case Some(k) => catalogue[k].doc.data.cost
  }

  /** The unit cost is the first matching entry's cost, and 0 for an id the catalogue lacks. */
  lemma UnitCostIsFirstEntry(catalogue: seq<Listed<Supply>>, id: Id)
    ensures !Known(catalogue, id) ==> UnitCost(catalogue, id) == 0.0
    ensures forall k: nat :: IsFirstEntry(catalogue, id, k) ==> UnitCost(catalogue, id) == catalogue[k].doc.data.cost
  {
    var f := FindSupply(catalogue, id);
    if f.Some? {
      forall i: nat | IsFirstEntry(catalogue, id, i) ensures i == f.value {
        if i != f.value { assert false; }
      }
    }
  }

  /** The lines as the pricing formula sees them: unit price from the catalogue, quantity kept. */
  function ToPricingSupplies(lines: seq<ProductSupply>, catalogue: seq<Listed<Supply>>): (r: seq<PricingSupply>)
    ensures |r| == |lines|
    ensures forall k :: 0 <= k < |lines| ==>
      r[k] == PricingSupply(UnitCost(catalogue, lines[k].supplyId), lines[k].quantity)
  {
    seq(|lines|, k requires 0 <= k < |lines| => PricingSupply(UnitCost(catalogue, lines[k].supplyId), lines[k].quantity))
  }

  /** `calculateTotalCost`: the `reduce` of cost times quantity over the lines. */
  function TotalCost(lines: seq<ProductSupply>, catalogue: seq<Listed<Supply>>): real {
    if lines == [] then 0.0
    else
      var last := lines[|lines| - 1];
      TotalCost(lines[..|lines| - 1], catalogue) + UnitCost(catalogue, last.supplyId) * last.quantity
  }

  /** The total shown in the editor is the supplies cost the pricing formula uses. */
  lemma {:induction false} TotalCostIsSuppliesCost(lines: seq<ProductSupply>, catalogue: seq<Listed<Supply>>)
    ensures TotalCost(lines, catalogue) == SuppliesCost(ToPricingSupplies(lines, catalogue))
    decreases |lines|
  {
    if lines != [] {
      var n := |lines| - 1;
      var r := ToPricingSupplies(lines, catalogue);
      assert r[..n] == ToPricingSupplies(lines[..n], catalogue);
      TotalCostIsSuppliesCost(lines[..n], catalogue);
    }
  }

  /** Adding a line adds its cost times its quantity to the total. */
  lemma TotalCostAppend(lines: seq<ProductSupply>, x: ProductSupply, catalogue: seq<Listed<Supply>>)
    ensures TotalCost(lines + [x], catalogue) == TotalCost(lines, catalogue) + UnitCost(catalogue, x.supplyId) * x.quantity
  {
    assert (lines + [x])[..|lines|] == lines;
  }

  /** A line whose supply is not in the catalogue adds nothing to the total. */
  lemma UnknownSupplyCostsNothing(lines: seq<ProductSupply>, x: ProductSupply, catalogue: seq<Listed<Supply>>)
    requires !Known(catalogue, x.supplyId)
    ensures TotalCost(lines + [x], catalogue) == TotalCost(lines, catalogue)
  {
    TotalCostAppend(lines, x, catalogue);
    UnitCostIsFirstEntry(catalogue, x.supplyId);
  }

  /** `removeSupply`'s `filter((_, i) => i !== index)`: every line except the one at `index`. */
  function DropIndex<T>(s: seq<T>, index: int): (r: seq<T>)
    ensures 0 <= index < |s| ==> r == s[..index] + s[index + 1..]
    ensures !(0 <= index < |s|) ==> r == s
    decreases |s|
  {
    if s == [] then []
    else (if index == 0 then [] else [s[0]]) + DropIndex(s[1..], index - 1)
  }

  /** Removing the line just added gives back the lines as they were. */
  lemma RemoveUndoesAdd<T>(s: seq<T>, x: T)
    ensures DropIndex(s + [x], |s|) == s
  {
    assert (s + [x])[..|s|] == s;
  }

  /** One line after an edit: the edited field takes the new value, the other is kept. */
  function EditLine(line: ProductSupply, edit: LineEdit): (r: ProductSupply)
    ensures edit.SetSupplyId? ==> r.supplyId == edit.supplyId && r.quantity == line.quantity
    ensures edit.SetQuantity? ==> r.quantity == edit.quantity && r.supplyId == line.supplyId
  {
    match edit
    case SetSupplyId(id) => line.(supplyId := id)
    case SetQuantity(q) => line.(quantity := q)
  }

  /**
   * What the recalculation computes for the lines: its supplies cost is the
   * total the editor shows for the same lines.
   */
  function Recalculated(lines: seq<ProductSupply>, catalogue: seq<Listed<Supply>>, settings: SettingsData): (r: PriceCalculationResult)
    requires Priceable(SettingsService.AsPricing(settings))
    ensures r.suppliesCost == TotalCost(lines, catalogue)
    ensures r.totalCost == TotalCost(lines, catalogue) + settings.otherFixedCosts
  {
    TotalCostIsSuppliesCost(lines, catalogue);
    CalculatePrice(ToPricingSupplies(lines, catalogue), SettingsService.AsPricing(settings))
  }

  class ProductForm {
    /** The product being edited. */
    var product: ProductData
    /** The message shown to the user, if any. */
    var error: Option<string>
    /** The account's supplies, the lines' catalogue. */
    const catalogue: seq<Listed<Supply>>
    /** The account's pricing settings. */
    const settings: SettingsData

    constructor (catalogue: seq<Listed<Supply>>, settings: SettingsData, initial: Option<ProductData>)
      ensures this.catalogue == catalogue && this.settings == settings
      ensures product == InitialProduct(initial) && error.None?
    {
      this.catalogue := catalogue;
      this.settings := settings;
      product := InitialProduct(initial);
      error := None;
    }

    /**
     * `addSupply`: with an empty catalogue, an error and no change to the
     * product; otherwise one line for the first supply, quantity 1, at the end.
     */
    method AddSupply()
      modifies this
      ensures catalogue == [] ==> product == old(product) && error == Some(NoSuppliesInCatalogue)
      ensures catalogue != [] ==>
        && product == old(product).(supplies := old(product.supplies) + [ProductSupply(catalogue[0].id, 1.0)])
        && error == old(error)
    {
      if |catalogue| == 0 {
        error := Some(NoSuppliesInCatalogue);
        return;
      }
      product := product.(supplies := product.supplies + [ProductSupply(catalogue[0].id, 1.0)]);
    }

    /** `removeSupply`: the line at `index` goes, the others keep their order; no line there, no change. */
    method RemoveSupply(index: int)
      modifies this
      ensures 0 <= index < |old(product.supplies)| ==>
        product == old(product).(supplies := old(product.supplies)[..index] + old(product.supplies)[index + 1..])
      ensures !(0 <= index < |old(product.supplies)|) ==> product == old(product)
      ensures error == old(error)
    {
      product := product.(supplies := DropIndex(product.supplies, index));
    }

    /** `updateSupply`: one field of one line changes; every other line and field is kept. */
    method UpdateSupply(index: nat, edit: LineEdit)
      requires index < |product.supplies|
      modifies this
      ensures |product.supplies| == |old(product.supplies)|
      ensures product == old(product).(supplies := old(product.supplies)[index := EditLine(old(product.supplies)[index], edit)])
      ensures forall k :: 0 <= k < |product.supplies| && k != index ==> product.supplies[k] == old(product.supplies)[k]
      ensures error == old(error)
    {
      var lines := product.supplies;
      lines := lines[index := EditLine(lines[index], edit)];
      product := product.(supplies := lines);
    }

    /**
     * The recalculation effect: with at least one line, `price` becomes the
     * recommended selling price, and `currentPrice` takes it too if it had
     * no value; with no lines nothing happens.
     */
    method AutoCalculate()
      requires product.supplies != [] ==> Priceable(SettingsService.AsPricing(settings))
      modifies this
      ensures old(product.supplies) == [] ==> product == old(product)
      ensures old(product.supplies) != [] ==>
        var c := Recalculated(old(product.supplies), catalogue, settings);
        && product.price == c.sellingPrice
        && product.currentPrice == (if old(product.currentPrice).None? then Some(c.sellingPrice) else old(product.currentPrice))
        && product == old(product).(price := product.price, currentPrice := product.currentPrice)
      ensures error == old(error)
    {
      if |product.supplies| > 0 {
        var pricing := ToPricingSupplies(product.supplies, catalogue);
        var calculation := CalculatePrice(pricing, SettingsService.AsPricing(settings));
        var newCurrentPrice := if product.currentPrice.None? then Some(calculation.sellingPrice) else product.currentPrice;
        product := product.(price := calculation.sellingPrice, currentPrice := newCurrentPrice);
      }
    }

    /**
     * `handleSubmit`: with no lines, an error and nothing is submitted;
     * otherwise the product is handed to `onSubmit`, whose failure message,
     * if any, becomes the error.
     */
    method HandleSubmit(saveError: Option<string>) returns (submitted: Option<ProductData>)
      modifies this
      ensures product == old(product)
      ensures old(product.supplies) == [] ==> submitted.None? && error == Some(NoLinesOnSubmit)
      ensures old(product.supplies) != [] ==> submitted == Some(old(product)) && error == saveError
    {
      error := None;
      if |product.supplies| == 0 {
        error := Some(NoLinesOnSubmit);
        submitted := None;
        return;
      }
      submitted := Some(product);
      if saveError.Some? {
        error := saveError;
      }
    }
  }
}
