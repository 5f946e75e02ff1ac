/**
 * The products collection: the same account-scoped operations as the other
 * collections, plus the query for the account's products whose price must
 * be recalculated.
 */
module Products {
  import opened Wrappers
  import opened Store

  /** A line of a product's recipe: which material, how much and in what unit. */
  datatype Ingredient = Ingredient(materialId: Id, quantity: real, unit: string)

  /** A product's own fields. */
  datatype Product = Product(
    name: string,
    description: Option<string>,
    price: real,
    ingredients: seq<Ingredient>,
    needsRecalculation: Option<bool>)

  /** The fields an update may carry; an absent field is left as it is. */
  datatype ProductPatch = ProductPatch(
    name: Option<string>,
    description: Option<string>,
    price: Option<real>,
    ingredients: Option<seq<Ingredient>>,
    needsRecalculation: Option<bool>)

  /** `{ ...stored, ...patch }`: the supplied fields win. */
  function MergeProduct(s: Product, p: ProductPatch): Product {
    Product(
      if p.name.Some? then p.name.value else s.name,
      if p.description.Some? then p.description else s.description,
      if p.price.Some? then p.price.value else s.price,
      if p.ingredients.Some? then p.ingredients.value else s.ingredients,
      if p.needsRecalculation.Some? then p.needsRecalculation else s.needsRecalculation)
  }

  /** A patch that supplies nothing leaves the product as it was. */
  lemma EmptyProductPatch(s: Product)
    ensures MergeProduct(s, ProductPatch(None, None, None, None, None)) == s
  {
  }

  /** Applying the same patch twice is the same as applying it once. */
  lemma ProductPatchIdempotent(s: Product, p: ProductPatch)
    ensures MergeProduct(MergeProduct(s, p), p) == MergeProduct(s, p)
  {
  }

  /** A merge keeps every field the patch does not supply and takes every field it does. */
  lemma ProductPatchFields(s: Product, p: ProductPatch)
    ensures p.name.None? ==> MergeProduct(s, p).name == s.name
    ensures p.name.Some? ==> MergeProduct(s, p).name == p.name.value
    ensures p.description.None? ==> MergeProduct(s, p).description == s.description
    ensures p.description.Some? ==> MergeProduct(s, p).description == p.description
    ensures p.price.None? ==> MergeProduct(s, p).price == s.price
    ensures p.price.Some? ==> MergeProduct(s, p).price == p.price.value
    ensures p.ingredients.None? ==> MergeProduct(s, p).ingredients == s.ingredients
    ensures p.ingredients.Some? ==> MergeProduct(s, p).ingredients == p.ingredients.value
    ensures p.needsRecalculation.None? ==> MergeProduct(s, p).needsRecalculation == s.needsRecalculation
    ensures p.needsRecalculation.Some? ==> MergeProduct(s, p).needsRecalculation == p.needsRecalculation
  {
  }

  /** The ids of `account`'s products flagged for recalculation. */
  function FlaggedIds(docs: map<Id, Doc<Product>>, account: Id): set<Id> {
    set id | id in docs && docs[id].accountId == account && docs[id].data.needsRecalculation == Some(true)
  }

  class ProductsRepository {
    /** The collection: document id to stored product. */
    var docs: map<Id, Doc<Product>>
    /** The next server timestamp. */
    var clock: int

    ghost predicate Valid()
      reads this
    {
      WellFormed(docs, clock)
    }

    constructor ()
      ensures Valid() && docs == map[]
    {
      docs := map[];
      clock := 0;
    }

    /** `createProduct`: a new document under a fresh id, owned by the caller's account. */
    method CreateProduct(account: Id, id: Id, data: Product) returns (created: Listed<Product>)
      requires Valid() && id !in docs
      modifies this
      ensures Valid()
      ensures created.id == id && created.doc.accountId == account && created.doc.data == data
      ensures created.doc.createdAt == created.doc.updatedAt == old(clock)
      ensures docs == old(docs)[id := created.doc]
      ensures clock == old(clock) + 1
    {
      var doc := Doc(account, clock, clock, data);
      docs := docs[id := doc];
      clock := clock + 1;
      created := Listed(id, doc);
    }

    /** `getProducts`: exactly the caller's products, newest first; empty when there are none. */
    function GetProducts(account: Id): (r: seq<Listed<Product>>)
      requires Valid()
      reads this
      ensures FromStore(docs, r)
      ensures IdsOf(r) == OwnedIds(docs, account) && |r| == |OwnedIds(docs, account)|
      ensures forall k :: 0 <= k < |r| ==> r[k].doc.accountId == account
      ensures NewestFirstOrder(r)
      ensures r == [] <==> OwnedIds(docs, account) == {}
    {
      ListLengthIsCount(docs, account);
      ListByAccount(docs, account)
    }

    /** `getProductById`: the product if it exists and the caller owns it, else null. */
    function GetProductById(account: Id, id: Id): (r: Option<Listed<Product>>)
      reads this
      ensures r.None? <==> id !in docs || docs[id].accountId != account
      ensures r.Some? ==> r.value == Listed(id, docs[id]) && r.value.doc.accountId == account
    {
      match GetOwned(docs, id, account)
      case None => None
      case Some(d) => Some(Listed(id, d))
    }

    /**
     * `updateProduct`: "Product not found" for a missing id, "Forbidden" for a
     * product of another account; otherwise the supplied fields are merged in
     * and `updatedAt` is stamped.  Nothing changes when it fails.
     */
    method UpdateProduct(account: Id, id: Id, patch: ProductPatch) returns (outcome: Outcome<AccessError>)
      requires Valid()
      modifies this
      ensures Valid()
      ensures outcome == Fail(NotFound) <==> id !in old(docs)
      ensures outcome == Fail(Forbidden) <==> id in old(docs) && old(docs)[id].accountId != account
      ensures outcome.Pass? ==>
        && docs == old(docs)[id := old(docs)[id].(data := MergeProduct(old(docs)[id].data, patch), updatedAt := old(clock))]
        && clock == old(clock) + 1
      ensures outcome.Fail? ==> docs == old(docs) && clock == old(clock)
    {
      outcome := CheckAccess(docs, id, account);
      if outcome.Pass? {
        var d := docs[id];
        docs := docs[id := d.(data := MergeProduct(d.data, patch), updatedAt := clock)];
        clock := clock + 1;
      }
    }

    /** `deleteProduct`: the same two checks; on success exactly that document is removed. */
    method DeleteProduct(account: Id, id: Id) returns (outcome: Outcome<AccessError>)
      requires Valid()
      modifies this
      ensures Valid()
      ensures outcome == Fail(NotFound) <==> id !in old(docs)
      ensures outcome == Fail(Forbidden) <==> id in old(docs) && old(docs)[id].accountId != account
      ensures outcome.Pass? ==> docs == old(docs) - {id}
      ensures outcome.Fail? ==> docs == old(docs)
      ensures clock == old(clock)
    {
      outcome := CheckAccess(docs, id, account);
      if outcome.Pass? {
        docs := docs - {id};
      }
    }

    /**
     * `getProductsNeedingRecalculation`: exactly the caller's products whose
     * flag is `true`.  The query has no `orderBy`, so they come in document
     * id order.
     */
    function GetProductsNeedingRecalculation(account: Id): (r: seq<Listed<Product>>)
      reads this
      ensures FromStore(docs, r)
      ensures forall k :: 0 <= k < |r| ==>
        r[k].doc.accountId == account && r[k].doc.data.needsRecalculation == Some(true)
      ensures IdsOf(r) == FlaggedIds(docs, account)
      ensures forall i, j :: 0 <= i < j < |r| ==> r[i].id < r[j].id
    {
      var r := InIdOrder(docs, FlaggedIds(docs, account));
      assert forall k :: 0 <= k < |r| ==> r[k].id in IdsOf(r);
      r
    }
  }
}
