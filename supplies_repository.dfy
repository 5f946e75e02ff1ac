/**
 * The supplies collection.  Every supply belongs to one account; the
 * repository stamps the caller's account on creation, checks ownership
 * before reads, updates and deletes, lists an account's supplies newest
 * first and pages through them with a cursor.
 */
module Supplies {
  import opened Wrappers
  import opened Store

  /** A supply's own fields. */
  datatype Supply = Supply(name: string, description: Option<string>, cost: real)

  /** The fields an update may carry; an absent field is left as it is. */
  datatype SupplyPatch = SupplyPatch(name: Option<string>, description: Option<string>, cost: Option<real>)

  /** `{ ...stored, ...patch }`: the supplied fields win. */
  function MergeSupply(s: Supply, p: SupplyPatch): Supply {
    Supply(
      if p.name.Some? then p.name.value else s.name,
      if p.description.Some? then p.description else s.description,
      if p.cost.Some? then p.cost.value else s.cost)
  }

  /** A patch that supplies nothing leaves the supply as it was. */
  lemma EmptySupplyPatch(s: Supply)
    ensures MergeSupply(s, SupplyPatch(None, None, None)) == s
  {
  }

  /** Applying the same patch twice is the same as applying it once. */
  lemma SupplyPatchIdempotent(s: Supply, p: SupplyPatch)
    ensures MergeSupply(MergeSupply(s, p), p) == MergeSupply(s, p)
  {
  }

  /** A merge keeps every field the patch does not supply and takes every field it does. */
  lemma SupplyPatchFields(s: Supply, p: SupplyPatch)
    ensures p.name.None? ==> MergeSupply(s, p).name == s.name
    ensures p.name.Some? ==> MergeSupply(s, p).name == p.name.value
    ensures p.description.None? ==> MergeSupply(s, p).description == s.description
    ensures p.description.Some? ==> MergeSupply(s, p).description == p.description
    ensures p.cost.None? ==> MergeSupply(s, p).cost == s.cost
    ensures p.cost.Some? ==> MergeSupply(s, p).cost == p.cost.value
  {
  }

  class SuppliesRepository {
    /** The collection: document id to stored supply. */
    var docs: map<Id, Doc<Supply>>
    /** The next server timestamp. */
    var clock: int

    ghost predicate Valid()
      reads this
    {
      WellFormed(docs, clock)
    }

    constructor ()
      ensures Valid() && docs == map[]
    {
      docs := map[];
      clock := 0;
    }

    /**
     * `createSupply`: a new document under a fresh id, owned by the caller's
     * account, both timestamps set to the current server time.
     */
    method CreateSupply(account: Id, id: Id, data: Supply) returns (created: Listed<Supply>)
      requires Valid() && id !in docs
      modifies this
      ensures Valid()
      ensures created.id == id && created.doc.accountId == account && created.doc.data == data
      ensures created.doc.createdAt == created.doc.updatedAt == old(clock)
      ensures docs == old(docs)[id := created.doc]
      ensures clock == old(clock) + 1
    {
      var doc := Doc(account, clock, clock, data);
      docs := docs[id := doc];
      clock := clock + 1;
      created := Listed(id, doc);
    }

    /** `getSupplyById`: the supply if it exists and the caller owns it, else null. */
    function GetSupplyById(account: Id, id: Id): (r: Option<Listed<Supply>>)
      reads this
      ensures r.None? <==> id !in docs || docs[id].accountId != account
      ensures r.Some? ==> r.value == Listed(id, docs[id]) && r.value.doc.accountId == account
    {
      match GetOwned(docs, id, account)
      case None => None
      case Some(d) => Some(Listed(id, d))
    }

    /**
     * `updateSupply`: "Supply not found" for a missing id, "Forbidden" for a
     * supply of another account; otherwise the supplied fields are merged in
     * and `updatedAt` is stamped.  Nothing changes when it fails.
     */
    method UpdateSupply(account: Id, id: Id, patch: SupplyPatch) returns (outcome: Outcome<AccessError>)
      requires Valid()
      modifies this
      ensures Valid()
      ensures outcome == Fail(NotFound) <==> id !in old(docs)
      ensures outcome == Fail(Forbidden) <==> id in old(docs) && old(docs)[id].accountId != account
      ensures outcome.Pass? ==>
        && docs == old(docs)[id := old(docs)[id].(data := MergeSupply(old(docs)[id].data, patch), updatedAt := old(clock))]
        && clock == old(clock) + 1
      ensures outcome.Fail? ==> docs == old(docs) && clock == old(clock)
    {
      outcome := CheckAccess(docs, id, account);
      if outcome.Pass? {
        var d := docs[id];
        docs := docs[id := d.(data := MergeSupply(d.data, patch), updatedAt := clock)];
        clock := clock + 1;
      }
    }

    /**
     * `deleteSupply`: the same two checks; on success exactly that document
     * is removed.
     */
    method DeleteSupply(account: Id, id: Id) returns (outcome: Outcome<AccessError>)
      requires Valid()
      modifies this
      ensures Valid()
      ensures outcome == Fail(NotFound) <==> id !in old(docs)
      ensures outcome == Fail(Forbidden) <==> id in old(docs) && old(docs)[id].accountId != account
      ensures outcome.Pass? ==> docs == old(docs) - {id}
      ensures outcome.Fail? ==> docs == old(docs)
      ensures clock == old(clock)
    {
      outcome := CheckAccess(docs, id, account);
      if outcome.Pass? {
        docs := docs - {id};
      }
    }

    /** `listSupplies`: exactly the caller's supplies, newest first. */
    function ListSupplies(account: Id): (r: seq<Listed<Supply>>)
      requires Valid()
      reads this
      ensures FromStore(docs, r)
      ensures IdsOf(r) == OwnedIds(docs, account) && |r| == |OwnedIds(docs, account)|
      ensures forall k :: 0 <= k < |r| ==> r[k].doc.accountId == account
      ensures NewestFirstOrder(r)
    {
      ListLengthIsCount(docs, account);
      ListByAccount(docs, account)
    }

    /**
     * `getSupplies`: one page of the caller's supplies, newest first,
     * starting after the cursor document when it exists.
     */
    function GetSupplies(account: Id, pageSize: nat, cursor: Option<Id>): (p: Page<Supply>)
      requires Valid()
      reads this
      ensures p == GetPage(docs, account, pageSize, cursor)
      ensures p.total == |OwnedIds(docs, account)|
      ensures |p.items| <= pageSize
      ensures forall k :: 0 <= k < |p.items| ==> p.items[k].doc.accountId == account
    {
      GetPage(docs, account, pageSize, cursor)
    }
  }
}
