/**
 * The materials collection: account-scoped create, read, update, delete and
 * newest-first listing.
 */
module Materials {
  import opened Wrappers
  import opened Store

  /** A material's own fields; `unit` is how its cost is measured (unit, kg, metre). */
  datatype Material = Material(name: string, description: Option<string>, cost: real, unit: string)

  /** The fields an update may carry; an absent field is left as it is. */
  datatype MaterialPatch = MaterialPatch(
    name: Option<string>,
    description: Option<string>,
    cost: Option<real>,
    unit: Option<string>)

  /** `{ ...stored, ...patch }`: the supplied fields win. */
  function MergeMaterial(s: Material, p: MaterialPatch): Material {
    Material(
      if p.name.Some? then p.name.value else s.name,
      if p.description.Some? then p.description else s.description,
      if p.cost.Some? then p.cost.value else s.cost,
      if p.unit.Some? then p.unit.value else s.unit)
  }

  /** A patch that supplies nothing leaves the material as it was. */
  lemma EmptyMaterialPatch(s: Material)
    ensures MergeMaterial(s, MaterialPatch(None, None, None, None)) == s
  {
  }

  /** Applying the same patch twice is the same as applying it once. */
  lemma MaterialPatchIdempotent(s: Material, p: MaterialPatch)
    ensures MergeMaterial(MergeMaterial(s, p), p) == MergeMaterial(s, p)
  {
  }

  /** A merge keeps every field the patch does not supply and takes every field it does. */
  lemma MaterialPatchFields(s: Material, p: MaterialPatch)
    ensures p.name.None? ==> MergeMaterial(s, p).name == s.name
    ensures p.name.Some? ==> MergeMaterial(s, p).name == p.name.value
    ensures p.description.None? ==> MergeMaterial(s, p).description == s.description
    ensures p.description.Some? ==> MergeMaterial(s, p).description == p.description
    ensures p.cost.None? ==> MergeMaterial(s, p).cost == s.cost
    ensures p.cost.Some? ==> MergeMaterial(s, p).cost == p.cost.value
    ensures p.unit.None? ==> MergeMaterial(s, p).unit == s.unit
    ensures p.unit.Some? ==> MergeMaterial(s, p).unit == p.unit.value
  {
  }

  class MaterialsRepository {
    /** The collection: document id to stored material. */
    var docs: map<Id, Doc<Material>>
    /** The next server timestamp. */
    var clock: int

    ghost predicate Valid()
      reads this
    {
      WellFormed(docs, clock)
    }

    constructor ()
      ensures Valid() && docs == map[]
    {
      docs := map[];
      clock := 0;
    }

    /** `createMaterial`: a new document under a fresh id, owned by the caller's account. */
    method CreateMaterial(account: Id, id: Id, data: Material) returns (created: Listed<Material>)
      requires Valid() && id !in docs
      modifies this
      ensures Valid()
      ensures created.id == id && created.doc.accountId == account && created.doc.data == data
      ensures created.doc.createdAt == created.doc.updatedAt == old(clock)
      ensures docs == old(docs)[id := created.doc]
      ensures clock == old(clock) + 1
    {
      var doc := Doc(account, clock, clock, data);
      docs := docs[id := doc];
      clock := clock + 1;
      created := Listed(id, doc);
    }

    /** `getMaterialById`: the material if it exists and the caller owns it, else null. */
    function GetMaterialById(account: Id, id: Id): (r: Option<Listed<Material>>)
      reads this
      ensures r.None? <==> id !in docs || docs[id].accountId != account
      ensures r.Some? ==> r.value == Listed(id, docs[id]) && r.value.doc.accountId == account
    {
      match GetOwned(docs, id, account)
      case None => None
      case Some(d) => Some(Listed(id, d))
    }

    /**
     * `updateMaterial`: "Material not found" for a missing id, "Forbidden" for
     * a material of another account; otherwise the supplied fields are merged
     * in and `updatedAt` is stamped.  Nothing changes when it fails.
     */
    method UpdateMaterial(account: Id, id: Id, patch: MaterialPatch) returns (outcome: Outcome<AccessError>)
      requires Valid()
      modifies this
      ensures Valid()
      ensures outcome == Fail(NotFound) <==> id !in old(docs)
      ensures outcome == Fail(Forbidden) <==> id in old(docs) && old(docs)[id].accountId != account
      ensures outcome.Pass? ==>
        && docs == old(docs)[id := old(docs)[id].(data := MergeMaterial(old(docs)[id].data, patch), updatedAt := old(clock))]
        && clock == old(clock) + 1
      ensures outcome.Fail? ==> docs == old(docs) && clock == old(clock)
    {
      outcome := CheckAccess(docs, id, account);
      if outcome.Pass? {
        var d := docs[id];
        docs := docs[id := d.(data := MergeMaterial(d.data, patch), updatedAt := clock)];
        clock := clock + 1;
      }
    }

    /** `listMaterials`: exactly the caller's materials, newest first. */
    function ListMaterials(account: Id): (r: seq<Listed<Material>>)
      requires Valid()
      reads this
      ensures FromStore(docs, r)
      ensures IdsOf(r) == OwnedIds(docs, account) && |r| == |OwnedIds(docs, account)|
      ensures forall k :: 0 <= k < |r| ==> r[k].doc.accountId == account
      ensures NewestFirstOrder(r)
    {
      ListLengthIsCount(docs, account);
      ListByAccount(docs, account)
    }

    /** `deleteMaterial`: the same two checks; on success exactly that document is removed. */
    method DeleteMaterial(account: Id, id: Id) returns (outcome: Outcome<AccessError>)
      requires Valid()
      modifies this
      ensures Valid()
      ensures outcome == Fail(NotFound) <==> id !in old(docs)
      ensures outcome == Fail(Forbidden) <==> id in old(docs) && old(docs)[id].accountId != account
      ensures outcome.Pass? ==> docs == old(docs) - {id}
      ensures outcome.Fail? ==> docs == old(docs)
      ensures clock == old(clock)
    {
      outcome := CheckAccess(docs, id, account);
      if outcome.Pass? {
        docs := docs - {id};
      }
    }
  }
}
