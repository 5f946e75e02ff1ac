/**
 * The settings collection: one pricing-settings record per account, created
 * with default values, looked up by account or by id, and updated field by
 * field.
 */
module Settings {
  import opened Wrappers
  import opened Store

  /** The pricing parameters; the three rates are percentages, the fixed cost an amount. */
  datatype SettingsData = SettingsData(
    taxRate: real,
    profitMargin: real,
    otherFixedCosts: real,
    otherPercentageCosts: real)

  /** The fields an update may carry; an absent field is left as it is. */
  datatype SettingsPatch = SettingsPatch(
    taxRate: Option<real>,
    profitMargin: Option<real>,
    otherFixedCosts: Option<real>,
    otherPercentageCosts: Option<real>)

  /** What a new account starts with: no tax, 30% profit, no other costs. */
  const DefaultSettings := SettingsData(0.0, 30.0, 0.0, 0.0)

  /** `{ ...stored, ...patch }`: the supplied fields win. */
  function MergeSettings(s: SettingsData, p: SettingsPatch): SettingsData {
    SettingsData(
      if p.taxRate.Some? then p.taxRate.value else s.taxRate,
      if p.profitMargin.Some? then p.profitMargin.value else s.profitMargin,
      if p.otherFixedCosts.Some? then p.otherFixedCosts.value else s.otherFixedCosts,
      if p.otherPercentageCosts.Some? then p.otherPercentageCosts.value else s.otherPercentageCosts)
  }

  /** A merge keeps every field the patch does not supply and takes every field it does. */
  lemma SettingsPatchFields(s: SettingsData, p: SettingsPatch)
    ensures p.taxRate.None? ==> MergeSettings(s, p).taxRate == s.taxRate
    ensures p.taxRate.Some? ==> MergeSettings(s, p).taxRate == p.taxRate.value
    ensures p.profitMargin.None? ==> MergeSettings(s, p).profitMargin == s.profitMargin
    ensures p.profitMargin.Some? ==> MergeSettings(s, p).profitMargin == p.profitMargin.value
    ensures p.otherFixedCosts.None? ==> MergeSettings(s, p).otherFixedCosts == s.otherFixedCosts
    ensures p.otherFixedCosts.Some? ==> MergeSettings(s, p).otherFixedCosts == p.otherFixedCosts.value
    ensures p.otherPercentageCosts.None? ==> MergeSettings(s, p).otherPercentageCosts == s.otherPercentageCosts
    ensures p.otherPercentageCosts.Some? ==> MergeSettings(s, p).otherPercentageCosts == p.otherPercentageCosts.value
  {
  }

  /** Applying the same patch twice is the same as applying it once. */
  lemma SettingsPatchIdempotent(s: SettingsData, p: SettingsPatch)
    ensures MergeSettings(MergeSettings(s, p), p) == MergeSettings(s, p)
  {
  }

  class SettingsRepository {
    /** The collection: document id to stored settings. */
    var docs: map<Id, Doc<SettingsData>>
    /** The next server timestamp. */
    var clock: int

    ghost predicate Valid()
      reads this
    {
      WellFormed(docs, clock)
    }

    constructor ()
      ensures Valid() && docs == map[]
    {
      docs := map[];
      clock := 0;
    }

    /**
     * `createSettings`: a new record with the default values for the
     * account.  It does not look for an existing one, so an account that
     * already has settings gets a second record.
     */
    method CreateSettings(accountId: Id, id: Id) returns (created: Listed<SettingsData>)
      requires Valid() && id !in docs
      modifies this
      ensures Valid()
      ensures created == Listed(id, Doc(accountId, old(clock), old(clock), DefaultSettings))
      ensures docs == old(docs)[id := created.doc]
      ensures OwnedIds(docs, accountId) == OwnedIds(old(docs), accountId) + {id}
      ensures |OwnedIds(docs, accountId)| == |OwnedIds(old(docs), accountId)| + 1
      ensures clock == old(clock) + 1
    {
      var doc := Doc(accountId, clock, clock, DefaultSettings);
      docs := docs[id := doc];
      clock := clock + 1;
      created := Listed(id, doc);
    }

    /**
     * `getSettingsByAccountId`: the first of the account's records (the
     * query has no `orderBy`, so the one with the least id), or null when
     * the account has none.
     */
    function GetSettingsByAccountId(accountId: Id): (r: Option<Listed<SettingsData>>)
      reads this
      ensures r.None? <==> OwnedIds(docs, accountId) == {}
      ensures r.Some? ==> r.value.id in docs && r.value.doc == docs[r.value.id]
      ensures r.Some? ==> r.value.doc.accountId == accountId
      ensures r.Some? ==> forall i :: i in OwnedIds(docs, accountId) ==> r.value.id <= i
    {
      var owned := OwnedIds(docs, accountId);
      if owned == {} then None
      else
        var id := LeastId(owned);
        Some(Listed(id, docs[id]))
    }

    /** `getSettingsById`: the record under `id`, or null for an unknown id. */
    function GetSettingsById(id: Id): (r: Option<Listed<SettingsData>>)
      reads this
      ensures r.None? <==> id !in docs
      ensures r.Some? ==> r.value == Listed(id, docs[id])
    {
      if id in docs then Some(Listed(id, docs[id])) else None
    }

    /**
     * `updateSettings`: merges the supplied fields into the record and
     * stamps `updatedAt`.  There is no ownership check; updating a missing
     * document fails with "not found" and changes nothing.
     */
    method UpdateSettings(id: Id, patch: SettingsPatch) returns (outcome: Outcome<AccessError>)
      requires Valid()
      modifies this
      ensures Valid()
      ensures outcome.Pass? <==> id in old(docs)
      ensures outcome.Fail? ==> outcome.error == NotFound && docs == old(docs) && clock == old(clock)
      ensures outcome.Pass? ==>
        && docs == old(docs)[id := old(docs)[id].(data := MergeSettings(old(docs)[id].data, patch), updatedAt := old(clock))]
        && clock == old(clock) + 1
    {
      if id in docs {
        var d := docs[id];
        docs := docs[id := d.(data := MergeSettings(d.data, patch), updatedAt := clock)];
        clock := clock + 1;
        outcome := Pass;
      } else {
        outcome := Fail(NotFound);
      }
    }
  }
}
