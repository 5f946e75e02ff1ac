/**
 * The accounts collection: an account carries the subscription state (plan,
 * Stripe ids, status).  Accounts are created with the FREE plan unless told
 * otherwise, updated field by field, and deleted softly by stamping
 * `deletedAt`, so a deleted account can still be read.
 */
module Accounts {
  import opened Wrappers
  import opened Store
  import opened PlanConfig

  /** A Stripe subscription's status; an account without a subscription has none. */
  datatype SubscriptionStatus =
    | Active | Trialing | Canceled | Unpaid | PastDue | Incomplete | IncompleteExpired | Paused

  datatype Account = Account(
    name: string,
    planName: Plan,
    subscriptionStatus: Option<SubscriptionStatus>,
    stripeCustomerId: Option<string>,
    stripeSubscriptionId: Option<string>,
    stripeProductId: Option<string>,
    createdAt: int,
    updatedAt: int,
    deletedAt: Option<int>)

  /**
   * The fields an update may carry.  The outer `Option` says whether the
   * field is supplied; for nullable fields the inner one is the new value,
   * `None` standing for null.
   */
  datatype AccountPatch = AccountPatch(
    name: Option<string>,
    planName: Option<Plan>,
    subscriptionStatus: Option<Option<SubscriptionStatus>>,
    stripeCustomerId: Option<Option<string>>,
    stripeSubscriptionId: Option<Option<string>>,
    stripeProductId: Option<Option<string>>,
    deletedAt: Option<Option<int>>)

  /** `{ ...stored, ...patch, updatedAt: now }`. */
  function MergeAccount(a: Account, p: AccountPatch, now: int): Account {
    a.(
      name := if p.name.Some? then p.name.value else a.name,
      planName := if p.planName.Some? then p.planName.value else a.planName,
      subscriptionStatus := if p.subscriptionStatus.Some? then p.subscriptionStatus.value else a.subscriptionStatus,
      stripeCustomerId := if p.stripeCustomerId.Some? then p.stripeCustomerId.value else a.stripeCustomerId,
      stripeSubscriptionId := if p.stripeSubscriptionId.Some? then p.stripeSubscriptionId.value else a.stripeSubscriptionId,
      stripeProductId := if p.stripeProductId.Some? then p.stripeProductId.value else a.stripeProductId,
      deletedAt := if p.deletedAt.Some? then p.deletedAt.value else a.deletedAt,
      updatedAt := now)
  }

  /** A merge keeps the creation time, takes the supplied fields and keeps the rest. */
  lemma AccountPatchFields(a: Account, p: AccountPatch, now: int)
    ensures MergeAccount(a, p, now).createdAt == a.createdAt
    ensures MergeAccount(a, p, now).updatedAt == now
    ensures p.name.None? ==> MergeAccount(a, p, now).name == a.name
    ensures p.name.Some? ==> MergeAccount(a, p, now).name == p.name.value
    ensures p.planName.None? ==> MergeAccount(a, p, now).planName == a.planName
    ensures p.planName.Some? ==> MergeAccount(a, p, now).planName == p.planName.value
    ensures p.subscriptionStatus.None? ==> MergeAccount(a, p, now).subscriptionStatus == a.subscriptionStatus
    ensures p.subscriptionStatus.Some? ==> MergeAccount(a, p, now).subscriptionStatus == p.subscriptionStatus.value
    ensures p.stripeCustomerId.None? ==> MergeAccount(a, p, now).stripeCustomerId == a.stripeCustomerId
    ensures p.stripeCustomerId.Some? ==> MergeAccount(a, p, now).stripeCustomerId == p.stripeCustomerId.value
    ensures p.stripeSubscriptionId.None? ==> MergeAccount(a, p, now).stripeSubscriptionId == a.stripeSubscriptionId
    ensures p.stripeSubscriptionId.Some? ==> MergeAccount(a, p, now).stripeSubscriptionId == p.stripeSubscriptionId.value
    ensures p.stripeProductId.None? ==> MergeAccount(a, p, now).stripeProductId == a.stripeProductId
    ensures p.stripeProductId.Some? ==> MergeAccount(a, p, now).stripeProductId == p.stripeProductId.value
    ensures p.deletedAt.None? ==> MergeAccount(a, p, now).deletedAt == a.deletedAt
    ensures p.deletedAt.Some? ==> MergeAccount(a, p, now).deletedAt == p.deletedAt.value
  {
  }

  /** Every account was last written after it was created and before the clock's next reading. */
  predicate Stamped(accounts: map<Id, Account>, clock: int) {
    forall id :: id in accounts ==> accounts[id].createdAt <= accounts[id].updatedAt < clock
  }

  class AccountsRepository {
    /** The collection: account id to account. */
    var accounts: map<Id, Account>
    /** The next server timestamp. */
    var clock: int

    ghost predicate Valid()
      reads this
    {
      Stamped(accounts, clock)
    }

    constructor ()
      ensures Valid() && accounts == map[]
    {
      accounts := map[];
      clock := 0;
    }

    /**
     * `createAccount`: the given name, the given plan or FREE, no
     * subscription status, no Stripe ids, not deleted.
     */
    method CreateAccount(id: Id, name: string, planName: Option<Plan>) returns (created: Account)
      requires Valid() && id !in accounts
      modifies this
      ensures Valid()
      ensures created.name == name
      ensures created.planName == (if planName.Some? then planName.value else Free)
      ensures created.subscriptionStatus.None? && created.deletedAt.None?
      ensures created.stripeCustomerId.None? && created.stripeSubscriptionId.None? && created.stripeProductId.None?
      ensures created.createdAt == created.updatedAt == old(clock)
      ensures accounts == old(accounts)[id := created]
      ensures clock == old(clock) + 1
    {
      created := Account(name, planName.GetOr(Free), None, None, None, None, clock, clock, None);
      accounts := accounts[id := created];
      clock := clock + 1;
    }

    /** `getAccountById`: the account under `id`, deleted or not, or null for an unknown id. */
    function GetAccountById(id: Id): (r: Option<Account>)
      reads this
      ensures r.None? <==> id !in accounts
      ensures r.Some? ==> r.value == accounts[id]
    {
      if id in accounts then Some(accounts[id]) else None
    }

    /**
     * `updateAccount`: merges the supplied fields and stamps `updatedAt`;
     * updating a missing account fails with "not found" and changes nothing.
     */
    method UpdateAccount(id: Id, patch: AccountPatch) returns (outcome: Outcome<AccessError>)
      requires Valid()
      modifies this
      ensures Valid()
      ensures outcome.Pass? <==> id in old(accounts)
      ensures outcome.Fail? ==> outcome.error == NotFound && accounts == old(accounts) && clock == old(clock)
      ensures outcome.Pass? ==>
        && accounts == old(accounts)[id := MergeAccount(old(accounts)[id], patch, old(clock))]
        && clock == old(clock) + 1
    {
      if id in accounts {
        accounts := accounts[id := MergeAccount(accounts[id], patch, clock)];
        clock := clock + 1;
        outcome := Pass;
      } else {
        outcome := Fail(NotFound);
      }
    }

    /**
     * `deleteAccount`: a soft delete.  The record stays under its id with
     * every field kept, and gains `deletedAt` and a new `updatedAt`, both the
     * current server time.
     */
    method DeleteAccount(id: Id) returns (outcome: Outcome<AccessError>)
      requires Valid()
      modifies this
      ensures Valid()
      ensures outcome.Pass? <==> id in old(accounts)
      ensures outcome.Fail? ==> outcome.error == NotFound && accounts == old(accounts) && clock == old(clock)
      ensures outcome.Pass? ==>
        && accounts == old(accounts)[id := old(accounts)[id].(deletedAt := Some(old(clock)), updatedAt := old(clock))]
        && clock == old(clock) + 1
      ensures accounts.Keys == old(accounts.Keys)
      ensures outcome.Pass? ==> GetAccountById(id).Some? && GetAccountById(id).value.deletedAt == Some(old(clock))
    {
      if id in accounts {
        var a := accounts[id];
        accounts := accounts[id := a.(deletedAt := Some(clock), updatedAt := clock)];
        clock := clock + 1;
        outcome := Pass;
      } else {
        outcome := Fail(NotFound);
      }
    }
  }

  /** A soft delete is the update that supplies only `deletedAt`. */
  lemma SoftDeleteIsUpdate(a: Account, now: int)
    ensures a.(deletedAt := Some(now), updatedAt := now)
         == MergeAccount(a, AccountPatch(None, None, None, None, None, None, Some(Some(now))), now)
  {
  }
}
