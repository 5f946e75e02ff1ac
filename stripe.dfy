/**
 * The Stripe subscription webhook: a subscription event for a customer
 * becomes an update of the user record carrying that customer id, or no
 * change at all.  The product's name, which the handler fetches from
 * Stripe, is an input here.
 */
module Payments {
  import opened Wrappers
  import opened Store
  import opened PlanConfig
  import opened Accounts

  /** The parts of a Stripe subscription the handler reads. */
  datatype Subscription = Subscription(
    customer: string,
    id: string,
    status: SubscriptionStatus,
    productId: Option<string>)  // the product of the first item's plan, if any

  /** A user record as far as billing is concerned. */
  datatype User = User(
    email: string,
    accountId: Id,
    planName: Plan,
    subscriptionStatus: Option<SubscriptionStatus>,
    stripeCustomerId: Option<string>,
    stripeSubscriptionId: Option<string>,
    stripeProductId: Option<string>,
    updatedAt: int)

  /**
   * The update written to the user.  `stripeSubscriptionId` is always
   * written (`None` is null); `stripeProductId` is `None` where the handler
   * passes `undefined`.
   */
  datatype UserPatch = UserPatch(
    stripeSubscriptionId: Option<string>,
    stripeProductId: Option<string>,
    planName: Plan,
    subscriptionStatus: SubscriptionStatus)

  /** Upper-casing of one ASCII letter; other characters are kept. */
  function UpperChar(c: char): char {
    if 'a' <= c <= 'z' then (c as int - 32) as char else c
  }

  /** `toUpperCase`, for ASCII letters. */
  function UpperAscii(s: string): (r: string)
    ensures |r| == |s|
    ensures forall i :: 0 <= i < |s| ==> r[i] == UpperChar(s[i])
  {
    seq(|s|, i requires 0 <= i < |s| => UpperChar(s[i]))
  }

  /** The names that upper-case to "PRO" are the eight spellings of "pro". */
  lemma ProSpellings(name: string)
    ensures UpperAscii(name) == "PRO" <==>
      && |name| == 3
      && (name[0] == 'p' || name[0] == 'P')
      && (name[1] == 'r' || name[1] == 'R')
      && (name[2] == 'o' || name[2] == 'O')
  {
    var r := UpperAscii(name);
    if |name| == 3 && (name[0] == 'p' || name[0] == 'P') && (name[1] == 'r' || name[1] == 'R')
       && (name[2] == 'o' || name[2] == 'O') {
      assert r[0] == 'P' && r[1] == 'R' && r[2] == 'O';
      assert r == "PRO";
    }
    if r == "PRO" {
      assert r[0] == UpperChar(name[0]) && r[1] == UpperChar(name[1]) && r[2] == UpperChar(name[2]);
    }
  }

  /** A product id counts only when it is a non-empty string. */
  predicate HasProduct(productId: Option<string>) {
    productId.Some? && productId.value != ""
  }

  /** The decision for a subscription status. */
  function SubscriptionChange(sub: Subscription, productName: Option<string>): (r: Option<UserPatch>)
    ensures r.None? <==> !(sub.status == Active || sub.status == Trialing || sub.status == Canceled || sub.status == Unpaid)
    ensures sub.status == Active || sub.status == Trialing ==>
      && r.Some?
      && r.value.stripeSubscriptionId == Some(sub.id)
      && r.value.subscriptionStatus == sub.status
      && (r.value.planName == Pro <==> HasProduct(sub.productId) && productName.Some? && UpperAscii(productName.value) == "PRO")
      && (HasProduct(sub.productId) ==> r.value.stripeProductId == sub.productId)
      && (!HasProduct(sub.productId) ==> r.value.stripeProductId.None? && r.value.planName == Free)
    ensures sub.status == Canceled || sub.status == Unpaid ==>
      r == Some(UserPatch(None, None, Free, sub.status))
  {
    if sub.status == Active || sub.status == Trialing then
      var plan := if HasProduct(sub.productId) && productName.Some? && UpperAscii(productName.value) == "PRO" then Pro else Free;
      Some(UserPatch(Some(sub.id), if HasProduct(sub.productId) then sub.productId else None, plan, sub.status))
    else if sub.status == Canceled || sub.status == Unpaid then
      Some(UserPatch(None, None, Free, sub.status))
    else
      None
  }

  /**
   * `updateUser(uid, patch)` as evidently intended: the patch's fields, then
   * `updatedAt`; an `undefined` product id leaves the stored one as it is.
   */
  function ApplyUserPatch(u: User, p: UserPatch, now: int): (v: User)
    ensures v.email == u.email && v.accountId == u.accountId && v.stripeCustomerId == u.stripeCustomerId
    ensures v.planName == p.planName && v.subscriptionStatus == Some(p.subscriptionStatus)
    ensures v.stripeSubscriptionId == p.stripeSubscriptionId
    ensures v.stripeProductId == (if p.stripeProductId.Some? then p.stripeProductId else u.stripeProductId)
    ensures v.updatedAt == now
  {
    u.(
      stripeSubscriptionId := p.stripeSubscriptionId,
      stripeProductId := if p.stripeProductId.Some? then p.stripeProductId else u.stripeProductId,
      planName := p.planName,
      subscriptionStatus := Some(p.subscriptionStatus),
      updatedAt := now)
  }

  /**
   * `updateUser(uid, patch)` as the Admin SDK performs it here, where
   * `ignoreUndefinedProperties` is never turned on: an update holding a
   * field whose value is `undefined` is rejected and nothing is written
   * (`None`); any other update is stored as `ApplyUserPatch` writes it.
   */
  function UpdateUserAsWritten(u: User, p: UserPatch, now: int): (r: Option<User>)
    ensures r.None? <==> p.stripeProductId.None?
    ensures r.Some? ==> r.value == ApplyUserPatch(u, p, now)
  {
    if p.stripeProductId.None? then None else Some(ApplyUserPatch(u, p, now))
  }

  /** As written, a cancellation is never stored: the user keeps its plan, PRO included. */
  lemma CancellationIgnoredAsWritten(u: User, sub: Subscription, productName: Option<string>, now: int)
    requires sub.status == Canceled || sub.status == Unpaid
    ensures UpdateUserAsWritten(u, SubscriptionChange(sub, productName).value, now).None?
  {
  }

  /** As written, an active subscription without a product is not stored either. */
  lemma ProductlessActivationIgnoredAsWritten(u: User, sub: Subscription, productName: Option<string>, now: int)
    requires (sub.status == Active || sub.status == Trialing) && !HasProduct(sub.productId)
    ensures UpdateUserAsWritten(u, SubscriptionChange(sub, productName).value, now).None?
  {
  }

  /** With a product the update holds no `undefined` field, and both readings agree. */
  lemma ProductActivationStoredAsWritten(u: User, sub: Subscription, productName: Option<string>, now: int)
    requires (sub.status == Active || sub.status == Trialing) && HasProduct(sub.productId)
    ensures UpdateUserAsWritten(u, SubscriptionChange(sub, productName).value, now)
            == Some(ApplyUserPatch(u, SubscriptionChange(sub, productName).value, now))
  {
  }

  /** The users whose record carries the customer id. */
  function CustomerUsers(users: map<Id, User>, customer: string): set<Id> {
    set id | id in users && users[id].stripeCustomerId == Some(customer)
  }

  class UsersCollection {
    /** The users collection: user id to record. */
    var users: map<Id, User>
    /** The next server timestamp. */
    var clock: int

    constructor ()
      ensures users == map[]
    {
      users := map[];
      clock := 0;
    }

    /**
     * `handleSubscriptionChange`: finds the first user with the customer id
     * (the query has no `orderBy`, so the least id); with none, nothing
     * happens.  Otherwise the status decides the update, if any, written to
     * that user alone.
     */
    method HandleSubscriptionChange(sub: Subscription, productName: Option<string>) returns (updated: Option<Id>)
      modifies this
      ensures updated.Some? <==> CustomerUsers(old(users), sub.customer) != {} && SubscriptionChange(sub, productName).Some?
      ensures updated.None? ==> users == old(users) && clock == old(clock)
      ensures updated.Some? ==>
        && updated.value == LeastId(CustomerUsers(old(users), sub.customer))
        && users == old(users)[updated.value :=
             ApplyUserPatch(old(users)[updated.value], SubscriptionChange(sub, productName).value, old(clock))]
        && clock == old(clock) + 1
    {
      var matches := CustomerUsers(users, sub.customer);
      if matches == {} {
        updated := None;
        return;
      }
      var userId := LeastId(matches);
      if sub.status == Active || sub.status == Trialing {
        var productId := sub.productId;
        var planName := Free;
        if HasProduct(productId) {
          planName := if productName.Some? && UpperAscii(productName.value) == "PRO" then Pro else Free;
        }
        var patch := UserPatch(Some(sub.id), if HasProduct(productId) then productId else None, planName, sub.status);
        users := users[userId := ApplyUserPatch(users[userId], patch, clock)];
        clock := clock + 1;
        updated := Some(userId);
      } else if sub.status == Canceled || sub.status == Unpaid {
        var patch := UserPatch(None, None, Free, sub.status);
        users := users[userId := ApplyUserPatch(users[userId], patch, clock)];
        clock := clock + 1;
        updated := Some(userId);
      } else {
        updated := None;
      }
    }
  }

  /** After a cancellation the user is on FREE with no subscription, whatever the plan was. */
  lemma CancellationDowngrades(u: User, sub: Subscription, productName: Option<string>, now: int)
    requires sub.status == Canceled || sub.status == Unpaid
    ensures var v := ApplyUserPatch(u, SubscriptionChange(sub, productName).value, now);
            v.planName == Free && v.stripeSubscriptionId.None? && v.subscriptionStatus == Some(sub.status)
            && v.stripeProductId == u.stripeProductId
  {
  }

  /** An active subscription to a product named "Pro" (in any case) puts the user on PRO. */
  lemma ActiveProUpgrades(sub: Subscription, name: string)
    requires sub.status == Active && HasProduct(sub.productId)
    requires |name| == 3 && name[0] == 'p' && name[1] == 'R' && name[2] == 'o'
    ensures SubscriptionChange(sub, Some(name)).value.planName == Pro
  {
    ProSpellings(name);
  }
}
