/**
 * The document store behind the repositories: a collection is a map from
 * document id to a document that records the owning account and the two
 * server timestamps.  This module holds the account-scoped reads that the
 * supplies, products and materials repositories share: the ownership check,
 * the listing filtered by account and ordered by `createdAt` descending, and
 * the "fetch N+1, trim" cursor pagination.
 */
module Store {
  import opened Wrappers

  /** Document ids.  Documents are ordered by id when a query has no `orderBy`. */
  type Id = nat

  /** A stored document: owner, server timestamps and the entity's own fields. */
  datatype Doc<D> = Doc(accountId: Id, createdAt: int, updatedAt: int, data: D)

  /** A document as a query returns it: `{ id: doc.id, ...doc.data() }`. */
  datatype Listed<D> = Listed(id: Id, doc: Doc<D>)

  /** The two errors an ownership-checked write raises. */
  datatype AccessError = NotFound | Forbidden

  /** No two documents were created at the same server time. */
  predicate DistinctCreation<D>(docs: map<Id, Doc<D>>) {
    forall a, b :: a in docs && b in docs && a != b ==> docs[a].createdAt != docs[b].createdAt
  }

  /**
   * The invariant every collection keeps: creation times are distinct and
   * every timestamp lies before the clock's next reading.
   */
  predicate WellFormed<D>(docs: map<Id, Doc<D>>, clock: int) {
    && DistinctCreation(docs)
    && (forall id :: id in docs ==> docs[id].createdAt < clock && docs[id].updatedAt < clock)
  }

  /** Ids of the documents that `account` owns. */
  function OwnedIds<D>(docs: map<Id, Doc<D>>, account: Id): set<Id> {
    set id | id in docs && docs[id].accountId == account
  }

  /** Ids appearing in a query result. */
  function IdsOf<D>(r: seq<Listed<D>>): set<Id> {
    set k | 0 <= k < |r| :: r[k].id
  }

  /** The document `id` if it exists and `account` owns it, else null. */
  function GetOwned<D>(docs: map<Id, Doc<D>>, id: Id, account: Id): (r: Option<Doc<D>>)
    ensures r.Some? <==> id in OwnedIds(docs, account)
    ensures r.Some? ==> r.value == docs[id] && r.value.accountId == account
  {
    if id !in docs then None
    else if docs[id].accountId != account then None
    else Some(docs[id])
  }

  /** The checks made before an update or a delete: "not found", then "Forbidden". */
  function CheckAccess<D>(docs: map<Id, Doc<D>>, id: Id, account: Id): (r: Outcome<AccessError>)
    ensures r == Pass <==> id in OwnedIds(docs, account)
    ensures r == Fail(NotFound) <==> id !in docs
    ensures r == Fail(Forbidden) <==> id in docs && docs[id].accountId != account
  {
    if id !in docs then Fail(NotFound)
    else if docs[id].accountId != account then Fail(Forbidden)
    else Pass
  }

  /** `n` is the most recently created document among `ids`. */
  predicate IsNewest<D>(docs: map<Id, Doc<D>>, ids: set<Id>, n: Id)
    requires ids <= docs.Keys
  {
    n in ids && forall m :: m in ids ==> docs[m].createdAt <= docs[n].createdAt
  }

  lemma {:induction false} NewestExists<D>(docs: map<Id, Doc<D>>, ids: set<Id>)
    requires ids <= docs.Keys && ids != {}
    ensures exists n :: IsNewest(docs, ids, n)
    decreases ids
  {
    var x :| x in ids;
    if ids == {x} {
      assert IsNewest(docs, ids, x);
    } else {
      NewestExists(docs, ids - {x});
      var z :| IsNewest(docs, ids - {x}, z);
      if docs[z].createdAt <= docs[x].createdAt {
        assert IsNewest(docs, ids, x);
      } else {
        assert IsNewest(docs, ids, z);
      }
    }
  }

  /** Results are strictly newest first, i.e. ordered by `createdAt` descending. */
  predicate NewestFirstOrder<D>(r: seq<Listed<D>>) {
    forall i, j :: 0 <= i < j < |r| ==> r[i].doc.createdAt > r[j].doc.createdAt
  }

  /** Every entry of `r` is the stored document under its id. */
  predicate FromStore<D(==)>(docs: map<Id, Doc<D>>, r: seq<Listed<D>>) {
    forall k :: 0 <= k < |r| ==> r[k].id in docs && docs[r[k].id] == r[k].doc
  }

  /** The ids of `[x] + rest` are `x`'s id and those of `rest`. */
  lemma IdsOfCons<D>(x: Listed<D>, rest: seq<Listed<D>>)
    ensures IdsOf([x] + rest) == {x.id} + IdsOf(rest)
  {
    var r := [x] + rest;
    forall i | i in IdsOf(r) ensures i in {x.id} + IdsOf(rest) {
      var k :| 0 <= k < |r| && r[k].id == i;
      if k > 0 { assert rest[k - 1].id == i; }
    }
    forall i | i in IdsOf(rest) ensures i in IdsOf(r) {
      var k :| 0 <= k < |rest| && rest[k].id == i;
      assert r[k + 1].id == i;
    }
    assert r[0].id == x.id;
  }

  /** Putting the newest document in front of a newest-first list of the others keeps the order. */
  lemma NewestInFront<D>(docs: map<Id, Doc<D>>, ids: set<Id>, n: Id, rest: seq<Listed<D>>)
    requires ids <= docs.Keys && DistinctCreation(docs) && IsNewest(docs, ids, n)
    requires FromStore(docs, rest) && IdsOf(rest) == ids - {n} && NewestFirstOrder(rest)
    ensures NewestFirstOrder([Listed(n, docs[n])] + rest)
    ensures FromStore(docs, [Listed(n, docs[n])] + rest)
  {
    var r := [Listed(n, docs[n])] + rest;
    forall j | 0 < j < |r| ensures r[0].doc.createdAt > r[j].doc.createdAt {
      assert r[j] == rest[j - 1];
      assert rest[j - 1].id in IdsOf(rest);
    }
  }

  /** The documents `ids`, newest first. */
  function NewestFirstOf<D(==)>(docs: map<Id, Doc<D>>, ids: set<Id>): (r: seq<Listed<D>>)
    requires ids <= docs.Keys && DistinctCreation(docs)
    ensures FromStore(docs, r)
    ensures IdsOf(r) == ids
    ensures NewestFirstOrder(r)
    decreases ids
  {
    if ids == {} then []
    else
      NewestExists(docs, ids);
      var n :| IsNewest(docs, ids, n);
      var rest := NewestFirstOf(docs, ids - {n});
      IdsOfCons(Listed(n, docs[n]), rest);
      NewestInFront(docs, ids, n, rest);
      [Listed(n, docs[n])] + rest
  }

  /**
   * `where('accountId', '==', account).orderBy('createdAt', 'desc')`:
   * exactly the account's documents, newest first.
   */
  function ListByAccount<D(==)>(docs: map<Id, Doc<D>>, account: Id): (r: seq<Listed<D>>)
    requires DistinctCreation(docs)
    ensures FromStore(docs, r)
    ensures IdsOf(r) == OwnedIds(docs, account)
    ensures forall k :: 0 <= k < |r| ==> r[k].doc.accountId == account
    ensures NewestFirstOrder(r)
  {
    NewestFirstOf(docs, OwnedIds(docs, account))
  }

  /** A newest-first list holds no id twice, so its length is the number of ids. */
  lemma {:induction false} NewestFirstLength<D>(docs: map<Id, Doc<D>>, r: seq<Listed<D>>)
    requires FromStore(docs, r) && NewestFirstOrder(r)
    ensures |IdsOf(r)| == |r|
  {
    if r != [] {
      var rest := r[1..];
      assert NewestFirstOrder(rest) by {
        forall i, j | 0 <= i < j < |rest| ensures rest[i].doc.createdAt > rest[j].doc.createdAt {
          assert rest[i] == r[i + 1] && rest[j] == r[j + 1];
        }
      }
      NewestFirstLength(docs, rest);
      assert r[0].id !in IdsOf(rest) by {
        forall k | 0 <= k < |rest| ensures rest[k].id != r[0].id {
          assert rest[k] == r[k + 1];
        }
      }
      assert r == [r[0]] + rest;
      IdsOfCons(r[0], rest);
    }
  }

  /** The listing has one entry per owned document: the `count()` query agrees with it. */
  lemma ListLengthIsCount<D>(docs: map<Id, Doc<D>>, account: Id)
    requires DistinctCreation(docs)
    ensures |ListByAccount(docs, account)| == |OwnedIds(docs, account)|
  {
    NewestFirstLength(docs, ListByAccount(docs, account));
  }

  /** How many leading entries were created at or after `t`. */
  function SkipCount<D>(r: seq<Listed<D>>, t: int): (k: nat)
    ensures k <= |r|
    ensures forall i :: 0 <= i < k ==> r[i].doc.createdAt >= t
    ensures k < |r| ==> r[k].doc.createdAt < t
  {
    if r == [] || r[0].doc.createdAt < t then 0 else 1 + SkipCount(r[1..], t)
  }

  /**
   * `startAfter(cursorDoc)` on a newest-first query: what follows the position
   * of a document created at `t`.
   */
  function StartAfter<D(==)>(r: seq<Listed<D>>, t: int): (s: seq<Listed<D>>)
    requires NewestFirstOrder(r)
    ensures forall k :: 0 <= k < |s| ==> s[k].doc.createdAt < t
    ensures forall k :: 0 <= k < |r| && r[k].doc.createdAt < t ==> r[k] in s
    ensures |s| <= |r| && s == r[|r| - |s|..]
  {
    r[SkipCount(r, t)..]
  }

  /** Starting after the entry at `p` leaves exactly the entries past `p`. */
  lemma StartAfterEntry<D>(r: seq<Listed<D>>, p: nat)
    requires NewestFirstOrder(r) && p < |r|
    ensures StartAfter(r, r[p].doc.createdAt) == r[p + 1..]
  {
    var t := r[p].doc.createdAt;
    var k := SkipCount(r, t);
    assert forall i :: 0 <= i <= p ==> r[i].doc.createdAt >= t;
    assert k > p;
    assert p + 1 < |r| ==> r[p + 1].doc.createdAt < t;
    assert k == p + 1;
  }

  /**
   * The account's documents that a page starting at `cursor` may hold: all of
   * them when there is no cursor or the cursor document does not exist, else
   * those after the cursor document.
   */
  function Remaining<D(==)>(docs: map<Id, Doc<D>>, account: Id, cursor: Option<Id>): (r: seq<Listed<D>>)
    requires DistinctCreation(docs)
    ensures FromStore(docs, r) && NewestFirstOrder(r)
    ensures forall k :: 0 <= k < |r| ==> r[k].doc.accountId == account
  {
    var all := ListByAccount(docs, account);
    if cursor.Some? && cursor.value in docs then StartAfter(all, docs[cursor.value].createdAt)
    else all
  }

  /**
   * What a page may hold: every document of the account when there is no
   * usable cursor, else exactly those created before the cursor document.
   */
  lemma RemainingIds<D>(docs: map<Id, Doc<D>>, account: Id, cursor: Option<Id>)
    requires DistinctCreation(docs)
    ensures cursor.Some? && cursor.value in docs ==>
      IdsOf(Remaining(docs, account, cursor)) == OlderOwned(docs, account, docs[cursor.value].createdAt)
    ensures cursor.None? || cursor.value !in docs ==> IdsOf(Remaining(docs, account, cursor)) == OwnedIds(docs, account)
  {
    if cursor.Some? && cursor.value in docs {
      StartAfterIds(docs, account, ListByAccount(docs, account), docs[cursor.value].createdAt);
    }
  }

  /** The account's documents created before `t`. */
  function OlderOwned<D>(docs: map<Id, Doc<D>>, account: Id, t: int): set<Id> {
    set id | id in docs && docs[id].accountId == account && docs[id].createdAt < t
  }

  /** Starting the account's listing after time `t` leaves exactly its documents created before `t`. */
  lemma StartAfterIds<D>(docs: map<Id, Doc<D>>, account: Id, all: seq<Listed<D>>, t: int)
    requires FromStore(docs, all) && NewestFirstOrder(all) && IdsOf(all) == OwnedIds(docs, account)
    ensures IdsOf(StartAfter(all, t)) == OlderOwned(docs, account, t)
  {
    StartAfterKeepsOlder(docs, account, all, t);
    StartAfterOnlyOlder(docs, account, all, t);
  }

  lemma StartAfterOnlyOlder<D>(docs: map<Id, Doc<D>>, account: Id, all: seq<Listed<D>>, t: int)
    requires FromStore(docs, all) && NewestFirstOrder(all) && IdsOf(all) == OwnedIds(docs, account)
    ensures IdsOf(StartAfter(all, t)) <= OlderOwned(docs, account, t)
  {
    var s := StartAfter(all, t);
    var off := |all| - |s|;
    forall id | id in IdsOf(s) ensures id in OlderOwned(docs, account, t) {
      var k :| 0 <= k < |s| && s[k].id == id;
      assert s[k] == all[off + k];
      assert all[off + k].id == id;
      assert id in IdsOf(all);
      assert docs[id] == s[k].doc && s[k].doc.createdAt < t;
    }
  }

  lemma StartAfterKeepsOlder<D>(docs: map<Id, Doc<D>>, account: Id, all: seq<Listed<D>>, t: int)
    requires FromStore(docs, all) && NewestFirstOrder(all) && IdsOf(all) == OwnedIds(docs, account)
    ensures OlderOwned(docs, account, t) <= IdsOf(StartAfter(all, t))
  {
    var s := StartAfter(all, t);
    forall id | id in OlderOwned(docs, account, t) ensures id in IdsOf(s) {
      assert id in IdsOf(all);
      var k :| 0 <= k < |all| && all[k].id == id;
      var j :| 0 <= j < |s| && s[j] == all[k];
      assert s[j].id == id;
    }
  }

  /** One page of a paginated listing, as `getSupplies` returns it. */
  datatype Page<D> = Page(items: seq<Listed<D>>, hasMore: bool, nextCursor: Option<Id>, total: nat)

  function Min(a: int, b: int): int { if a <= b then a else b }

  /**
   * The "fetch N+1, trim" step: take `pageSize + 1` entries of `after`, keep
   * the first `pageSize`, and report whether the extra one was there.
   */
  function Trim<D>(after: seq<Listed<D>>, pageSize: nat, total: nat): (p: Page<D>)
    ensures |p.items| <= pageSize && |p.items| <= |after|
    ensures p.items == after[..|p.items|]
    ensures p.hasMore <==> |after| > pageSize
    ensures !p.hasMore ==> p.items == after
    ensures p.hasMore ==> |p.items| == pageSize
    ensures p.nextCursor.Some? <==> p.hasMore && pageSize > 0
    ensures p.nextCursor.Some? ==> p.nextCursor.value == p.items[|p.items| - 1].id
    ensures p.total == total
  {
    var fetched := after[..Min(pageSize + 1, |after|)];
    var items := fetched[..Min(pageSize, |fetched|)];
    var hasMore := |fetched| > pageSize;
    var nextCursor := if hasMore && |items| > 0 then Some(items[|items| - 1].id) else None;
    Page(items, hasMore, nextCursor, total)
  }

  /** A page trimmed from a stored, owned, newest-first listing is one too. */
  lemma PageOfListing<D>(docs: map<Id, Doc<D>>, account: Id, r: seq<Listed<D>>, pageSize: nat, total: nat)
    requires FromStore(docs, r) && NewestFirstOrder(r)
    requires forall k :: 0 <= k < |r| ==> r[k].doc.accountId == account
    ensures var items := Trim(r, pageSize, total).items;
      && FromStore(docs, items) && NewestFirstOrder(items)
      && (forall k :: 0 <= k < |items| ==> items[k].doc.accountId == account)
  {
  }

  /** Everything remaining after a usable cursor was created before the cursor document. */
  lemma RemainingOlder<D>(docs: map<Id, Doc<D>>, account: Id, cursor: Option<Id>)
    requires DistinctCreation(docs)
    ensures cursor.Some? && cursor.value in docs ==>
      var r := Remaining(docs, account, cursor);
      forall k :: 0 <= k < |r| ==> r[k].doc.createdAt < docs[cursor.value].createdAt
  {
    if cursor.Some? && cursor.value in docs {
      var r := Remaining(docs, account, cursor);
      RemainingIds(docs, account, cursor);
      forall k | 0 <= k < |r|
        ensures r[k].doc.createdAt < docs[cursor.value].createdAt
      {
        assert r[k].id in IdsOf(r);
      }
    }
  }

  /**
   * Cursor pagination: count the account's documents, then trim the
   * documents after the cursor to one page.  The page holds at most
   * `pageSize` stored documents of the account, newest first, all created
   * before the cursor document when there is one; it is the start of what
   * remains after the cursor, and `hasMore` says whether anything remains
   * beyond it.
   */
  function GetPage<D(==)>(docs: map<Id, Doc<D>>, account: Id, pageSize: nat, cursor: Option<Id>): (p: Page<D>)
    requires DistinctCreation(docs)
    ensures p.total == |OwnedIds(docs, account)|
    ensures |p.items| <= pageSize
    ensures var r := Remaining(docs, account, cursor);
      && |p.items| <= |r| && p.items == r[..|p.items|]
      && (p.hasMore <==> |r| > pageSize)
    ensures FromStore(docs, p.items) && NewestFirstOrder(p.items)
    ensures forall k :: 0 <= k < |p.items| ==> p.items[k].doc.accountId == account
    ensures cursor.Some? && cursor.value in docs ==>
      forall k :: 0 <= k < |p.items| ==> p.items[k].doc.createdAt < docs[cursor.value].createdAt
  {
    var r := Remaining(docs, account, cursor);
    RemainingOlder(docs, account, cursor);
    PageOfListing(docs, account, r, pageSize, |OwnedIds(docs, account)|);
    Trim(r, pageSize, |OwnedIds(docs, account)|)
  }

  /**
   * Following `nextCursor` continues exactly where the page stopped: no
   * document is skipped and none is shown twice.
   */
  lemma NextPageContinues<D>(docs: map<Id, Doc<D>>, account: Id, pageSize: nat, cursor: Option<Id>)
    requires DistinctCreation(docs)
    requires GetPage(docs, account, pageSize, cursor).nextCursor.Some?
    ensures var p := GetPage(docs, account, pageSize, cursor);
            Remaining(docs, account, p.nextCursor) == Remaining(docs, account, cursor)[|p.items|..]
  {
    var all := ListByAccount(docs, account);
    var after := Remaining(docs, account, cursor);
    var p := Trim(after, pageSize, |OwnedIds(docs, account)|);
    assert p == GetPage(docs, account, pageSize, cursor);
    var m := |p.items|;
    var last := p.items[m - 1];
    assert last == after[m - 1];
    assert last.id in docs && docs[last.id] == last.doc;
    assert Remaining(docs, account, Some(last.id)) == StartAfter(all, last.doc.createdAt);
    ContinueAfter(all, after, m);
  }

  /** In a suffix `after` of a newest-first list, starting after its `m`-th entry leaves `after[m..]`. */
  lemma ContinueAfter<D>(all: seq<Listed<D>>, after: seq<Listed<D>>, m: nat)
    requires NewestFirstOrder(all)
    requires |after| <= |all| && after == all[|all| - |after|..]
    requires 0 < m <= |after|
    ensures StartAfter(all, after[m - 1].doc.createdAt) == after[m..]
  {
    var q := |all| - |after|;
    assert after[m - 1] == all[q + m - 1];
    StartAfterEntry(all, q + m - 1);
    DropDrop(all, q, m);
  }

  lemma DropDrop<T>(s: seq<T>, q: nat, m: nat)
    requires q + m <= |s|
    ensures s[q..][m..] == s[q + m..]
  {
  }

  /** `r` is the least member of `ids`. */
  predicate IsLeast(ids: set<Id>, r: Id) {
    r in ids && forall i :: i in ids ==> r <= i
  }

  /** The least id of a non-empty set: the first document of an unordered query. */
  function LeastId(ids: set<Id>): (r: Id)
    requires ids != {}
    ensures r in ids && forall i :: i in ids ==> r <= i
  {
    LeastExists(ids);
    var r :| IsLeast(ids, r); r
  }

  lemma {:induction false} LeastExists(ids: set<Id>)
    requires ids != {}
    ensures exists r :: IsLeast(ids, r)
    decreases ids
  {
    var x :| x in ids;
    if ids == {x} {
      assert IsLeast(ids, x);
    } else {
      var rest := ids - {x};
      LeastExists(rest);
      var z :| IsLeast(rest, z);
      var least := if x <= z then x else z;
      assert IsLeast(ids, least) by {
        forall i | i in ids ensures least <= i {
          if i != x { assert i in rest; }
        }
      }
    }
  }

  /** The documents `ids` names, one per id, listed in document id order. */
  function InIdOrder<D(==)>(docs: map<Id, Doc<D>>, ids: set<Id>): (r: seq<Listed<D>>)
    requires ids <= docs.Keys
    ensures FromStore(docs, r)
    ensures IdsOf(r) == ids
    ensures forall i, j :: 0 <= i < j < |r| ==> r[i].id < r[j].id
    decreases ids
  {
    if ids == {} then []
    else
      var n := LeastId(ids);
      var rest := InIdOrder(docs, ids - {n});
      IdsOfCons(Listed(n, docs[n]), rest);
      [Listed(n, docs[n])] + rest
  }
}
