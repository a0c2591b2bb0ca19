/**
 * The store directory: the users and stores tables as maps keyed by primary key,
 * the per-user usage aggregate, and the operations that insert, delete and list
 * rows. A failed commit (a duplicate primary key) leaves the tables unchanged.
 */
module Database {
  import opened Wrappers
  import opened Models

  // ---------------------------------------------------------------------------
  // Usage: how many stores a user owns and how much storage they request
  // ---------------------------------------------------------------------------

  datatype Usage = Usage(storeCount: nat, totalStorage: int)

  function Plus(a: Usage, b: Usage): Usage {
    Usage(a.storeCount + b.storeCount, a.totalStorage + b.totalStorage)
  }

  /** What one store row adds to a user's usage. */
  function Contribution(s: Store, userId: int): Usage {
    if s.userId == userId then Usage(1, s.storageSizeGi) else Usage(0, 0)
  }

  /** The order in which two rows are added does not matter. */
  lemma PlusSwap(a: Usage, b: Usage, c: Usage)
    ensures Plus(a, Plus(b, c)) == Plus(b, Plus(a, c))
  {
  }

  lemma PlusZero(a: Usage)
    ensures Plus(Usage(0, 0), a) == a
  {
  }

  /** Adding a row's contribution: one more store and its size for its owner, nothing for anyone else. */
  lemma PlusContribution(s: Store, userId: int, a: Usage)
    ensures Plus(Contribution(s, userId), a)
      == if userId == s.userId then Usage(a.storeCount + 1, a.totalStorage + s.storageSizeGi) else a
  {
  }

  /** The row the aggregate visits next; which one does not matter (see `SumRemove`). */
  ghost function Pick(ids: set<string>): (k: string)
    requires ids != {}
    ensures k in ids
  {
    var k :| k in ids; k
  }

  /** The count and the storage sum over the rows `ids` of the table. */
  ghost function SumOver(stores: map<string, Store>, ids: set<string>, userId: int): Usage
    requires ids <= stores.Keys
    decreases ids
  {
    if ids == {} then Usage(0, 0)
    else
      var k := Pick(ids);
      Plus(Contribution(stores[k], userId), SumOver(stores, ids - {k}, userId))
  }

  /**
   * The count and the storage sum over every store row the user owns, whatever
   * its status; both are 0 for a user who owns none.
   */
  ghost function UsageOf(stores: map<string, Store>, userId: int): Usage {
    SumOver(stores, stores.Keys, userId)
  }

  /** The sum does not depend on which row the aggregate visits first. */
  lemma {:induction false} SumRemove(stores: map<string, Store>, ids: set<string>, k: string, userId: int)
    requires ids <= stores.Keys && k in ids
    ensures SumOver(stores, ids, userId) == Plus(Contribution(stores[k], userId), SumOver(stores, ids - {k}, userId))
    decreases ids
  {
    var j := Pick(ids);
    if j != k {
      var cj := Contribution(stores[j], userId);
      var ck := Contribution(stores[k], userId);
      var both := ids - {j} - {k};
      SumRemove(stores, ids - {j}, k, userId);
      SumRemove(stores, ids - {k}, j, userId);
      assert ids - {k} - {j} == both;
      var rest := SumOver(stores, both, userId);
      assert SumOver(stores, ids - {j}, userId) == Plus(ck, rest);
      assert SumOver(stores, ids - {k}, userId) == Plus(cj, rest);
      PlusSwap(cj, ck, rest);
    }
  }

  /** A user who owns none of the rows has count 0 and storage 0 over them. */
  lemma {:induction false} SumNone(stores: map<string, Store>, ids: set<string>, userId: int)
    requires ids <= stores.Keys
    requires forall k :: k in ids ==> stores[k].userId != userId
    ensures SumOver(stores, ids, userId) == Usage(0, 0)
    decreases ids
  {
    if ids != {} {
      var k := Pick(ids);
      SumNone(stores, ids - {k}, userId);
    }
  }

  /** Two tables whose rows `ids` contribute alike give the same sum over them. */
  lemma {:induction false} SumFrame(s1: map<string, Store>, s2: map<string, Store>, ids: set<string>, userId: int)
    requires ids <= s1.Keys && ids <= s2.Keys
    requires forall k :: k in ids ==> Contribution(s1[k], userId) == Contribution(s2[k], userId)
    ensures SumOver(s1, ids, userId) == SumOver(s2, ids, userId)
    decreases ids
  {
    if ids != {} {
      var k := Pick(ids);
      SumRemove(s2, ids, k, userId);
      SumFrame(s1, s2, ids - {k}, userId);
    }
  }

  lemma DropStep(ids: set<string>, drop: set<string>, j: string)
    requires drop <= ids && j in drop
    ensures drop - {j} <= ids - {j}
    ensures (ids - {j}) - (drop - {j}) == ids - drop
  {
  }

  /** Leaving out rows the user does not own does not change the sum. */
  lemma {:induction false} SumDropZero(stores: map<string, Store>, ids: set<string>, drop: set<string>, userId: int)
    requires drop <= ids <= stores.Keys
    requires forall k :: k in drop ==> stores[k].userId != userId
    ensures SumOver(stores, ids, userId) == SumOver(stores, ids - drop, userId)
    decreases drop
  {
    if drop != {} {
      var j :| j in drop;
      var rest := SumOver(stores, ids - {j}, userId);
      SumRemove(stores, ids, j, userId);
      assert Contribution(stores[j], userId) == Usage(0, 0);
      PlusZero(rest);
      assert SumOver(stores, ids, userId) == rest;
      DropStep(ids, drop, j);
      SumDropZero(stores, ids - {j}, drop - {j}, userId);
      assert rest == SumOver(stores, ids - drop, userId);
    } else {
      assert ids - drop == ids;
    }
  }

  function OwnedIds(stores: map<string, Store>, ids: set<string>, userId: int): set<string>
    requires ids <= stores.Keys
  {
    set k | k in ids && stores[k].userId == userId
  }

  /** The count is the number of rows whose owner is the user. */
  lemma {:induction false} UsageCountsOwnedRows(stores: map<string, Store>, ids: set<string>, userId: int)
    requires ids <= stores.Keys
    ensures SumOver(stores, ids, userId).storeCount == |OwnedIds(stores, ids, userId)|
    decreases ids
  {
    if ids != {} {
      var k := Pick(ids);
      UsageCountsOwnedRows(stores, ids - {k}, userId);
      if stores[k].userId == userId {
        assert OwnedIds(stores, ids, userId) == OwnedIds(stores, ids - {k}, userId) + {k};
      } else {
        assert OwnedIds(stores, ids, userId) == OwnedIds(stores, ids - {k}, userId);
      }
    }
  }

  /** A row counts whatever its status: changing a status leaves every usage as it was. */
  lemma UsageIgnoresStatus(stores: map<string, Store>, k: string, status: StoreStatus, userId: int)
    requires k in stores
    ensures UsageOf(stores[k := stores[k].(status := status)], userId) == UsageOf(stores, userId)
  {
    var stores' := stores[k := stores[k].(status := status)];
    assert stores'.Keys == stores.Keys;
    SumFrame(stores', stores, stores.Keys, userId);
  }

  /** Leaving the new row out of the table after an insertion gives the old table's usage. */
  lemma InsertedRest(stores: map<string, Store>, s: Store, userId: int)
    requires s.id !in stores
    ensures stores[s.id := s].Keys - {s.id} == stores.Keys
    ensures SumOver(stores[s.id := s], stores.Keys, userId) == UsageOf(stores, userId)
  {
    var stores' := stores[s.id := s];
    assert stores'.Keys - {s.id} == stores.Keys;
    SumFrame(stores', stores, stores.Keys, userId);
  }

  /** Inserting a row adds one store and its size to its owner's usage and changes no one else's. */
  lemma RegisterUsage(stores: map<string, Store>, s: Store, userId: int)
    requires s.id !in stores
    ensures var before := UsageOf(stores, userId);
      UsageOf(stores[s.id := s], userId)
        == if userId == s.userId then Usage(before.storeCount + 1, before.totalStorage + s.storageSizeGi) else before
  {
    InsertedRest(stores, s, userId);
    SumRemove(stores[s.id := s], stores[s.id := s].Keys, s.id, userId);
    PlusContribution(s, userId, UsageOf(stores, userId));
  }

  /** Summing a table without row k gives the usage of the table with that row deleted. */
  lemma RemovedRest(stores: map<string, Store>, k: string, userId: int)
    requires k in stores
    ensures SumOver(stores, stores.Keys - {k}, userId) == UsageOf(stores - {k}, userId)
  {
    assert (stores - {k}).Keys == stores.Keys - {k};
    SumFrame(stores, stores - {k}, stores.Keys - {k}, userId);
  }

  /** Deleting a row takes one store and its size off its owner's usage and changes no one else's. */
  lemma DeregisterUsage(stores: map<string, Store>, k: string, userId: int)
    requires k in stores
    ensures var after := UsageOf(stores - {k}, userId);
      UsageOf(stores, userId)
        == if userId == stores[k].userId then Usage(after.storeCount + 1, after.totalStorage + stores[k].storageSizeGi) else after
  {
    SumRemove(stores, stores.Keys, k, userId);
    RemovedRest(stores, k, userId);
    PlusContribution(stores[k], userId, UsageOf(stores - {k}, userId));
  }

  /** The rows left when a user and, by cascade, every store the user owns are deleted. */
  function WithoutOwner(stores: map<string, Store>, userId: int): map<string, Store> {
    map k | k in stores && stores[k].userId != userId :: stores[k]
  }

  lemma CascadeOthers(stores: map<string, Store>, deleted: int, userId: int)
    requires userId != deleted
    ensures UsageOf(WithoutOwner(stores, deleted), userId) == UsageOf(stores, userId)
  {
    var rest := WithoutOwner(stores, deleted);
    var drop := OwnedIds(stores, stores.Keys, deleted);
    assert rest.Keys == stores.Keys - drop;
    SumDropZero(stores, stores.Keys, drop, userId);
    SumFrame(stores, rest, rest.Keys, userId);
  }

  /** After the cascade the deleted user owns nothing, and every other user's usage is unchanged. */
  lemma CascadeUsage(stores: map<string, Store>, deleted: int, userId: int)
    ensures UsageOf(WithoutOwner(stores, deleted), deleted) == Usage(0, 0)
    ensures userId != deleted ==> UsageOf(WithoutOwner(stores, deleted), userId) == UsageOf(stores, userId)
  {
    var rest := WithoutOwner(stores, deleted);
    SumNone(rest, rest.Keys, deleted);
    if userId != deleted {
      CascadeOthers(stores, deleted, userId);
    }
  }

  // ---------------------------------------------------------------------------
  // Seeding
  // ---------------------------------------------------------------------------

  /**
   * The users table after `init_db`: the two default accounts when the table is
   * empty (SQLite numbers the rows of an empty table from 1), otherwise unchanged.
   */
  function Seeded(users: map<int, User>, adminHash: string, demoHash: string): map<int, User> {
    if users != map[] then users
    else map[1 := NewUser(1, "admin", adminHash, Some(10), Some(50)),
             2 := NewUser(2, "demo_user", demoHash, Some(2), Some(5))]
  }

  predicate UniqueUsernames(users: map<int, User>) {
    forall a, b :: a in users && b in users && users[a].username == users[b].username ==> a == b
  }

  /**
   * Seeding happens at most once: a seeded table is never empty, seeding it again
   * adds nothing, and the defaults are `admin` (10 stores, 50 Gi) and `demo_user` (2, 5).
   */
  lemma SeedOnce(users: map<int, User>, adminHash: string, demoHash: string, adminHash': string, demoHash': string)
    ensures var seeded := Seeded(users, adminHash, demoHash);
      && seeded != map[]
      && Seeded(seeded, adminHash', demoHash') == seeded
      && (users == map[] ==>
            && seeded.Keys == {1, 2}
            && seeded[1].username == "admin" && seeded[1].maxStores == 10 && seeded[1].maxStorageGi == 50
            && seeded[2].username == "demo_user" && seeded[2].maxStores == 2 && seeded[2].maxStorageGi == 5
            && UniqueUsernames(seeded))
  {
    if users == map[] {
      assert 1 in Seeded(users, adminHash, demoHash);
    } else {
      assert Seeded(users, adminHash, demoHash) == users;
    }
  }

  // ---------------------------------------------------------------------------
  // The tables
  // ---------------------------------------------------------------------------

  /** A store row's view, with the owner's username added exactly when the owner exists. */
  function StoreEntry(s: Store, users: map<int, User>): (d: Dict)
    ensures "username" in d <==> s.userId in users
    ensures s.userId in users ==> d["username"] == StrValue(users[s.userId].username)
    ensures StoreFromDict(d) == Some(s)
    ensures forall k :: k in StoreDictKeys ==> k in d && d[k] == StoreToDict(s)[k]
  {
    StoreDictRoundTrip(s, "username", if s.userId in users then StrValue(users[s.userId].username) else NullValue);
    if s.userId in users then StoreToDict(s)["username" := StrValue(users[s.userId].username)]
    else StoreToDict(s)
  }

  class Db {
    var users: map<int, User>
    var stores: map<string, Store>

    /** Rows sit under their own primary keys and usernames are unique. */
    ghost predicate Valid()
      reads this
    {
      && (forall id :: id in users ==> users[id].id == id)
      && (forall id :: id in stores ==> stores[id].id == id)
      && UniqueUsernames(users)
    }

    /** Every store's owner is a user: the foreign key, which SQLite leaves unenforced by default. */
    ghost predicate OwnersExist()
      reads this
    {
      forall id :: id in stores ==> stores[id].userId in users
    }

    /** `db.create_all` on a fresh database: both tables empty. */
    constructor()
      ensures Valid() && OwnersExist()
      ensures users == map[] && stores == map[]
    {
      users := map[];
      stores := map[];
    }

    /** Adds the two default accounts when there are no users; a second run adds none. */
    method InitDb(adminHash: string, demoHash: string)
      requires Valid()
      modifies this
      ensures Valid()
      ensures users == Seeded(old(users), adminHash, demoHash)
      ensures stores == old(stores)
    {
      if users == map[] {
        SeedOnce(users, adminHash, demoHash, adminHash, demoHash);
        var admin := NewUser(1, "admin", adminHash, Some(10), Some(50));
        var demo := NewUser(2, "demo_user", demoHash, Some(2), Some(5));
        users := map[admin.id := admin, demo.id := demo];
      }
    }

    /** The user's public view when the user exists, and nothing otherwise. */
    function GetUser(userId: int): (r: Option<Dict>)
      reads this
      ensures r.Some? <==> userId in users
      ensures r.Some? ==> r.value.Keys == UserDictKeys
      ensures r.Some? ==> UserFromDict(r.value, users[userId].passwordHash) == Some(users[userId])
    {
      if userId in users then
        UserDictRoundTrip(users[userId]);
        Some(UserToDict(users[userId]))
      else None
    }

    /** `get_user_usage`: the count and the storage sum over the user's rows. */
    ghost function GetUserUsage(userId: int): Usage
      reads this
    {
      UsageOf(stores, userId)
    }

    /**
     * Inserts a store row with status `initialized`; a row with the same id makes
     * the commit fail and nothing changes. The owner is not checked.
     */
    method RegisterStore(storeId: string, userId: int, storageSizeGi: int, now: string, name: string := "")
      returns (ok: bool)
      requires Valid()
      modifies this
      ensures Valid()
      ensures ok <==> storeId !in old(stores)
      ensures stores == if ok then old(stores)[storeId := NewStore(storeId, userId, Some(name), Some(storageSizeGi), now)]
                        else old(stores)
      ensures users == old(users)
      ensures old(OwnersExist()) && userId in users ==> OwnersExist()
    {
      if storeId in stores {
        return false;
      }
      var store := NewStore(storeId, userId, Some(name), Some(storageSizeGi), now);
      stores := stores[store.id := store];
      ok := true;
    }

    /** Deletes the row with this id when there is one; otherwise does nothing, so a repeat is harmless. */
    method DeregisterStore(storeId: string)
      requires Valid()
      modifies this
      ensures Valid()
      ensures stores == old(stores) - {storeId}
      ensures storeId !in old(stores) ==> stores == old(stores)
      ensures users == old(users)
      ensures old(OwnersExist()) ==> OwnersExist()
    {
      if storeId in stores {
        stores := stores - {storeId};
      }
    }

    /** Deleting a user deletes, by cascade, every store the user owns. */
    method DeleteUser(userId: int)
      requires Valid()
      modifies this
      ensures Valid()
      ensures users == old(users) - {userId}
      ensures stores == WithoutOwner(old(stores), userId)
      ensures old(OwnersExist()) ==> OwnersExist()
    {
      users := users - {userId};
      stores := WithoutOwner(stores, userId);
    }

    /** Every store row's view under its id, with the owner's username when the owner exists. */
    method GetAllStoresWithUsers() returns (result: map<string, Dict>)
      requires Valid()
      ensures result.Keys == stores.Keys
      ensures forall id :: id in result ==> result[id] == StoreEntry(stores[id], users)
    {
      result := map[];
      var remaining := stores.Keys;
      while remaining != {}
        invariant remaining <= stores.Keys
        invariant result.Keys == stores.Keys - remaining
        invariant forall id :: id in result ==> result[id] == StoreEntry(stores[id], users)
        decreases |remaining|
      {
        var id :| id in remaining;
        var s := stores[id];
        var d := StoreToDict(s);
        if s.userId in users {
          d := d["username" := StrValue(users[s.userId].username)];
        }
        result := result[s.id := d];
        remaining := remaining - {id};
      }
    }
  }
}
