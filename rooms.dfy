/**
 * The participant registry of the server (class RoomManager).
 *
 * The source keeps a JavaScript Map from connection id to user record. Such a
 * Map remembers the order in which keys were first inserted, so it is
 * modelled as a list of records with pairwise distinct ids in that order:
 * `set` on a present key replaces the record where it stands, `set` on a new
 * key appends, `delete` removes the record, `values()` is the list itself.
 */
module Rooms {
  import opened Drawing

  datatype User = User(id: UserId, color: Color, joinedAt: Timestamp)

  function Ids(users: seq<User>): (ids: seq<UserId>)
    ensures |ids| == |users|
    ensures forall i :: 0 <= i < |users| ==> ids[i] == users[i].id
  {
    seq(|users|, i requires 0 <= i < |users| => users[i].id)
  }

  /** No two records share an id (a Map has each key once). */
  ghost predicate UniqueIds(users: seq<User>)
  {
    forall i, j :: 0 <= i < j < |users| ==> users[i].id != users[j].id
  }

  /** Map.get: the record stored under the key, if any. */
  function Get(users: seq<User>, id: UserId): (u: Option<User>)
    ensures u.Some? <==> id in Ids(users)
    ensures u.Some? ==> u.value.id == id && u.value in users
  {
    if users == [] then None
    else if users[0].id == id then Some(users[0])
    else Get(users[1..], id)
  }

  /** Map.set: replace the record under the key in place, or append a new one. */
  function Put(users: seq<User>, user: User): seq<User>
  {
    if user.id in Ids(users) then
      seq(|users|, i requires 0 <= i < |users| => if users[i].id == user.id then user else users[i])
    else
      users + [user]
  }

  /** Map.delete: drop the record under the key, if any. */
  function Delete(users: seq<User>, id: UserId): (r: seq<User>)
    ensures |r| <= |users|
  {
    if users == [] then []
    else if users[0].id == id then Delete(users[1..], id)
    else [users[0]] + Delete(users[1..], id)
  }

  lemma {:induction false} GetAt(users: seq<User>, k: nat)
    requires UniqueIds(users) && k < |users|
    ensures Get(users, users[k].id) == Some(users[k])
  {
    if k > 0 {
      GetAt(users[1..], k - 1);
    }
  }

  /** After set(id, ...), get(id) returns exactly the record just stored. */
  lemma PutThenGet(users: seq<User>, user: User)
    requires UniqueIds(users)
    ensures UniqueIds(Put(users, user))
    ensures Get(Put(users, user), user.id) == Some(user)
    ensures forall id :: id != user.id ==> Get(Put(users, user), id) == Get(users, id)
  {
    var r := Put(users, user);
    if user.id in Ids(users) {
      assert Ids(r) == Ids(users);
      var k :| 0 <= k < |users| && users[k].id == user.id;
      GetAt(r, k);
    } else {
      GetAt(r, |users|);
    }
    forall id | id != user.id
      ensures Get(r, id) == Get(users, id)
    {
      PutGetOther(users, user, id);
    }
  }

  /** Setting one key leaves the lookup of every other key as it was. */
  lemma PutGetOther(users: seq<User>, user: User, other: UserId)
    requires UniqueIds(users) && UniqueIds(Put(users, user)) && other != user.id
    ensures Get(Put(users, user), other) == Get(users, other)
  {
    var r := Put(users, user);
    if other in Ids(users) {
      var k :| 0 <= k < |users| && users[k].id == other;
      GetAt(users, k);
      assert r[k] == users[k];
      GetAt(r, k);
    }
  }

  /**
   * Re-setting a present key keeps the key order and the size; setting a new
   * key appends it at the end and grows the size by one.
   */
  lemma PutOrder(users: seq<User>, user: User)
    ensures user.id in Ids(users) ==> Ids(Put(users, user)) == Ids(users)
    ensures user.id !in Ids(users) ==> Ids(Put(users, user)) == Ids(users) + [user.id]
  {
  }

  /** Deleting an absent key changes nothing. */
  lemma {:induction false} DeleteAbsent(users: seq<User>, id: UserId)
    requires id !in Ids(users)
    ensures Delete(users, id) == users
  {
    if users != [] {
      assert Ids(users[1..]) == Ids(users)[1..];
      DeleteAbsent(users[1..], id);
    }
  }

  /**
   * Deleting removes every record under the key and keeps every other one;
   * no record is invented. DeleteOrder states that the order is kept too.
   */
  lemma {:induction false} DeleteKeeps(users: seq<User>, id: UserId)
    ensures id !in Ids(Delete(users, id))
    ensures forall u :: u in Delete(users, id) <==> u in users && u.id != id
    ensures UniqueIds(users) ==> UniqueIds(Delete(users, id))
  {
    if users != [] {
      DeleteKeeps(users[1..], id);
    }
  }

  /** Deleting the record at position k keeps all the others in insertion order. */
  lemma {:induction false} DeleteOrder(users: seq<User>, k: nat)
    requires UniqueIds(users) && k < |users|
    ensures Delete(users, users[k].id) == users[..k] + users[k + 1..]
  {
    if k == 0 {
      assert Ids(users[1..]) == Ids(users)[1..];
      DeleteAbsent(users[1..], users[0].id);
    } else {
      DeleteOrder(users[1..], k - 1);
      assert users[1..][..k - 1] + users[1..][k..] == users[1..k] + users[k + 1..];
      assert [users[0]] + users[1..k] == users[..k];
    }
  }

  /** Deleting a present key shrinks the registry by exactly one. */
  lemma {:induction false} DeletePresent(users: seq<User>, id: UserId)
    requires UniqueIds(users) && id in Ids(users)
    ensures |Delete(users, id)| == |users| - 1
  {
    if users[0].id == id {
      assert id !in Ids(users[1..]);
      DeleteAbsent(users[1..], id);
    } else {
      assert Ids(users[1..]) == Ids(users)[1..];
      DeletePresent(users[1..], id);
    }
  }

  /**
   * removeUser: the removed user is gone, the size drops by one when it was
   * present, and every other user is still found with the same record.
   */
  lemma DeleteThenGet(users: seq<User>, id: UserId)
    requires UniqueIds(users)
    ensures UniqueIds(Delete(users, id))
    ensures Get(Delete(users, id), id) == None
    ensures |Delete(users, id)| == if id in Ids(users) then |users| - 1 else |users|
    ensures forall other :: other != id ==> Get(Delete(users, id), other) == Get(users, other)
  {
    var r := Delete(users, id);
    DeleteKeeps(users, id);
    if id in Ids(users) {
      DeletePresent(users, id);
    } else {
      DeleteAbsent(users, id);
    }
    forall other | other != id
      ensures Get(r, other) == Get(users, other)
    {
      DeleteGetOther(users, id, other);
    }
  }

  /** Deleting one key leaves the lookup of every other key as it was. */
  lemma DeleteGetOther(users: seq<User>, id: UserId, other: UserId)
    requires UniqueIds(users) && other != id
    ensures Get(Delete(users, id), other) == Get(users, other)
  {
    var r := Delete(users, id);
    DeleteKeeps(users, id);
    if other in Ids(users) {
      var k :| 0 <= k < |users| && users[k].id == other;
      GetAt(users, k);
      assert users[k] in r;
      var k' :| 0 <= k' < |r| && r[k'] == users[k];
      GetAt(r, k');
    } else {
      forall k | 0 <= k < |r|
        ensures r[k].id != other
      {
        assert r[k] in users;
        var j :| 0 <= j < |users| && users[j] == r[k];
        assert Ids(users)[j] == r[k].id;
      }
      assert other !in Ids(r);
    }
  }

  /** The state of a RoomManager object on the server. */
  class RoomManager {
    /** The `users` Map, as its records in key-insertion order. */
    var users: seq<User>

    ghost predicate Valid()
      reads this
    {
      UniqueIds(users)
    }

    constructor ()
      ensures Valid() && users == []
    {
      users := [];
    }

    method AddUser(userId: UserId, color: Color, now: Timestamp)
      requires Valid()
      modifies this
      ensures Valid()
      ensures users == Put(old(users), User(userId, color, now))
      ensures Get(users, userId) == Some(User(userId, color, now))
      ensures forall id :: id != userId ==> Get(users, id) == Get(old(users), id)
    {
      PutThenGet(users, User(userId, color, now));
      users := Put(users, User(userId, color, now));
    }

    method RemoveUser(userId: UserId)
      requires Valid()
      modifies this
      ensures Valid()
      ensures users == Delete(old(users), userId)
      ensures Get(users, userId) == None
      ensures forall id :: id != userId ==> Get(users, id) == Get(old(users), id)
    {
      DeleteThenGet(users, userId);
      users := Delete(users, userId);
    }

    method GetUser(userId: UserId) returns (user: Option<User>)
      ensures user == Get(users, userId)
    {
      user := Get(users, userId);
    }

    /** The records in first-insertion order (a fresh array in the source). */
    method GetUsers() returns (list: seq<User>)
      ensures list == users
    {
      list := users;
    }

    method GetUserCount() returns (n: nat)
      ensures n == |users|
    {
      n := |users|;
    }

    method Clear()
      modifies this
      ensures Valid() && users == []
    {
      users := [];
    }
  }
}
