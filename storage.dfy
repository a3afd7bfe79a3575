/** The in-memory user store: a map from user id to user record, iterated in
    insertion order as a JavaScript Map is. */
module Storage {
  import opened Common

  type UserId = string

  /** A stored user. `createdAt` stands for the creation timestamp and is left
      unconstrained (it comes from the clock). */
  datatype User = User(id: UserId, name: string, email: string, passwordHash: string,
                       hasPaid: bool, createdAt: int)

  /** What a caller supplies to create a user. */
  datatype InsertUser = InsertUser(name: string, email: string, passwordHash: string)

  /** Position of the first user whose email equals `email` ignoring case, or
      `|users|` when there is none. */
  function FirstByEmail(users: seq<User>, email: string): (k: nat)
    ensures k <= |users|
    ensures k < |users| ==> SameEmail(users[k].email, email)
    ensures forall j :: 0 <= j < k ==> !SameEmail(users[j].email, email)
  {
    if |users| == 0 then 0
    else if SameEmail(users[0].email, email) then 0
    else 1 + FirstByEmail(users[1..], email)
  }

  /** The user `getUserByEmail` returns when the store holds `users` in
      insertion order: the first case-insensitive match, if any. */
  function FindByEmail(users: seq<User>, email: string): (r: Option<User>)
    ensures r.None? <==> forall j :: 0 <= j < |users| ==> !SameEmail(users[j].email, email)
    ensures r.Some? ==> exists k :: 0 <= k < |users| && users[k] == r.value
                          && SameEmail(users[k].email, email)
                          && forall j :: 0 <= j < k ==> !SameEmail(users[j].email, email)
  {
    var k := FirstByEmail(users, email);
    if k < |users| then Some(users[k]) else None
  }

  /** Appending a user never changes an existing match, and is found only when
      nothing before it matches. */
  lemma {:induction false} FindByEmailAppend(users: seq<User>, u: User, email: string)
    ensures FindByEmail(users + [u], email) ==
              if FindByEmail(users, email).Some? then FindByEmail(users, email)
              else if SameEmail(u.email, email) then Some(u)
              else None
  {
    if |users| > 0 && !SameEmail(users[0].email, email) {
      FindByEmailAppend(users[1..], u, email);
      assert (users + [u])[1..] == users[1..] + [u];
    }
  }

  /** The users map after `updateUserPaymentStatus(id, hasPaid)`. */
  function WithPayment(users: map<UserId, User>, id: UserId, hasPaid: bool): (m: map<UserId, User>)
    ensures m.Keys == users.Keys
    ensures id in users ==> m[id] == users[id].(hasPaid := hasPaid)
    ensures forall other :: other in users && other != id ==> m[other] == users[other]
  {
    if id in users then users[id := users[id].(hasPaid := hasPaid)] else users
  }

  /** Setting the payment flag twice to the same value is the same as setting it once. */
  lemma WithPaymentIdempotent(users: map<UserId, User>, id: UserId, hasPaid: bool)
    ensures WithPayment(WithPayment(users, id, hasPaid), id, hasPaid) == WithPayment(users, id, hasPaid)
  {
  }

  /** `MemStorage`: `users` is the JavaScript Map, `order` the order in which
      its keys were first inserted (the order `users.values()` yields them). */
  class MemStorage {
    var users: map<UserId, User>
    var order: seq<UserId>

    ghost predicate Valid()
      reads this
    {
      && (forall i, j :: 0 <= i < j < |order| ==> order[i] != order[j])
      && (forall id :: id in users <==> id in order)
      && (forall id :: id in users ==> users[id].id == id)
    }

    /** The stored records in iteration order. */
    ghost function Values(): (vs: seq<User>)
      reads this
      requires Valid()
      ensures |vs| == |order|
      ensures forall i :: 0 <= i < |order| ==> order[i] in users && vs[i] == users[order[i]]
    {
      var ids, m := order, users;
      assert forall i :: 0 <= i < |ids| ==> ids[i] in ids;
      seq(|ids|, i requires 0 <= i < |ids| && ids[i] in m => m[ids[i]])
    }

    constructor ()
      ensures Valid()
      ensures users == map[] && order == []
    {
      users := map[];
      order := [];
    }

    /** `getUser(id)`: the record stored under `id`, if any. */
    method GetUser(id: UserId) returns (r: Option<User>)
      requires Valid()
      ensures r.Some? <==> id in users
      ensures r.Some? ==> r.value == users[id] && r.value.id == id
    {
      if id in users {
        r := Some(users[id]);
      } else {
        r := None;
      }
    }

    /** `getUserByEmail(email)`: scans the records in insertion order for the
        first whose email matches ignoring case. */
    method GetUserByEmail(email: string) returns (r: Option<User>)
      requires Valid()
      ensures r == FindByEmail(Values(), email)
    {
      var i := 0;
      while i < |order|
        invariant 0 <= i <= |order|
        invariant forall j :: 0 <= j < i ==> !SameEmail(Values()[j].email, email)
      {
        assert order[i] in order;
        var user := users[order[i]];
        if ToLower(user.email) == ToLower(email) {
          assert user == Values()[i];
          return Some(user);
        }
        i := i + 1;
      }
      return None;
    }

    /** `createUser(insert)`: stores a new record under the fresh id `id` (the
        value randomUUID produced), with `hasPaid` false and the creation time
        `now`. No email-uniqueness check is made here. */
    method CreateUser(insert: InsertUser, id: UserId, now: int) returns (user: User)
      requires Valid()
      requires id !in users
      modifies this
      ensures Valid()
      ensures user == User(id, insert.name, insert.email, insert.passwordHash, false, now)
      ensures users == old(users)[id := user]
      ensures order == old(order) + [id]
      ensures Values() == old(Values()) + [user]
    {
      user := User(id, insert.name, insert.email, insert.passwordHash, false, now);
      ghost var before := Values();
      users := users[id := user];
      order := order + [id];
      assert forall k :: k in users <==> k in order by {
        forall k ensures k in order <==> k in old(order) || k == id {
          assert order == old(order) + [id];
        }
      }
      assert Values() == before + [user];
    }

    /** `updateUserPaymentStatus(id, hasPaid)`: sets the flag of the stored
        record in place and returns it, or reports absence when `id` is unknown. */
    method UpdateUserPaymentStatus(id: UserId, hasPaid: bool) returns (r: Option<User>)
      requires Valid()
      modifies this
      ensures Valid()
      ensures order == old(order)
      ensures users == WithPayment(old(users), id, hasPaid)
      ensures r.None? <==> id !in old(users)
      ensures r.Some? ==> r.value == old(users)[id].(hasPaid := hasPaid) && r.value == users[id]
    {
      if id in users {
        var user := users[id].(hasPaid := hasPaid);
        users := users[id := user];
        r := Some(user);
      } else {
        r := None;
      }
    }
  }
}
