/**
 * The bot's user table (app/services/user.py). Users are keyed by their messenger id;
 * `joined` records the order of insertion, which is the order of `created_at`.
 * Timestamps are an input `now`; whether the database commit succeeds is an input `commitOk`.
 */
module Users {
  import opened Text

  /** The widths of the profile columns the checkout writes. */
  const PHONE_WIDTH := 20
  const EMAIL_WIDTH := 255

  datatype User = User(
    id: int,
    opencartCustomerId: Option<int>,
    username: Option<string>,
    firstName: Option<string>,
    lastName: Option<string>,
    phone: Option<string>,
    email: Option<string>,
    isActive: bool,
    createdAt: int,
    updatedAt: int
  )

  /** A supplied profile field that is truthy and differs from the stored one. */
  predicate Differs(supplied: Option<string>, stored: Option<string>)
  {
    Truthy(supplied) && stored != supplied
  }

  predicate NeedsUpdate(u: User, username: Option<string>, firstName: Option<string>, lastName: Option<string>)
  {
    Differs(username, u.username) || Differs(firstName, u.firstName) || Differs(lastName, u.lastName)
  }

  /**
   * The stored user after `get_or_create_user` finds it: when some truthy supplied field
   * differs, all three profile fields are overwritten (a `None` too); otherwise nothing changes.
   */
  function Refreshed(u: User, username: Option<string>, firstName: Option<string>, lastName: Option<string>, now: int): (r: User)
    ensures r.id == u.id && r.phone == u.phone && r.email == u.email && r.isActive == u.isActive
    ensures r.opencartCustomerId == u.opencartCustomerId && r.createdAt == u.createdAt
    ensures NeedsUpdate(u, username, firstName, lastName) ==>
      r.username == username && r.firstName == firstName && r.lastName == lastName && r.updatedAt == now
    ensures !NeedsUpdate(u, username, firstName, lastName) ==> r == u
    ensures Truthy(username) ==> r.username == username
    ensures Truthy(firstName) ==> r.firstName == firstName
    ensures Truthy(lastName) ==> r.lastName == lastName
  {
    if NeedsUpdate(u, username, firstName, lastName) then
      u.(username := username, firstName := firstName, lastName := lastName, updatedAt := now)
    else u
  }

  /** A second call with the same profile changes nothing, whatever the time. */
  lemma RefreshIdempotent(u: User, username: Option<string>, firstName: Option<string>, lastName: Option<string>, t1: int, t2: int)
    ensures var once := Refreshed(u, username, firstName, lastName, t1);
      Refreshed(once, username, firstName, lastName, t2) == once
  {
    var once := Refreshed(u, username, firstName, lastName, t1);
    assert !NeedsUpdate(once, username, firstName, lastName);
  }

  /** The row inserted for a new user: active, no phone, email or storefront link yet. */
  function NewUser(id: int, username: Option<string>, firstName: Option<string>, lastName: Option<string>, now: int): (r: User)
    ensures r.id == id && r.isActive
    ensures r.phone == None && r.email == None && r.opencartCustomerId == None
    ensures (r.username, r.firstName, r.lastName) == (username, firstName, lastName)
    ensures r.createdAt == now == r.updatedAt
  {
    User(id, None, username, firstName, lastName, None, None, true, now, now)
  }

  /** The users that joined last, most recent first, at most `limit` of them. */
  function Latest(users: map<int, User>, joined: seq<int>, limit: nat): (r: seq<User>)
    requires forall i :: 0 <= i < |joined| ==> joined[i] in users
    ensures |r| == if limit <= |joined| then limit else |joined|
    ensures forall i :: 0 <= i < |r| ==> r[i] == users[joined[|joined| - 1 - i]]
  {
    if limit == 0 || joined == [] then []
    else [users[joined[|joined| - 1]]] + Latest(users, joined[..|joined| - 1], limit - 1)
  }

  class UserService {
    var users: map<int, User>
    /** User ids in the order their rows were inserted. */
    var joined: seq<int>

    ghost predicate Valid()
      reads this
    {
      && (forall id :: id in users ==> users[id].id == id && id in joined)
      && (forall i :: 0 <= i < |joined| ==> joined[i] in users)
      && (forall i, j :: 0 <= i < j < |joined| ==> joined[i] != joined[j])
    }

    constructor()
      ensures Valid() && users == map[] && joined == []
    {
      users := map[];
      joined := [];
    }

    /** `get_user` */
    function GetUser(id: int): (r: Option<User>)
      reads this
      ensures r.Some? <==> id in users
      ensures r.Some? ==> r.value == users[id]
    {
      if id in users then Some(users[id]) else None
    }

    /**
     * `get_or_create_user`: an existing user comes back refreshed, a new one is inserted;
     * a failed commit rolls back and the exception propagates.
     */
    method GetOrCreateUser(id: int, username: Option<string>, firstName: Option<string>, lastName: Option<string>,
                           now: int, commitOk: bool) returns (r: Call<User>)
      requires Valid()
      modifies this
      ensures Valid()
      ensures id in old(users) && !NeedsUpdate(old(users)[id], username, firstName, lastName) ==>
        r == Returned(old(users)[id]) && users == old(users) && joined == old(joined)
      ensures id in old(users) && NeedsUpdate(old(users)[id], username, firstName, lastName) && commitOk ==>
        var u := Refreshed(old(users)[id], username, firstName, lastName, now);
        r == Returned(u) && users == old(users)[id := u] && joined == old(joined)
      ensures id !in old(users) && commitOk ==>
        var u := NewUser(id, username, firstName, lastName, now);
        r == Returned(u) && users == old(users)[id := u] && joined == old(joined) + [id]
      ensures r.Raised? <==> !commitOk && (id !in old(users) || NeedsUpdate(old(users)[id], username, firstName, lastName))
      ensures r.Raised? ==> users == old(users) && joined == old(joined)
      ensures r.Returned? ==> GetUser(id) == Some(r.value)
      ensures id !in old(users) && commitOk ==> forall limit: nat :: limit >= 1 ==> GetAllUsers(limit)[0] == r.value
    {
      if id in users {
        var u := users[id];
        if NeedsUpdate(u, username, firstName, lastName) {
          if !commitOk {
            return Raised;
          }
          u := Refreshed(u, username, firstName, lastName, now);
          users := users[id := u];
        }
        return Returned(u);
      }
      if !commitOk {
        return Raised;
      }
      var u := NewUser(id, username, firstName, lastName, now);
      users := users[id := u];
      joined := joined + [id];
      r := Returned(u);
    }

    /**
     * `update_phone`: only the phone and `updated_at` change; a missing user is no error. A
     * phone longer than the `String(20)` column is refused and reported like a failed commit.
     */
    method UpdatePhone(id: int, phone: string, now: int, commitOk: bool) returns (ok: bool)
      requires Valid()
      modifies this
      ensures Valid() && joined == old(joined)
      ensures ok == (commitOk && |phone| <= PHONE_WIDTH)
      ensures users == if ok && id in old(users)
        then old(users)[id := old(users)[id].(phone := Some(phone), updatedAt := now)]
        else old(users)
    {
      ok := commitOk && |phone| <= PHONE_WIDTH;
      if ok && id in users {
        users := users[id := users[id].(phone := Some(phone), updatedAt := now)];
      }
    }

    /** `update_email`, the same as `update_phone` for the email field and its `String(255)` column. */
    method UpdateEmail(id: int, email: Option<string>, now: int, commitOk: bool) returns (ok: bool)
      requires Valid()
      modifies this
      ensures Valid() && joined == old(joined)
      ensures ok == (commitOk && (email.None? || |email.value| <= EMAIL_WIDTH))
      ensures users == if ok && id in old(users)
        then old(users)[id := old(users)[id].(email := email, updatedAt := now)]
        else old(users)
    {
      ok := commitOk && (email.None? || |email.value| <= EMAIL_WIDTH);
      if ok && id in users {
        users := users[id := users[id].(email := email, updatedAt := now)];
      }
    }

    /** `update_opencart_id`: links the user to a storefront customer. */
    method UpdateOpencartId(id: int, customerId: int, now: int, commitOk: bool) returns (ok: bool)
      requires Valid()
      modifies this
      ensures Valid() && ok == commitOk && joined == old(joined)
      ensures users == if commitOk && id in old(users)
        then old(users)[id := old(users)[id].(opencartCustomerId := Some(customerId), updatedAt := now)]
        else old(users)
    {
      if commitOk && id in users {
        users := users[id := users[id].(opencartCustomerId := Some(customerId), updatedAt := now)];
      }
      ok := commitOk;
    }

    /**
     * `get_all_users`: the newest users first, at most `limit` of them. The i-th listed user
     * is the one inserted i-th from the end, so the list is a prefix of the users ordered
     * by descending insertion time, cut at the limit.
     */
    function GetAllUsers(limit: nat): (r: seq<User>)
      reads this
      requires Valid()
      ensures |r| <= limit && |r| <= |users|
      ensures |r| == if limit <= |joined| then limit else |joined|
      ensures forall i :: 0 <= i < |r| ==> r[i] == users[joined[|joined| - 1 - i]]
    {
      DistinctCount();
      Latest(users, joined, limit)
    }

    /** The log and the table have the same size, since the log lists each user once. */
    lemma DistinctCount()
      requires Valid()
      ensures |joined| <= |users|
    {
      var ids := set i | 0 <= i < |joined| :: joined[i];
      SizeOfDistinct(joined);
      SubsetSize(ids, users.Keys);
    }
  }

  lemma {:induction false} SizeOfDistinct(s: seq<int>)
    requires forall i, j :: 0 <= i < j < |s| ==> s[i] != s[j]
    ensures |set i | 0 <= i < |s| :: s[i]| == |s|
  {
    if s != [] {
      var init := s[..|s| - 1];
      SizeOfDistinct(init);
      assert (set i | 0 <= i < |s| :: s[i]) == (set i | 0 <= i < |init| :: init[i]) + {s[|s| - 1]};
    }
  }

  lemma {:induction false} SubsetSize(a: set<int>, b: set<int>)
    requires a <= b
    ensures |a| <= |b|
    decreases b
  {
    if a != {} {
      assert exists x :: x in a by {
        if forall x :: x !in a { assert false; }
      }
      var x :| x in a;
      SubsetSize(a - {x}, b - {x});
    }
  }
}
