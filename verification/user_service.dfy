/**
 * The user record and the in-memory user store: a dictionary from user id to record,
 * with list, get, create, partial update and delete.
 */
module UserService {
  import opened Wrappers

  type UserId = string

  /** The role enumeration; `Value` is the string the role serialises to. */
  datatype Role = UserRole | AdminRole {
    function Value(): string {
      match this
      case UserRole => "user"
      case AdminRole => "admin"
    }
  }

  /** A stored user. `googleId` and `role` are set by the Google-linked store methods. */
  datatype User = User(
    id: UserId,
    email: string,
    fullName: Option<string>,
    primaryPhone: Option<string>,
    googleId: Option<string>,
    role: Role)

  /** The create payload; the password is validated upstream and never stored. */
  datatype UserCreate = UserCreate(
    email: string,
    fullName: Option<string>,
    primaryPhone: Option<string>,
    password: string)

  /** The partial-update payload: `None` means "leave this field alone". */
  datatype UserUpdate = UserUpdate(
    email: Option<string>,
    fullName: Option<string>,
    password: Option<string>,
    primaryPhone: Option<string>)

  type Store = map<UserId, User>

  /** Every record is stored under its own id, as each store method keeps it. */
  ghost predicate KeysMatch(s: Store) {
    forall k :: k in s ==> s[k].id == k
  }

  /** The store after an operation together with what the operation returned. */
  datatype Step<+T> = Step(store: Store, value: T)

  /** `get_user`: the record stored under `id`, if any. */
  function GetUser(s: Store, id: UserId): (r: Option<User>)
    ensures r.Some? <==> id in s
    ensures r.Some? ==> r.value == s[id]
  {
    if id in s then Some(s[id]) else None
  }

  /**
   * `create_user`: store a new record under `newId` (the freshly generated UUID), carrying
   * the payload's email, name and phone, no Google id and the default role.
   */
  function CreateUser(s: Store, newId: UserId, p: UserCreate): (r: Step<User>)
    ensures r.value.id == newId
    ensures r.value.email == p.email && r.value.fullName == p.fullName
    ensures r.value.primaryPhone == p.primaryPhone
    ensures r.value.googleId == None && r.value.role == UserRole
    ensures r.store.Keys == s.Keys + {newId}
    ensures r.store[newId] == r.value
    ensures forall k :: k in s && k != newId ==> r.store[k] == s[k]
  {
    var u := User(newId, p.email, p.fullName, p.primaryPhone, None, UserRole);
    Step(s[newId := u], u)
  }

  /** The record `u` with every field the payload supplies overwritten. */
  function ApplyUpdate(u: User, p: UserUpdate): (r: User)
    ensures r.id == u.id && r.googleId == u.googleId && r.role == u.role
    ensures r.email == p.email.GetOr(u.email)
    ensures r.fullName == (if p.fullName.Some? then p.fullName else u.fullName)
    ensures r.primaryPhone == (if p.primaryPhone.Some? then p.primaryPhone else u.primaryPhone)
  {
    u.(email := p.email.GetOr(u.email),
       fullName := if p.fullName.Some? then p.fullName else u.fullName,
       primaryPhone := if p.primaryPhone.Some? then p.primaryPhone else u.primaryPhone)
  }

  /** `update_user`: `None` and no change for an unknown id, otherwise the merged record. */
  function UpdateUser(s: Store, id: UserId, p: UserUpdate): (r: Step<Option<User>>)
    ensures id !in s ==> r.value == None && r.store == s
    ensures id in s ==> r.value == Some(ApplyUpdate(s[id], p)) && r.store == s[id := r.value.value]
  {
    if id !in s then Step(s, None)
    else
      var u := ApplyUpdate(s[id], p);
      Step(s[id := u], Some(u))
  }

  /** `delete_user`: whether `id` was present; the store no longer holds it. */
  function DeleteUser(s: Store, id: UserId): (r: Step<bool>)
    ensures r.value <==> id in s
    ensures r.store.Keys == s.Keys - {id}
    ensures forall k :: k in r.store ==> r.store[k] == s[k]
  {
    if id in s then Step(s - {id}, true) else Step(s, false)
  }

  /** `list_users`: one entry per stored id, holding that id's record. */
  method ListUsers(s: Store) returns (users: seq<User>, ghost keys: seq<UserId>)
    ensures |users| == |s|
    ensures forall k :: k in s ==> s[k] in users
    ensures forall i :: 0 <= i < |users| ==> users[i] in s.Values
    ensures |keys| == |users|
    ensures forall i, j :: 0 <= i < j < |keys| ==> keys[i] != keys[j]
    ensures forall k :: k in s <==> k in keys
    ensures forall i :: 0 <= i < |keys| ==> keys[i] in s && users[i] == s[keys[i]]
  {
    users := [];
    keys := [];
    var remaining := s.Keys;
    while remaining != {}
      invariant remaining <= s.Keys
      invariant |keys| + |remaining| == |s|
      invariant forall k :: k in keys <==> k in s && k !in remaining
      invariant forall i, j :: 0 <= i < j < |keys| ==> keys[i] != keys[j]
      invariant |users| == |keys|
      invariant forall i :: 0 <= i < |keys| ==> keys[i] in s && users[i] == s[keys[i]]
      decreases remaining
    {
      var k :| k in remaining;
      users := users + [s[k]];
      keys := keys + [k];
      remaining := remaining - {k};
    }
    forall k | k in s
      ensures s[k] in users
    {
      var i :| 0 <= i < |keys| && keys[i] == k;
      assert users[i] == s[k];
    }
  }

  /** A created record is exactly what `get_user` then returns for the new id. */
  lemma CreateThenGet(s: Store, newId: UserId, p: UserCreate)
    ensures GetUser(CreateUser(s, newId, p).store, newId)
         == Some(User(newId, p.email, p.fullName, p.primaryPhone, None, UserRole))
  {
  }

  /** With a fresh id, creating adds one record and leaves every earlier record in place. */
  lemma CreateKeepsEarlierUsers(s: Store, newId: UserId, p: UserCreate)
    requires newId !in s
    ensures |CreateUser(s, newId, p).store| == |s| + 1
    ensures forall k :: k in s ==> GetUser(CreateUser(s, newId, p).store, k) == GetUser(s, k)
  {
  }

  /** Applying the same partial update twice gives the state one application gives. */
  lemma UpdateIsIdempotent(s: Store, id: UserId, p: UserUpdate)
    ensures UpdateUser(UpdateUser(s, id, p).store, id, p) == UpdateUser(s, id, p)
  {
  }

  /** An update touches only its target; id, Google id and role never change. */
  lemma UpdateChangesOnlyTarget(s: Store, id: UserId, p: UserUpdate, other: UserId)
    requires other != id
    ensures GetUser(UpdateUser(s, id, p).store, other) == GetUser(s, other)
    ensures id in s ==> var u := UpdateUser(s, id, p).store[id];
      u.id == s[id].id && u.googleId == s[id].googleId && u.role == s[id].role
  {
  }

  /** After a delete the id is gone for `get_user`, and everyone else is still there. */
  lemma DeleteThenGet(s: Store, id: UserId, other: UserId)
    requires other != id
    ensures GetUser(DeleteUser(s, id).store, id) == None
    ensures GetUser(DeleteUser(s, id).store, other) == GetUser(s, other)
  {
  }

  /** Create, update and delete keep every record under its own id. */
  lemma OperationsKeepKeysMatch(s: Store, newId: UserId, p: UserCreate, id: UserId, q: UserUpdate)
    requires KeysMatch(s)
    ensures KeysMatch(CreateUser(s, newId, p).store)
    ensures KeysMatch(UpdateUser(s, id, q).store)
    ensures KeysMatch(DeleteUser(s, id).store)
  {
  }
}
