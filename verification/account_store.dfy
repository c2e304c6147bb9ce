/**
 * The Google-linked store methods the login route calls: lookup by Google id, lookup by
 * email, linking a Google id to an account, and creating an account from Google claims.
 * Neither `InMemoryUserService` nor `SqlAlchemyUserService` in app/services/user_service.py
 * defines them, so they are parameters here, and what the route relies on them to do is
 * stated as laws (`Lawful`) that only lemmas assume.
 */
module AccountStore {
  import opened Wrappers
  import opened UserService

  /** An exception raised by the store. */
  datatype StoreFault = StoreFault

  /**
   * The four store methods, each taking the current store; a `Failure` is a raise. A
   * lookup answers with the account or `None`; linking and creating return the account,
   * or `None` when the store has nothing to return.
   */
  datatype StoreOps = StoreOps(
    getUserByGoogleId: (Store, string) -> Result<Option<User>, StoreFault>,
    getUserByEmail: (Store, string) -> Result<Option<User>, StoreFault>,
    linkGoogleId: (Store, UserId, string) -> Result<Step<Option<User>>, StoreFault>,
    createUserFromGoogle: (Store, string, string, Option<string>) -> Result<Step<Option<User>>, StoreFault>)

  /** One call the login route makes on the store, in the order it makes them. */
  datatype StoreCall =
    | GetUserByGoogleId(googleId: string)
    | GetUserByEmail(email: string)
    | LinkGoogleId(userId: UserId, linkedGoogleId: string)
    | CreateUserFromGoogle(newGoogleId: string, newEmail: string, name: Option<string>)

  /** `u` is the record stored under its own id. */
  ghost predicate Stored(s: Store, u: User) {
    u.id in s && s[u.id] == u
  }

  /** No two stored accounts carry the same Google id. */
  ghost predicate GoogleIdsUnique(s: Store) {
    forall a, b :: a in s && b in s && s[a].googleId.Some? && s[a].googleId == s[b].googleId ==> a == b
  }

  /** Some stored account carries Google id `g`. */
  ghost predicate HasGoogleId(s: Store, g: string) {
    exists k :: k in s && s[k].googleId == Some(g)
  }

  /** Some stored account has email `e`. */
  ghost predicate HasEmail(s: Store, e: string) {
    exists k :: k in s && s[k].email == e
  }

  /**
   * A lookup that answers with an account returns a stored account with the key asked
   * for; on a store whose records sit under their own ids, it answers "no match" only
   * when no account has that key. A lookup may still raise.
   */
  ghost predicate LookupsLawful(ops: StoreOps) {
    && (forall s: Store, g: string :: ops.getUserByGoogleId(s, g).Success? && ops.getUserByGoogleId(s, g).value.Some? ==>
          Stored(s, ops.getUserByGoogleId(s, g).value.value) && ops.getUserByGoogleId(s, g).value.value.googleId == Some(g))
    && (forall s: Store, g: string :: KeysMatch(s) && HasGoogleId(s, g) ==> ops.getUserByGoogleId(s, g) != Success(None))
    && (forall s: Store, e: string :: ops.getUserByEmail(s, e).Success? && ops.getUserByEmail(s, e).value.Some? ==>
          Stored(s, ops.getUserByEmail(s, e).value.value) && ops.getUserByEmail(s, e).value.value.email == e)
    && (forall s: Store, e: string :: KeysMatch(s) && HasEmail(s, e) ==> ops.getUserByEmail(s, e) != Success(None))
  }

  /**
   * A successful link sets the Google id of exactly the named account; a link that
   * returns nothing changes nothing.
   */
  ghost predicate LinkLawful(ops: StoreOps) {
    forall s: Store, id: UserId, g: string :: ops.linkGoogleId(s, id, g).Success? ==>
      var st := ops.linkGoogleId(s, id, g).value;
      match st.value
      case None => st.store == s
      case Some(u) =>
        && id in s
        && u == s[id].(googleId := Some(g))
        && st.store == s[id := u]
  }

  /**
   * A successful create that returns an account adds it under a fresh id, with the given
   * Google id, email and name, no phone and the default role; a create that returns
   * nothing changes nothing.
   */
  ghost predicate CreateLawful(ops: StoreOps) {
    forall s: Store, g: string, e: string, n: Option<string> :: ops.createUserFromGoogle(s, g, e, n).Success? ==>
      var st := ops.createUserFromGoogle(s, g, e, n).value;
      match st.value
      case None => st.store == s
      case Some(u) =>
        && u.id !in s
        && u == User(u.id, e, n, None, Some(g), UserRole)
        && st.store == s[u.id := u]
  }

  ghost predicate Lawful(ops: StoreOps) {
    LookupsLawful(ops) && LinkLawful(ops) && CreateLawful(ops)
  }

  /**
   * The laws are consistent: lookups that scan the store for a record under its own id
   * with the key asked for, together with a link and a create that always raise, obey them.
   */
  lemma LawfulSatisfiable()
    ensures exists ops :: Lawful(ops)
  {
    var byGoogleId := (s: Store, g: string) =>
      if exists k :: k in s && s[k].id == k && s[k].googleId == Some(g)
      then var k :| k in s && s[k].id == k && s[k].googleId == Some(g); Success(Some(s[k]))
      else Success(None);
    var byEmail := (s: Store, e: string) =>
      if exists k :: k in s && s[k].id == k && s[k].email == e
      then var k :| k in s && s[k].id == k && s[k].email == e; Success(Some(s[k]))
      else Success(None);
    var ops := StoreOps(byGoogleId, byEmail,
                        (s: Store, id: UserId, g: string) => Failure(StoreFault),
                        (s: Store, g: string, e: string, n: Option<string>) => Failure(StoreFault));
    assert LookupsLawful(ops);
    assert Lawful(ops);
  }
}
