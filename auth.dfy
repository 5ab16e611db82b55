/**
 * The authentication state (movies-web/src/context/AuthContext.jsx): `user`
 * and `isAuthenticated`, kept in step with the browser store under the key
 * 'user' by an effect that runs after every change of `user`. The store is a
 * map from keys to stored text; turning a user into text and back
 * (`JSON.stringify`, `JSON.parse`) is given as two functions.
 */
module Auth {
  import opened Wrappers
  import ReactContext

  const UserKey := "user"

  /** `localStorage.getItem('user')` is a non-empty string, hence truthy. */
  predicate HasStoredUser(store: map<string, string>) {
    UserKey in store && store[UserKey] != ""
  }

  /** The initial `user`: `saved ? JSON.parse(saved) : null`. */
  function InitialUser<U>(store: map<string, string>, parse: string -> Option<U>): (u: Option<U>)
    ensures !HasStoredUser(store) ==> u == None
    ensures HasStoredUser(store) ==> u == parse(store[UserKey])
  {
    if HasStoredUser(store) then parse(store[UserKey]) else None
  }

  /**
   * The storage write of the sync effect: a present user is stored under
   * 'user', an absent one removes the key; no other key is touched.
   */
  function SyncedStore<U>(store: map<string, string>, user: Option<U>, serialize: U -> string): (r: map<string, string>)
    ensures user.Some? ==> UserKey in r && r[UserKey] == serialize(user.value)
    ensures user.None? ==> UserKey !in r
    ensures forall k :: k != UserKey ==> (k in r <==> k in store)
    ensures forall k :: k != UserKey && k in store ==> r[k] == store[k]
  {
    if user.Some? then store[UserKey := serialize(user.value)] else store - {UserKey}
  }

  /** The state the sync effect establishes: the flag, the user and the store agree. */
  predicate InStep<U>(store: map<string, string>, user: Option<U>, isAuthenticated: bool, serialize: U -> string) {
    && isAuthenticated == user.Some?
    && (UserKey in store <==> user.Some?)
    && (user.Some? ==> store[UserKey] == serialize(user.value))
  }

  /** After the sync effect the state is in step, whatever it was before. */
  lemma SyncEstablishesInStep<U>(store: map<string, string>, user: Option<U>, serialize: U -> string)
    ensures InStep(SyncedStore(store, user, serialize), user, user.Some?, serialize)
  {
  }

  /**
   * Before the effect first runs the state can be out of step: a stored
   * text that parses to null (the text "null") makes `isAuthenticated` true
   * while `user` is null.
   */
  lemma InitialStateMayDisagree<U>(store: map<string, string>, parse: string -> Option<U>, serialize: U -> string)
    requires UserKey in store && store[UserKey] == "null" && parse("null") == None
    ensures HasStoredUser(store) && InitialUser(store, parse) == None
    ensures !InStep(store, InitialUser(store, parse), HasStoredUser(store), serialize)
  {
  }

  /**
   * A user who logged in is found again by the next mount, provided the
   * stored text reads back to the same user.
   */
  lemma LoginSurvivesRemount<U>(store: map<string, string>, u: U, parse: string -> Option<U>, serialize: U -> string)
    requires serialize(u) != "" && parse(serialize(u)) == Some(u)
    ensures var s := SyncedStore(store, Some(u), serialize);
      HasStoredUser(s) && InitialUser(s, parse) == Some(u)
  {
  }

  /** After a logout the next mount starts signed out. */
  lemma LogoutSurvivesRemount<U>(store: map<string, string>, parse: string -> Option<U>, serialize: U -> string)
    ensures var s := SyncedStore(store, None, serialize);
      !HasStoredUser(s) && InitialUser(s, parse) == None
  {
  }

  /** `useAuth` throws outside the provider. */
  function UseAuth<C>(ctx: Option<C>): (r: Result<C, string>)
    ensures r.Err? <==> ctx.None?
    ensures ctx.Some? ==> r == Ok(ctx.value)
    ensures ctx.None? ==> r.error == "useAuth must be used within AuthProvider"
  {
    ReactContext.RequireProvider(ctx, "useAuth must be used within AuthProvider")
  }

  class AuthProvider<U> {
    /** `JSON.parse` of the stored text; `None` stands for `null`. */
    const parse: string -> Option<U>
    /** `JSON.stringify` of a user. */
    const serialize: U -> string
    var store: map<string, string>
    var user: Option<U>
    var isAuthenticated: bool

    /** Mounting the provider on a store: both states are read from the stored 'user' text. */
    constructor (store: map<string, string>, parse: string -> Option<U>, serialize: U -> string)
      ensures this.store == store && this.parse == parse && this.serialize == serialize
      ensures user == InitialUser(store, parse)
      ensures isAuthenticated == HasStoredUser(store)
    {
      this.parse := parse;
      this.serialize := serialize;
      this.store := store;
      user := if UserKey in store && store[UserKey] != "" then parse(store[UserKey]) else None;
      isAuthenticated := UserKey in store && store[UserKey] != "";
    }

    /** The effect on `[user]`: write or remove the stored user and set the flag to match. */
    method Sync()
      modifies this`store, this`isAuthenticated
      ensures store == SyncedStore(old(store), user, serialize)
      ensures isAuthenticated == user.Some?
      ensures InStep(store, user, isAuthenticated, serialize)
    {
      if user.Some? {
        store := store[UserKey := serialize(user.value)];
        isAuthenticated := true;
      } else {
        store := store - {UserKey};
        isAuthenticated := false;
      }
    }

    method Login(userData: U)
      modifies this`user
      ensures user == Some(userData)
    {
      user := Some(userData);
    }

    method Logout()
      modifies this`user
      ensures user == None
    {
      user := None;
    }
  }

  /** Logging in and letting the effect run stores the user; logging out and letting it run removes it. */
  method ScenarioLoginLogout<U>(store: map<string, string>, parse: string -> Option<U>, serialize: U -> string, u: U) {
    var auth := new AuthProvider(store, parse, serialize);
    auth.Sync();
    auth.Login(u);
    auth.Sync();
    assert auth.isAuthenticated && auth.store[UserKey] == serialize(u);
    auth.Logout();
    auth.Sync();
    assert !auth.isAuthenticated && UserKey !in auth.store;
  }
}
