/**
 * The signed-in user's global store: the user record, the token and the
 * authenticated flag, persisted between page loads.
 */
module UserStore {
  import opened Js

  /** The store's data fields, as the persisted slice holds them. */
  datatype UserState = UserState(user: JsValue, token: JsValue, isAuthenticated: JsValue)

  const Initial := UserState(Null, Null, Bool(false))

  /** The slice written to storage: exactly the three data fields. */
  function Partialize(s: UserState): (r: Record)
    ensures r.Keys == {"user", "token", "isAuthenticated"}
    ensures r["user"] == s.user && r["token"] == s.token && r["isAuthenticated"] == s.isAuthenticated
  {
    map["user" := s.user, "token" := s.token, "isAuthenticated" := s.isAuthenticated]
  }

  /** Loading a stored slice: its fields are merged over the store's current state. */
  function Rehydrate(current: UserState, stored: Record): (r: UserState)
    ensures stored == map[] ==> r == current
    ensures {"user", "token", "isAuthenticated"} <= stored.Keys ==>
      r == UserState(stored["user"], stored["token"], stored["isAuthenticated"])
  {
    UserState(
      if "user" in stored then stored["user"] else current.user,
      if "token" in stored then stored["token"] else current.token,
      if "isAuthenticated" in stored then stored["isAuthenticated"] else current.isAuthenticated)
  }

  /** A persisted state comes back unchanged, whatever the store held before loading it. */
  lemma RehydratePartialize(current: UserState, s: UserState)
    ensures Rehydrate(current, Partialize(s)) == s
  {
  }

  /** A stored slice missing some fields keeps the current values of those fields. */
  lemma RehydrateKeepsMissing(current: UserState, stored: Record)
    requires "token" !in stored
    ensures Rehydrate(current, stored).token == current.token
  {
  }

  class Store {
    var user: JsValue
    var token: JsValue
    var isAuthenticated: JsValue

    function State(): UserState
      reads this
    {
      UserState(user, token, isAuthenticated)
    }

    constructor ()
      ensures State() == Initial
    {
      user := Null;
      token := Null;
      isAuthenticated := Bool(false);
    }

    /** The user is replaced and the flag follows whether there is one; the token is kept. */
    method SetUserInfo(newUser: JsValue)
      modifies this
      ensures user == newUser && isAuthenticated == Bool(Truthy(newUser)) && token == old(token)
    {
      user := newUser;
      isAuthenticated := Bool(Truthy(newUser));
    }

    method SetToken(newToken: JsValue)
      modifies this
      ensures token == newToken && user == old(user) && isAuthenticated == old(isAuthenticated)
    {
      token := newToken;
    }

    method Login(newUser: JsValue, newToken: JsValue)
      modifies this
      ensures State() == UserState(newUser, newToken, Bool(true))
    {
      user := newUser;
      token := newToken;
      isAuthenticated := Bool(true);
    }

    method Logout()
      modifies this
      ensures State() == Initial
    {
      user := Null;
      token := Null;
      isAuthenticated := Bool(false);
    }

    /** The updates are merged over a signed-in user; without one the user stays null. */
    method UpdateUserInfo(updates: JsValue)
      modifies this
      ensures !Truthy(old(user)) ==> user == Null
      ensures Truthy(old(user)) ==> user == Obj(Spread(old(user)) + Spread(updates))
      ensures Truthy(old(user)) ==> forall k :: k in Spread(updates) ==> Get(user, k) == Spread(updates)[k]
      ensures Truthy(old(user)) ==> forall k :: k !in Spread(updates) ==> Get(user, k) == Get(old(user), k)
      ensures token == old(token) && isAuthenticated == old(isAuthenticated)
    {
      user := if Truthy(user) then Obj(Spread(user) + Spread(updates)) else Null;
    }
  }

  /** Signing in and then out leaves the store as it started, whatever it held. */
  method LoginThenLogout(store: Store, newUser: JsValue, newToken: JsValue)
    modifies store
    ensures store.State() == Initial
    ensures Partialize(store.State()) == map["user" := Null, "token" := Null, "isAuthenticated" := Bool(false)]
  {
    store.Login(newUser, newToken);
    store.Logout();
  }
}
