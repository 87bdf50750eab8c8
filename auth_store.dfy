/** The session store: the token and the user, replaced by `login` and cleared by
    `logout`, the two role and session queries, and the `auth-storage` entry that keeps the
    session across reloads. */
module AuthStore {
  import opened JsCore
  import opened Records

  /** The localStorage key the session is kept under. */
  const StorageKey := "auth-storage"

  /** The persisted part of the store. */
  datatype Session = Session(token: Option<string>, user: Option<User>)

  /** `user?.role === 'admin' || user?.role === 'Admin'` */
  predicate IsAdminUser(user: Option<User>) {
    user.Some? && (user.value.role == Some("admin") || user.value.role == Some("Admin"))
  }

  /** The role test is not case-insensitive: the two accepted spellings lower-case to
      `admin`, but `ADMIN` (or any other spelling) is not an admin. */
  lemma AdminIsTwoExactSpellings(u: User)
    ensures IsAdminUser(Some(u)) ==> ToLower(u.role.value) == "admin"
    ensures !IsAdminUser(Some(u.(role := Some("ADMIN"))))
    ensures ToLower("ADMIN") == "admin"
  {
    assert ToLower("Admin") == "admin" by {
      assert LowerChar('A') == 'a';
    }
    assert ToLower("admin") == "admin";
    assert ToLower("ADMIN") == "admin" by {
      assert LowerChar('A') == 'a' && LowerChar('D') == 'd' && LowerChar('M') == 'm';
      assert LowerChar('I') == 'i' && LowerChar('N') == 'n';
    }
  }

  class AuthStore {
    var token: Option<string>
    var user: Option<User>
    /** The `auth-storage` entry: written on every change, removed by `logout`. */
    var persisted: Option<Session>

    /** Creating the store rehydrates it from the stored entry, if there is one; otherwise
        token and user start as `null`. */
    constructor (stored: Option<Session>)
      ensures stored.None? ==> token.None? && user.None?
      ensures stored.Some? ==> token == stored.value.token && user == stored.value.user
      ensures persisted == stored
    {
      token := if stored.Some? then stored.value.token else None;
      user := if stored.Some? then stored.value.user else None;
      persisted := stored;
    }

    /** `isAdmin()`: a pure read of the store. */
    function IsAdmin(): (r: bool)
      reads this
      ensures r <==> IsAdminUser(user)
    {
      IsAdminUser(user)
    }

    /** `isAuthenticated()`: `!!token`, a pure read of the store. */
    function IsAuthenticated(): (r: bool)
      reads this
      ensures r <==> token.Some? && token.value != ""
    {
      Truthy(token)
    }

    /** `login(token, userData)`: both fields take the arguments, whatever the state was. */
    method Login(t: Option<string>, u: Option<User>)
      modifies this
      ensures token == t && user == u
      ensures persisted == Some(Session(t, u))
    {
      token, user := t, u;
      persisted := Some(Session(token, user));
    }

    /** `logout()`: both fields become `null` and the stored entry is removed, so the
        session is gone now and after a reload. */
    method Logout()
      modifies this
      ensures token.None? && user.None? && persisted.None?
      ensures !IsAuthenticated() && !IsAdmin()
    {
      token, user := None, None;
      persisted := Some(Session(token, user));
      persisted := None;
    }
  }

  /** A reload after `logout` starts an anonymous session. */
  method ReloadAfterLogout(store: AuthStore) returns (reloaded: AuthStore)
    modifies store
    ensures fresh(reloaded)
    ensures !reloaded.IsAuthenticated() && !reloaded.IsAdmin()
  {
    store.Logout();
    reloaded := new AuthStore(store.persisted);
  }
}
