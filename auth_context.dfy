/** The authentication context (src/app/context/AuthContext.tsx): the signed-in
    user and token, their copy in the browser's local storage, restoring a
    session on load with the "session still active" redirect, `login`,
    `logout` and `useAuth`. */
module AuthContext {
  import opened Wrappers

  /** The `User` the context keeps. */
  datatype SessionUser = SessionUser(id: string, accountId: string, username: string, role: Option<string>)

  /** A local-storage entry: the user `login` serialised with
      `JSON.stringify` (modelled by the record, which `JSON.parse` gives
      back) or a plain string such as the token. */
  datatype Stored = UserJson(user: SessionUser) | Text(text: string)

  /** The browser's local storage, shared by every page load. */
  type Storage = map<string, Stored>

  const UserKey := "user"
  const TokenKey := "token"

  /** What `login` writes: both keys, leaving every other key alone. */
  function StoreSession(st: Storage, user: SessionUser, token: string): (r: Storage)
    ensures UserKey in r && r[UserKey] == UserJson(user) && TokenKey in r && r[TokenKey] == Text(token)
    ensures forall key :: key in st && key != UserKey && key != TokenKey ==> key in r && r[key] == st[key]
    ensures r.Keys == st.Keys + {UserKey, TokenKey}
  {
    st[UserKey := UserJson(user)][TokenKey := Text(token)]
  }

  /** What `logout` leaves: both keys removed, every other key alone. */
  function ClearSession(st: Storage): (r: Storage)
    ensures UserKey !in r && TokenKey !in r
    ensures forall key :: key in st && key != UserKey && key != TokenKey ==> key in r && r[key] == st[key]
    ensures r.Keys == st.Keys - {UserKey, TokenKey}
  {
    st - {UserKey, TokenKey}
  }

  /** `logout` after `login` leaves the storage as `logout` alone would, and
      as it was before `login` when it held neither key. */
  lemma LogoutUndoesLogin(st: Storage, user: SessionUser, token: string)
    ensures ClearSession(StoreSession(st, user, token)) == ClearSession(st)
    ensures UserKey !in st && TokenKey !in st ==> ClearSession(StoreSession(st, user, token)) == st
  {
    var a := ClearSession(StoreSession(st, user, token));
    assert a.Keys == ClearSession(st).Keys;
    if UserKey !in st && TokenKey !in st {
      assert ClearSession(st).Keys == st.Keys;
    }
  }

  /** The session `checkAuth` restores: only when the user key holds a
      serialised user and the token key a non-empty (truthy) string. */
  function Restored(st: Storage): (r: Option<(SessionUser, string)>)
    ensures r.Some? <==> UserKey in st && st[UserKey].UserJson? && TokenKey in st && st[TokenKey].Text? && st[TokenKey].text != ""
    ensures r.Some? ==> r.value == (st[UserKey].user, st[TokenKey].text)
  {
    if UserKey in st && st[UserKey].UserJson? && TokenKey in st && st[TokenKey].Text? && st[TokenKey].text != ""
    then Some((st[UserKey].user, st[TokenKey].text))
    else None
  }

  /** A reload after `login` with a non-empty token restores that very user
      and token. */
  lemma LoginThenRestore(st: Storage, user: SessionUser, token: string)
    requires token != ""
    ensures Restored(StoreSession(st, user, token)) == Some((user, token))
  {
  }

  /** A reload after `logout` restores nothing. */
  lemma LogoutThenRestore(st: Storage)
    ensures Restored(ClearSession(st)) == None
  {
  }

  /** Where a restored session is sent: `/admin` for the role "Admin",
      `/dashboard` for any other role or none. */
  function RedirectFor(role: Option<string>): (path: string)
    ensures path == "/admin" <==> role == Some("Admin")
    ensures path == "/admin" || path == "/dashboard"
  {
    if role == Some("Admin") then "/admin" else "/dashboard"
  }

  /** Only the landing and login pages redirect a restored session. */
  predicate RedirectsFrom(pathname: string)
    ensures RedirectsFrom(pathname) ==> pathname != RedirectFor(Some("Admin")) && pathname != RedirectFor(None)
  {
    pathname == "/" || pathname == "/login"
  }

  /** `useAuth`: the context value, or the error it throws outside a provider. */
  function UseAuth<C>(provided: Option<C>): (r: Outcome<C>)
    ensures provided.Some? ==> r == Ok(provided.value)
    ensures provided.None? ==> r == Fail("useAuth must be used within an AuthProvider")
  {
    if provided.Some? then Ok(provided.value) else Fail("useAuth must be used within an AuthProvider")
  }

  /** The provider's state, with the local storage it shares with later loads
      and the routes it has replaced. */
  class Session {
    var userCred: Option<SessionUser>
    var token: Option<string>
    var isAuthenticated: bool
    var sessionActive: bool
    var storage: Storage
    /** The route the three-second timer will replace, once it is set. */
    var pendingRedirect: Option<string>
    var routes: seq<string>

    ghost predicate Valid()
      reads this
    {
      isAuthenticated <==> userCred.Some? && token.Some?
    }

    /** A freshly mounted provider over the storage a previous load left. */
    constructor (st: Storage)
      ensures Valid()
      ensures userCred == None && token == None && !isAuthenticated && !sessionActive
      ensures storage == st && pendingRedirect == None && routes == []
    {
      userCred, token, isAuthenticated, sessionActive := None, None, false, false;
      storage, pendingRedirect, routes := st, None, [];
    }

    /** `checkAuth`, run once on mount with the current `pathname`. */
    method CheckAuth(pathname: string)
      requires Valid()
      modifies this
      ensures Valid()
      ensures storage == old(storage) && routes == old(routes)
      ensures Restored(storage).None? ==>
        && userCred == old(userCred) && token == old(token) && isAuthenticated == old(isAuthenticated)
        && sessionActive == old(sessionActive) && pendingRedirect == old(pendingRedirect)
      ensures Restored(storage).Some? ==>
        var (user, tok) := Restored(storage).value;
        && userCred == Some(user) && token == Some(tok) && isAuthenticated
        && (RedirectsFrom(pathname) ==> sessionActive && pendingRedirect == Some(RedirectFor(user.role)))
        && (!RedirectsFrom(pathname) ==> sessionActive == old(sessionActive) && pendingRedirect == old(pendingRedirect))
    {
      var restored := Restored(storage);
      if restored.Some? {
        var (user, tok) := restored.value;
        userCred, token, isAuthenticated := Some(user), Some(tok), true;
        if RedirectsFrom(pathname) {
          sessionActive := true;
          pendingRedirect := Some(RedirectFor(user.role));
        }
      }
    }

    /** The three-second timeout: closes the "session is still active" dialog
        and replaces the route. */
    method RedirectTimerFires()
      modifies this`sessionActive, this`pendingRedirect, this`routes
      ensures pendingRedirect == None
      ensures old(pendingRedirect).Some? ==> !sessionActive && routes == old(routes) + [old(pendingRedirect).value]
      ensures old(pendingRedirect).None? ==> sessionActive == old(sessionActive) && routes == old(routes)
    {
      if pendingRedirect.Some? {
        sessionActive := false;
        routes := routes + [pendingRedirect.value];
        pendingRedirect := None;
      }
    }

    /** The alert dialog's `onOpenChange`. */
    method SetSessionActive(open: bool)
      modifies this`sessionActive
      ensures sessionActive == open
    {
      sessionActive := open;
    }

    method Login(user: SessionUser, tok: string)
      modifies this`userCred, this`token, this`isAuthenticated, this`storage
      ensures Valid()
      ensures userCred == Some(user) && token == Some(tok) && isAuthenticated
      ensures storage == StoreSession(old(storage), user, tok)
    {
      userCred, token, isAuthenticated := Some(user), Some(tok), true;
      storage := StoreSession(storage, user, tok);
    }

    method Logout()
      modifies this`userCred, this`token, this`isAuthenticated, this`storage
      ensures Valid()
      ensures userCred == None && token == None && !isAuthenticated
      ensures storage == ClearSession(old(storage))
    {
      userCred, token, isAuthenticated := None, None, false;
      storage := ClearSession(storage);
    }
  }
}
