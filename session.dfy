/** The application shell: the signed-in user and the two `currentUser`
    storage slots (persistent local storage and per-tab session storage),
    the login, sign-up and logout handlers, and the guard on protected routes. */
module Session {
  import opened Records

  /** The user the app starts with: the local slot, then the session slot, else none. */
  function InitialUser(local: Option<User>, session: Option<User>): (u: Option<User>)
    ensures local.Some? ==> u == local
    ensures local.None? ==> u == session
  {
    if local.Some? then local else session
  }

  class SessionStore {
    var user: Option<User>
    var local: Option<User>
    var session: Option<User>

    /** At most one slot holds a user, and starting the app again from the
        slots would give back the current user. */
    ghost predicate Consistent()
      reads this
    {
      !(local.Some? && session.Some?) && InitialUser(local, session) == user
    }

    /** Starting the app with whatever the two slots hold. */
    constructor (storedLocal: Option<User>, storedSession: Option<User>)
      ensures local == storedLocal && session == storedSession
      ensures user == InitialUser(storedLocal, storedSession)
    {
      local := storedLocal;
      session := storedSession;
      user := InitialUser(storedLocal, storedSession);
    }

    /** `handleLogin(loggedInUser, rememberMe)`. */
    method HandleLogin(loggedInUser: Option<User>, rememberMe: bool)
      modifies this
      ensures user == loggedInUser
      ensures loggedInUser.Some? && rememberMe ==> local == loggedInUser && session.None?
      ensures loggedInUser.Some? && !rememberMe ==> session == loggedInUser && local.None?
      ensures loggedInUser.None? ==> local.None? && session.None?
      ensures Consistent()
    {
      user := loggedInUser;
      if loggedInUser.Some? {
        if rememberMe {
          local := loggedInUser;
          session := None;
        } else {
          session := loggedInUser;
          local := None;
        }
      } else {
        local := None;
        session := None;
      }
    }

    /** `handleSignUp(loggedInUser)`: a new account always goes to the
        session slot; without a user the slots are left as they were. */
    method HandleSignUp(loggedInUser: Option<User>)
      modifies this
      ensures user == loggedInUser
      ensures loggedInUser.Some? ==> session == loggedInUser && local.None? && Consistent()
      ensures loggedInUser.None? ==> local == old(local) && session == old(session)
    {
      user := loggedInUser;
      if loggedInUser.Some? {
        session := loggedInUser;
        local := None;
      }
    }

    /** `handleLogout`. */
    method HandleLogout()
      modifies this
      ensures user.None? && local.None? && session.None?
      ensures Consistent()
    {
      user := None;
      local := None;
      session := None;
    }
  }

  /** What a protected route renders. */
  datatype Rendered<T> = RedirectTo(path: string) | Children(children: T)

  /** `ProtectedRoute`: the login page exactly when nobody is signed in. */
  function ProtectedRoute<T>(user: Option<User>, children: T): (r: Rendered<T>)
    ensures r.RedirectTo? <==> user.None?
    ensures r.RedirectTo? ==> r.path == "/login"
    ensures r.Children? ==> r.children == children
  {
    if user.None? then RedirectTo("/login") else Children(children)
  }
}
