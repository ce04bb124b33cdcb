/** The route guard in front of every page but the login page. */
module ProtectedRoute {
  import opened Values
  import opened AuthContext

  datatype RouteView = Navigate(to: string, replace: bool) | Children

  /** `!currentUser || !isAdmin()` redirects to the login page, replacing
      the history entry; anything else renders the children. */
  function Guard(a: AuthState): (v: RouteView)
    ensures v == Children <==> IsAdmin(a)
    ensures v != Children ==> v == Navigate("/login", true)
    ensures a.currentUser.None? ==> v == Navigate("/login", true)
  {
    if a.currentUser.None? || !IsAdmin(a) then Navigate("/login", true) else Children
  }

  /** A signed-in user who is not an administrator is redirected too. */
  lemma NonAdminRedirected(a: AuthState)
    requires a.currentUser.Some? && a.currentUser.value.role != "admin"
    ensures Guard(a) == Navigate("/login", true)
  {
  }

  /** Whoever `login` signs in is admitted, now and after a reload. */
  lemma LoggedInUserAdmitted(a: AuthState, username: string, password: string, writable: bool, other: Parsed)
    requires LoginAuth(a, username, password, writable).0 != Rejected
    ensures Guard(LoginAuth(a, username, password, writable).1) == Children
    ensures writable ==> Guard(MountAuth(InitialAuth(LoginAuth(a, username, password, writable).1.storage), other)) == Children
  {
    if writable {
      LoginSurvivesRemount(a, username, password, other);
    }
  }

  /** A stored object with role "admin" that login did not write is admitted
      after a reload all the same. */
  lemma ForeignAdminAdmitted(storage: map<string, string>, username: string)
    requires StoredText(storage).Some? && StoredUser(storage).None?
    ensures Guard(MountAuth(InitialAuth(storage), ParsedValue(Some(User(username, "admin"))))) == Children
  {
    ForeignAdminRestored(storage, username);
  }

  /** After logout every protected page redirects to the login page. */
  lemma LoggedOutRedirected(a: AuthState)
    ensures Guard(LogoutAuth(a)) == Navigate("/login", true)
  {
  }
}
