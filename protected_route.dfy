/** The route gate: no token sends the visitor to `/login`, an admin-only page sends a
    non-admin to `/dashboard`, and everyone else sees the page. */
module ProtectedRoute {
  import opened JsCore
  import AuthStore

  datatype Outcome = RedirectToLogin | RedirectToDashboard | RenderChildren

  /** `ProtectedRoute({ children, adminOnly = false })` */
  function Guard(token: Option<string>, isAdmin: bool, adminOnly: bool := false): (r: Outcome)
    ensures !Truthy(token) ==> r == RedirectToLogin
    ensures Truthy(token) && adminOnly && !isAdmin ==> r == RedirectToDashboard
    ensures r == RenderChildren <==> Truthy(token) && (!adminOnly || isAdmin)
  {
    if !Truthy(token) then RedirectToLogin
    else if adminOnly && !isAdmin then RedirectToDashboard
    else RenderChildren
  }

  /** Without the flag, every token holder reaches the page, admin or not. */
  lemma DefaultAdmitsEveryTokenHolder(token: Option<string>, isAdmin: bool)
    requires Truthy(token)
    ensures Guard(token, isAdmin) == RenderChildren
  {
  }

  /** The gate as the store drives it. */
  function GuardFor(store: AuthStore.AuthStore, adminOnly: bool): (r: Outcome)
    reads store
    ensures r == RenderChildren <==> store.IsAuthenticated() && (!adminOnly || store.IsAdmin())
  {
    Guard(store.token, store.IsAdmin(), adminOnly)
  }

  /** After `logout` every protected page redirects to the login page. */
  method GuardAfterLogout(store: AuthStore.AuthStore, adminOnly: bool) returns (r: Outcome)
    modifies store
    ensures r == RedirectToLogin
  {
    store.Logout();
    r := GuardFor(store, adminOnly);
  }
}
