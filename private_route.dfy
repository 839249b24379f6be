/** The client route guard: over the auth store's loading and
    authenticated flags and the user's role, it shows a spinner, redirects
    to the login page, denies access, or renders the protected page. */
module PrivateRoute {
  import opened Types
  import AuthStore

  datatype Decision = Spinner | RedirectLogin | Denied | Render

  /** What the guard reads from the auth store. */
  datatype View = View(isLoading: bool, isAuthenticated: bool, role: Option<string>)

  function ViewOf(s: AuthStore.Store): View
    reads s
  {
    View(s.isLoading, s.isAuthenticated, AuthStore.RoleOf(s.user))
  }

  /** `PrivateRoute`: loading first, then authentication, then the single
      required role when it is a non-empty string, then membership in the
      required roles when that list is non-empty. */
  function Access(v: View, requiredRole: Option<string>, requiredRoles: seq<string>): (d: Decision)
    ensures v.isLoading <==> d == Spinner
    ensures d == RedirectLogin <==> !v.isLoading && !v.isAuthenticated
    ensures d == Render <==>
              && !v.isLoading && v.isAuthenticated
              && (requiredRole.Some? && requiredRole.value != "" ==> v.role == requiredRole)
              && (|requiredRoles| > 0 ==> v.role.Some? && v.role.value in requiredRoles)
  {
    if v.isLoading then Spinner
    else if !v.isAuthenticated then RedirectLogin
    else if requiredRole.Some? && requiredRole.value != "" && v.role != requiredRole then Denied
    else if |requiredRoles| > 0 && !(v.role.Some? && v.role.value in requiredRoles) then Denied
    else Render
  }

  function AdminRoute(v: View): Decision {
    Access(v, Some("admin"), [])
  }

  function SellerRoute(v: View): Decision {
    Access(v, None, ["seller", "admin"])
  }

  function CustomerRoute(v: View): Decision {
    Access(v, None, ["customer", "seller", "admin"])
  }

  /** A plain guard renders exactly for a signed-in, settled view. */
  lemma PlainGuard(v: View)
    ensures Access(v, None, []) == Render <==> !v.isLoading && v.isAuthenticated
    ensures Access(v, Some(""), []) == Access(v, None, [])
  {
  }

  /** The three role routes render exactly where the store's role
      predicates hold, and nest: admin pages open to no one a seller page
      refuses, seller pages to no one a customer page refuses. */
  lemma RoleRoutesMatchStore(v: View)
    requires !v.isLoading && v.isAuthenticated
    ensures AdminRoute(v) == Render <==> AuthStore.AdminRole(v.role)
    ensures SellerRoute(v) == Render <==> AuthStore.SellerRole(v.role)
    ensures CustomerRoute(v) == Render <==> AuthStore.CustomerRole(v.role)
    ensures AdminRoute(v) == Render ==> SellerRoute(v) == Render
    ensures SellerRoute(v) == Render ==> CustomerRoute(v) == Render
  {
    assert ["seller", "admin"][1] == "admin";
    assert ["customer", "seller", "admin"][1] == "seller";
    assert ["customer", "seller", "admin"][2] == "admin";
  }

  /** Over the store: a guard that renders implies a signed-in user, and
      a role route that renders implies the store's role predicate. */
  lemma StoreGuard(s: AuthStore.Store)
    requires s.Valid()
    ensures Access(ViewOf(s), None, []) == Render ==> s.user.Some? && s.token.Some?
    ensures SellerRoute(ViewOf(s)) == Render ==> s.IsSeller()
    ensures CustomerRoute(ViewOf(s)) == Render ==> s.IsCustomer()
  {
    if !s.isLoading && s.isAuthenticated {
      RoleRoutesMatchStore(ViewOf(s));
    }
  }
}
