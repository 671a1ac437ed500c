/** The four route guards, each a total decision over what the session
    exposes. */
module Routes {
  import opened Common

  /** What a guard renders. */
  datatype View = LoadingView | Nothing | Redirect(path: string) | Outlet

  /** `PrivateRoute`: wait while loading, send anonymous visitors to the
      login page, otherwise render the nested route. */
  function PrivateRoute(loading: bool, user: Option<User>): (v: View)
    ensures v == LoadingView <==> loading
    ensures v == Redirect("/login") <==> !loading && user.None?
    ensures v == Outlet <==> !loading && user.Some?
  {
    if loading then LoadingView
    else if user.None? then Redirect("/login")
    else Outlet
  }

  /** `GuestRoute`: render nothing while loading, send signed-in users home,
      otherwise render the nested route. */
  function GuestRoute(loading: bool, user: Option<User>): (v: View)
    ensures v == Nothing <==> loading
    ensures v == Redirect("/") <==> !loading && user.Some?
    ensures v == Outlet <==> !loading && user.None?
  {
    if loading then Nothing
    else if user.Some? then Redirect("/")
    else Outlet
  }

  /** `AdminRoute`: only an ADMIN gets the nested route; everyone else,
      nobody included, is sent home. It does not look at `loading`. */
  function AdminRoute(user: Option<User>): (v: View)
    ensures v == Outlet <==> user.Some? && user.value.userType == Admin
    ensures v != Outlet ==> v == Redirect("/")
  {
    if user.Some? && user.value.userType == Admin then Outlet else Redirect("/")
  }

  /** `ClientOnlyRoute`: an ADMIN is sent to the admin panel; a CLIENT, and
      nobody, get the nested route. */
  function ClientOnlyRoute(user: Option<User>): (v: View)
    ensures v == Redirect("/admin/pedidos") <==> user.Some? && user.value.userType == Admin
    ensures v != Outlet ==> v == Redirect("/admin/pedidos")
  {
    if user.Some? && user.value.userType == Admin then Redirect("/admin/pedidos") else Outlet
  }

  /** Once loading is over, the guest guard renders its route exactly when
      the private guard redirects to the login page, and vice versa. */
  lemma GuestComplementsPrivate(user: Option<User>)
    ensures GuestRoute(false, user) == Outlet <==> PrivateRoute(false, user) == Redirect("/login")
    ensures PrivateRoute(false, user) == Outlet <==> GuestRoute(false, user) == Redirect("/")
  {
  }

  /** For every user value exactly one of the admin and client-only guards
      renders its route. */
  lemma AdminComplementsClientOnly(user: Option<User>)
    ensures (AdminRoute(user) == Outlet) != (ClientOnlyRoute(user) == Outlet)
  {
  }
}
