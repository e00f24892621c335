/** The gate around every admin page (src/app/admin/layout.tsx): what it renders, and whether
    its effect sends the browser to the login page, for each state of the session. */
module AdminGate {
  import opened Common
  import opened Auth

  datatype View = Spinner | Denied | Children | Nothing

  const AdminRole: string := "admin"

  /** The effect: once loading is over, no user means a push to '/login'. */
  function Redirect(isLoading: bool, user: Option<User>): (r: Option<string>)
    ensures r.Some? <==> !isLoading && user.None?
    ensures r.Some? ==> r.value == "/login"
  {
    if isLoading then None
    else if user.None? then Some("/login")
    else None
  }

  /** The render, in the order the component tests. */
  function Render(isLoading: bool, user: Option<User>): View {
    if isLoading then Spinner
    else if user.Some? && user.value.role != AdminRole then Denied
    else if user.Some? && user.value.role == AdminRole then Children
    else Nothing
  }

  /** Each view, exactly when it is shown: the spinner while loading (and then no redirect),
      the denied screen for a non-admin, the admin pages only for an admin once loading is
      over, and nothing while the browser is sent to the login page. */
  lemma GateIsExact(isLoading: bool, user: Option<User>)
    ensures Render(isLoading, user) == Spinner <==> isLoading
    ensures Render(isLoading, user) == Spinner ==> Redirect(isLoading, user).None?
    ensures Render(isLoading, user) == Denied <==> !isLoading && user.Some? && user.value.role != AdminRole
    ensures Render(isLoading, user) == Children <==> !isLoading && user.Some? && user.value.role == AdminRole
    ensures Render(isLoading, user) == Nothing <==> Redirect(isLoading, user).Some?
  {
  }
}
