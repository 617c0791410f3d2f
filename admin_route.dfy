/**
  The guard around the admin pages (client/src/components/AdminRoute.tsx): what it
  shows for the authentication state it reads.
 */
module AdminRoute {
  import opened Wrappers
  import opened Accounts

  datatype Screen = Spinner | RedirectTo(path: string) | RenderChildren

  /**
    While the session loads, a spinner; then no user goes to "/login", a non-admin to
    "/", and only an admin sees the protected page.
   */
  function Guard(loading: bool, user: Option<Role>): (r: Screen)
    ensures loading ==> r == Spinner
    ensures !loading && user.None? ==> r == RedirectTo("/login")
    ensures !loading && user == Some(Customer) ==> r == RedirectTo("/")
    ensures r == RenderChildren <==> !loading && user == Some(Admin)
  {
    if loading then Spinner
    else if user.None? then RedirectTo("/login")
    else if user.value != Admin then RedirectTo("/")
    else RenderChildren
  }

  /** The protected page is never shown to a visitor who is not an admin, whatever the loading state. */
  lemma NonAdminNeverRendered(loading: bool, user: Option<Role>)
    requires user != Some(Admin)
    ensures Guard(loading, user) != RenderChildren
    ensures !loading ==> Guard(loading, user).RedirectTo?
  {
  }
}
