/** The admin layout's redirect rule, run whenever the auth state changes. */
module AdminLayout {
  import opened Auth

  const DashboardPath := "/admin"

  /**
   * The redirects the layout's effect performs, in order: to the login page when
   * signed out elsewhere, to the dashboard when signed in on the login page,
   * none while the mount check is pending.
   */
  function Redirects(isLoading: bool, isAuthenticated: bool, pathname: string): (r: seq<string>)
    ensures |r| <= 1
    ensures isLoading ==> r == []
    ensures r == [LoginPath] <==> !isLoading && !isAuthenticated && pathname != LoginPath
    ensures r == [DashboardPath] <==> !isLoading && isAuthenticated && pathname == LoginPath
    ensures r == [] <==> isLoading || isAuthenticated == (pathname != LoginPath)
  {
    assert [LoginPath] != [DashboardPath] by { assert |LoginPath| != |DashboardPath|; }
    var isLoginPage := pathname == LoginPath;
    (if !isLoading && !isAuthenticated && !isLoginPage then [LoginPath] else [])
    + (if !isLoading && isAuthenticated && isLoginPage then [DashboardPath] else [])
  }
}
