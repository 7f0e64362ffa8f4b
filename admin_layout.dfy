/** The frame of the admin area: it waits for the session to load, sends a
    signed-in admin away from the login page and everyone else to it, and
    only then shows the login page bare or the dashboard with its sidebar. */
module AdminLayout {
  import opened Wrappers

  const LoginPath := "/admin/login"
  const DashboardPath := "/admin"

  /** What the layout renders. */
  datatype View = Spinner | BarePage | Dashboard

  /** The render: the spinner while the session loads or the check has not
      passed, then the login page without the sidebar or the dashboard. */
  function ViewFor(loading: bool, isChecking: bool, pathname: string): (r: View)
    ensures r == Spinner <==> loading || isChecking
    ensures r == Dashboard <==> !loading && !isChecking && pathname != LoginPath
  {
    if loading || isChecking then Spinner
    else if pathname == LoginPath then BarePage
    else Dashboard
  }

  class AdminLayoutState {
    var isChecking: bool

    constructor ()
      ensures isChecking
    {
      isChecking := true;
    }

    /** The check effect: wait while the session loads, redirect a signed-in
        admin on the login page to the dashboard and anyone else off it to
        the login page, and otherwise end the check. */
    method Check(loading: bool, admin: bool, pathname: string) returns (redirect: Option<string>)
      modifies this
      ensures loading ==> redirect == None && isChecking == old(isChecking)
      ensures !loading && admin && pathname == LoginPath ==> redirect == Some(DashboardPath) && isChecking == old(isChecking)
      ensures !loading && !admin && pathname != LoginPath ==> redirect == Some(LoginPath) && isChecking == old(isChecking)
      ensures !loading && (admin <==> pathname != LoginPath) ==> redirect == None && !isChecking
    {
      if loading {
        return None;
      }
      if admin && pathname == LoginPath {
        return Some(DashboardPath);
      }
      if !admin && pathname != LoginPath {
        return Some(LoginPath);
      }
      redirect := None;
      isChecking := false;
    }
  }

  /** On a fresh layout, the first check shows the dashboard only to an
      admin, and the bare login page only to a visitor who is not one. */
  method FirstCheck(loading: bool, admin: bool, pathname: string) returns (view: View, redirect: Option<string>)
    ensures view == Dashboard ==> admin && pathname != LoginPath
    ensures view == BarePage ==> !admin && pathname == LoginPath
    ensures view == Spinner <==> loading || redirect.Some?
  {
    var layout := new AdminLayoutState();
    redirect := layout.Check(loading, admin, pathname);
    view := ViewFor(loading, layout.isChecking, pathname);
  }
}
