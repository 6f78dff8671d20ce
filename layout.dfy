/**
 * The authenticated dashboard shell (dashboard/app/dashboard/layout.tsx): what it shows
 * for each session state, when it sends the visitor to `/login`, and which navigation
 * tab it highlights for the current path.
 */
module Layout {
  import opened Wrappers
  import opened Text
  import Session

  const LoginPath := "/login"

  /** What the layout renders: the loading screen, nothing, or the shell around the page. */
  datatype View = LoadingScreen | Blank | Shell(email: string)

  function Render(loading: bool, user: Option<Session.User>): (v: View)
    ensures loading <==> v == LoadingScreen
    ensures v == Blank <==> !loading && user.None?
    ensures v.Shell? ==> user.Some? && v.email == user.value.email
  {
    if loading then LoadingScreen
    else match user
      case None => Blank
      case Some(u) => Shell(u.email)
  }

  /**
   * The redirect effect fires exactly when resolution is over and nobody is signed in,
   * which is exactly when the layout renders nothing.
   */
  function ShouldRedirect(loading: bool, user: Option<Session.User>): (r: bool)
    ensures r <==> !loading && user.None?
    ensures r <==> Render(loading, user) == Blank
  {
    !loading && user.None?
  }

  /** The router's navigation history. */
  class Router {
    var pushed: seq<string>

    constructor ()
      ensures pushed == []
    {
      pushed := [];
    }
  }

  /** The effect: `router.push('/login')` when the session is definitely signed out. */
  method RedirectEffect(router: Router, loading: bool, user: Option<Session.User>)
    modifies router
    ensures router.pushed == old(router.pushed) + (if ShouldRedirect(loading, user) then [LoginPath] else [])
  {
    if !loading && user.None? {
      router.pushed := router.pushed + [LoginPath];
    }
  }

  /** A page load that is still resolving neither redirects nor shows the shell. */
  lemma NoRedirectWhileLoading(user: Option<Session.User>)
    ensures !ShouldRedirect(true, user) && Render(true, user) == LoadingScreen
  {
  }

  datatype Tab = DashboardTab | PrintersTab | BillingTab | SettingsTab

  function Href(t: Tab): string
  {
    match t
    case DashboardTab => "/dashboard"
    case PrintersTab => "/dashboard/printers"
    case BillingTab => "/dashboard/billing"
    case SettingsTab => "/dashboard/settings"
  }

  /** `isActive(path)`: the current path is exactly `path` (a missing path matches nothing). */
  function IsCurrentPath(pathname: Option<string>, path: string): (r: bool)
    ensures r <==> pathname == Some(path)
  {
    pathname.Some? && pathname.value == path
  }

  /**
   * Dashboard and Billing are highlighted on an exact match, Printers and Settings on any
   * path under their link (`pathname?.startsWith(...)`).
   */
  function TabActive(t: Tab, pathname: Option<string>): (r: bool)
    ensures (t == DashboardTab || t == BillingTab) ==> (r <==> pathname == Some(Href(t)))
    ensures (t == PrintersTab || t == SettingsTab) ==>
      (r <==> pathname.Some? && StartsWith(pathname.value, Href(t)))
  {
    match t
    case DashboardTab => IsCurrentPath(pathname, Href(t))
    case BillingTab => IsCurrentPath(pathname, Href(t))
    case PrintersTab => pathname.Some? && StartsWith(pathname.value, Href(t))
    case SettingsTab => pathname.Some? && StartsWith(pathname.value, Href(t))
  }

  /** No path highlights two tabs. */
  lemma AtMostOneTabActive(pathname: Option<string>, a: Tab, b: Tab)
    requires TabActive(a, pathname) && TabActive(b, pathname)
    ensures a == b
  {
  }

  /** A printer's detail page highlights Printers and not Dashboard. */
  lemma PrinterDetailHighlightsPrinters(rest: string)
    ensures TabActive(PrintersTab, Some("/dashboard/printers/" + rest))
    ensures !TabActive(DashboardTab, Some("/dashboard/printers/" + rest))
  {
    var p := "/dashboard/printers/" + rest;
    assert p[..|"/dashboard/printers"|] == "/dashboard/printers";
    assert |p| > |"/dashboard"|;
  }
}
