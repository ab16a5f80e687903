/**
 * The page title in the header bar (`SiteHeader`): looked up by the exact
 * path, with "Dashboard" for every path without an entry.
 */
module SiteHeader {
  import opened Text
  import AppSidebar

  /** `pageTitles`. */
  const PageTitles: map<string, string> := map[
    "/streams" := "Live Streams",
    "/broadcasters" := "Broadcasters",
    "/stream-keys" := "Stream Keys",
    "/settings" := "Settings",
    "/help" := "Help"
  ]

  /** `pageTitles[pathname] || "Dashboard"`. */
  function PageTitle(pathname: string): (r: string)
    ensures r != ""
    ensures pathname in PageTitles ==> r == PageTitles[pathname]
    ensures pathname !in PageTitles ==> r == "Dashboard"
  {
    if pathname in PageTitles && PageTitles[pathname] != "" then PageTitles[pathname] else "Dashboard"
  }

  /** Every listed path has its title, and no listed title is "Dashboard". */
  lemma ListedPathsHaveTheirTitles(pathname: string)
    requires pathname in PageTitles
    ensures PageTitle(pathname) == PageTitles[pathname] && PageTitle(pathname) != "Dashboard"
  {
  }

  /** The lookup is exact: a path below a listed page is titled "Dashboard". */
  lemma SubPathsAreTitledDashboard(page: string, rest: string)
    requires page in PageTitles
    ensures PageTitle(page + "/" + rest) == "Dashboard"
  {
    var p := page + "/" + rest;
    assert p[|page|] == '/';
    assert forall k :: k in PageTitles ==> forall i :: 1 <= i < |k| ==> k[i] != '/';
  }

  /**
   * As written, the audit-log page, which the sidebar lists as
   * "Audit Log", has no entry and is titled "Dashboard", while the other
   * three sidebar pages are titled as in the sidebar.
   */
  lemma AuditLogPageTitledDashboard()
    ensures AppSidebar.NavMain[3].url == "/audit-logs" && AppSidebar.NavMain[3].title == "Audit Log"
    ensures PageTitle("/audit-logs") == "Dashboard"
    ensures forall i :: 0 <= i < 3 ==> PageTitle(AppSidebar.NavMain[i].url) == AppSidebar.NavMain[i].title
  {
  }

  /** The titles with the audit-log page added under its sidebar name. */
  const IntendedPageTitles: map<string, string> := PageTitles["/audit-logs" := "Audit Log"]

  function IntendedPageTitle(pathname: string): (r: string)
    ensures r != ""
    ensures pathname in IntendedPageTitles ==> r == IntendedPageTitles[pathname]
    ensures pathname !in IntendedPageTitles ==> r == "Dashboard"
    ensures pathname != "/audit-logs" ==> r == PageTitle(pathname)
  {
    if pathname in IntendedPageTitles then IntendedPageTitles[pathname] else "Dashboard"
  }

  /** With the entry added, the header names every sidebar page as the sidebar does. */
  lemma HeaderNamesEverySidebarPage(i: int)
    requires 0 <= i < |AppSidebar.NavMain|
    ensures IntendedPageTitle(AppSidebar.NavMain[i].url) == AppSidebar.NavMain[i].title
  {
  }
}
