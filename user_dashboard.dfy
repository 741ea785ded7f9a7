/**
 * The user's own dashboard page: it loads `/api/dashboard/<username>`, can clear the cache
 * and reload, and filters the groups by the search box.
 */
module UserDashboard {
  import opened Wrappers
  import opened Js
  import opened Models
  import opened DashboardSearch
  import DashboardRoutes

  const ApiBaseUrl := "http://localhost:8000"
  const FetchFailed := "Failed to fetch dashboard"

  type Dashboard = DashboardRoutes.DashboardResponse

  /** The error message a failed load shows: the response's `detail` when truthy, the
      fallback otherwise, or the message of what was thrown. */
  function LoadError<T>(reply: Reply<T>, fallback: string): (r: string)
    requires !reply.Ok?
    ensures reply.NotOk? && Truthy(reply.detail) ==> r == ToJsString(reply.detail)
    ensures reply.NotOk? && !Truthy(reply.detail) ==> r == fallback
    ensures reply.Thrown? ==> r == reply.message
  {
    if reply.NotOk? then DetailOr(reply.detail, fallback) else reply.message
  }

  class UserDashboardPage {
    const token: JsValue
    const currentUsername: JsValue
    var dashboardData: Option<Dashboard>
    var searchTerm: string
    var loading: bool
    var error: string

    constructor (token: JsValue, currentUsername: JsValue)
      ensures this.token == token && this.currentUsername == currentUsername
      ensures dashboardData == None && searchTerm == "" && loading && error == ""
    {
      this.token := token;
      this.currentUsername := currentUsername;
      dashboardData := None;
      searchTerm := "";
      loading := true;
      error := "";
    }

    /** `fetchDashboard`: an ok reply replaces the data and leaves no error; a failed one
        keeps the data and shows the error.  Loading ends either way.  Returns the url. */
    method FetchDashboard(reply: Reply<Dashboard>) returns (url: string)
      modifies this
      ensures url == ApiBaseUrl + "/api/dashboard/" + ToJsString(currentUsername)
      ensures reply.Ok? ==> dashboardData == Some(reply.data) && error == ""
      ensures !reply.Ok? ==> dashboardData == old(dashboardData) && error == LoadError(reply, FetchFailed)
      ensures !loading && searchTerm == old(searchTerm)
    {
      loading := true;
      error := "";
      url := ApiBaseUrl + "/api/dashboard/" + ToJsString(currentUsername);
      if reply.Ok? {
        dashboardData := Some(reply.data);
      } else {
        error := LoadError(reply, FetchFailed);
      }
      loading := false;
    }

    /** `handleRefresh`: the cache is cleared and the dashboard reloaded, whatever became of
        the clearing call. */
    method HandleRefresh(clear: Reply<()>, reply: Reply<Dashboard>) returns (clearUrl: string, url: string)
      modifies this
      ensures clearUrl == ApiBaseUrl + "/api/clear-cache"
      ensures url == ApiBaseUrl + "/api/dashboard/" + ToJsString(currentUsername)
      ensures reply.Ok? ==> dashboardData == Some(reply.data) && error == ""
      ensures !reply.Ok? ==> dashboardData == old(dashboardData) && error == LoadError(reply, FetchFailed)
      ensures !loading && searchTerm == old(searchTerm)
    {
      clearUrl := ApiBaseUrl + "/api/clear-cache";
      url := FetchDashboard(reply);
    }

    method SetSearchTerm(term: string)
      modifies this
      ensures searchTerm == term
      ensures dashboardData == old(dashboardData) && loading == old(loading) && error == old(error)
    {
      searchTerm := term;
    }

    /** `filteredGroups`: nothing without data; else the matching groups, all of them for
        an empty term. */
    function FilteredGroups(): (r: seq<ProductGroup>)
      reads this
      ensures dashboardData.None? ==> r == []
      ensures dashboardData.Some? ==> forall g :: g in r <==> g in dashboardData.value.groups && GroupMatches(g, searchTerm)
      ensures dashboardData.Some? && searchTerm == "" ==> r == dashboardData.value.groups
    {
      if dashboardData.None? then []
      else
        EmptyTermKeepsAll(dashboardData.value.groups);
        FilterGroups(dashboardData.value.groups, searchTerm)
    }

    /** The link count in the stats bar: the kept groups' links, at most all of them. */
    function ShownLinkTotal(): (n: nat)
      reads this
      ensures n == LinkTotal(FilteredGroups())
      ensures dashboardData.Some? ==> n <= LinkTotal(dashboardData.value.groups)
    {
      if dashboardData.Some? then FilteredLinkTotal(dashboardData.value.groups, searchTerm); LinkTotal(FilteredGroups())
      else LinkTotal(FilteredGroups())
    }
  }
}
