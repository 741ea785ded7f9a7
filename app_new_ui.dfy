/**
 * The newer app shell built around the admin table: it keeps the user-list response body
 * as it came, previews a user's dashboard, and shows the dashboard search with a term that
 * nothing ever changes.
 */
module AppWithNewUI {
  import opened Wrappers
  import opened Js
  import opened Models
  import opened Database
  import opened Storage
  import opened DashboardSearch
  import opened UserDashboard
  import opened AdminDashboard
  import opened AdminTable

  /** What the admin table receives when the whole body is stored as `users`. */
  function AsUsersProp(body: UsersBody): (r: UsersProp)
    ensures r.Array? <==> body.BareArray?
    ensures body.BareArray? ==> r.items == body.items
  {
    if body.BareArray? then Array(body.items) else NotArray
  }

  /** The backend answers `{users: [...]}`, so the table receives a non-array: it lists
      nobody, whatever the query and role, and keeps its previous stats. */
  lemma BackendBodyListsNobody(listed: seq<UserListing>, searchQuery: string, roleFilter: string)
    ensures FilteredUsers(AsUsersProp(UsersField(listed)), searchQuery, roleFilter) == []
  {
  }

  /** The search box of this shell is never wired up. */
  const SearchTerm := ""

  class NewUIShell {
    var isLoggedIn: bool
    var token: JsValue
    var username: string
    var password: string
    var error: string
    var dashboardData: Option<Dashboard>
    var isAdmin: JsValue
    var users: UsersProp
    var selectedUser: Option<string>

    constructor ()
      ensures !isLoggedIn && token == Null && username == "" && password == "" && error == ""
      ensures dashboardData == None && isAdmin == Bool(false) && users == Array([]) && selectedUser == None
    {
      isLoggedIn := false;
      token := Null;
      username := "";
      password := "";
      error := "";
      dashboardData := None;
      isAdmin := Bool(false);
      users := Array([]);
      selectedUser := None;
    }

    /** `fetchUsers`: an ok body is stored whole; a failure is only logged. */
    method FetchUsers(reply: Reply<UsersBody>)
      modifies this
      ensures reply.Ok? ==> users == AsUsersProp(reply.data)
      ensures !reply.Ok? ==> users == old(users)
      ensures dashboardData == old(dashboardData) && selectedUser == old(selectedUser) && error == old(error)
      ensures isLoggedIn == old(isLoggedIn) && token == old(token) && isAdmin == old(isAdmin)
      ensures username == old(username) && password == old(password)
    {
      if reply.Ok? {
        users := AsUsersProp(reply.data);
      }
    }

    /** `fetchDashboard`: success shows the data, selects the user and clears the error;
        failure clears the data, keeps the selection and reports "Error: <message>". */
    method FetchDashboard(user: string, reply: Reply<Dashboard>)
      modifies this
      ensures reply.Ok? ==> dashboardData == Some(reply.data) && selectedUser == Some(user) && error == ""
      ensures !reply.Ok? ==> dashboardData == None && selectedUser == old(selectedUser)
      ensures !reply.Ok? ==> error == "Error: " + LoadError(reply, FetchFailed)
      ensures users == old(users) && isLoggedIn == old(isLoggedIn) && token == old(token) && isAdmin == old(isAdmin)
      ensures username == old(username) && password == old(password)
    {
      if reply.Ok? {
        dashboardData := Some(reply.data);
        selectedUser := Some(user);
        error := "";
      } else {
        error := "Error: " + LoadError(reply, FetchFailed);
        dashboardData := None;
      }
    }

    /** `handleLogout`: the three storage keys go, and so do the typed username and password. */
    method HandleLogout(ls: LocalStorage)
      modifies this, ls
      ensures ls.items == old(ls.items) - {AuthTokenKey, IsAdminKey, UsernameKey}
      ensures !isLoggedIn && token == Null && username == "" && password == "" && dashboardData == None
      ensures isAdmin == Bool(false) && users == Array([]) && selectedUser == None && error == old(error)
    {
      ls.RemoveItem(AuthTokenKey);
      ls.RemoveItem(IsAdminKey);
      ls.RemoveItem(UsernameKey);
      isLoggedIn := false;
      token := Null;
      username := "";
      password := "";
      dashboardData := None;
      isAdmin := Bool(false);
      users := Array([]);
      selectedUser := None;
    }

    /** `handleDeleteUser`: nothing is requested unless confirmed; after a delete the list is
        reloaded and the preview closed iff it showed the deleted user. */
    method HandleDeleteUser(usernameToDelete: string, confirmed: bool, deleted: Reply<()>, reloaded: Reply<UsersBody>)
      returns (requested: bool, alert: Option<string>)
      modifies this
      ensures requested == confirmed
      ensures !confirmed ==> alert == None && users == old(users)
      ensures !confirmed ==> dashboardData == old(dashboardData) && selectedUser == old(selectedUser)
      ensures confirmed && deleted.Ok? ==> alert == None
      ensures confirmed && deleted.Ok? && reloaded.Ok? ==> users == AsUsersProp(reloaded.data)
      ensures confirmed && deleted.Ok? && old(selectedUser) == Some(usernameToDelete) ==> dashboardData == None && selectedUser == None
      ensures confirmed && deleted.Ok? && old(selectedUser) != Some(usernameToDelete) ==>
                dashboardData == old(dashboardData) && selectedUser == old(selectedUser)
      ensures confirmed && deleted.NotOk? ==> alert == Some("Error deleting user: Failed to delete user")
      ensures confirmed && deleted.Thrown? ==> alert == Some("Error deleting user: " + deleted.message)
      ensures confirmed && !deleted.Ok? ==> users == old(users) && dashboardData == old(dashboardData) && selectedUser == old(selectedUser)
      ensures confirmed && deleted.Ok? && !reloaded.Ok? ==> users == old(users)
      ensures error == old(error) && isLoggedIn == old(isLoggedIn) && token == old(token) && isAdmin == old(isAdmin)
      ensures username == old(username) && password == old(password)
    {
      if !confirmed {
        return false, None;
      }
      requested, alert := true, None;
      match deleted {
        case Ok(_) =>
          var wasSelected := selectedUser;
          FetchUsers(reloaded);
          if wasSelected == Some(usernameToDelete) {
            dashboardData := None;
            selectedUser := None;
          }
        case NotOk(_, _) =>
          alert := Some("Error deleting user: Failed to delete user");
        case Thrown(m) =>
          alert := Some("Error deleting user: " + m);
      }
    }
  }

  /** The `Dashboard` component: the matching groups, or the no-results view when none. */
  datatype DashboardView = NoResults | Groups(groups: seq<ProductGroup>)

  function DashboardComponent(data: Dashboard, searchTerm: string): (v: DashboardView)
    ensures v == NoResults <==> forall g :: g in data.groups ==> !GroupMatches(g, searchTerm)
    ensures v.Groups? ==> forall g :: g in v.groups <==> g in data.groups && GroupMatches(g, searchTerm)
  {
    var kept := FilterGroups(data.groups, searchTerm);
    if kept == [] then NoResults
    else
      assert kept[0] in kept;
      Groups(kept)
  }

  /** With the term this shell uses, every group is shown, and the no-results view appears
      only for a dashboard without groups. */
  lemma ShellShowsEverything(data: Dashboard)
    ensures DashboardComponent(data, SearchTerm) == (if data.groups == [] then NoResults else Groups(data.groups))
  {
    EmptyTermKeepsAll(data.groups);
  }
}
