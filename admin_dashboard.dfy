/**
 * The admin page: the user list, a preview of one user's dashboard, user deletion and
 * cache clearing.  The list endpoint answers `{users: [...]}`; the page also accepts a
 * bare array and rejects any other shape.
 */
module AdminDashboard {
  import opened Wrappers
  import opened Js
  import opened Models
  import opened Database
  import opened DashboardSearch
  import opened UserDashboard

  /** The decoded body of the user-list response, by shape. */
  datatype UsersBody = UsersField(users: seq<UserListing>) | BareArray(items: seq<UserListing>) | OtherShape

  const InvalidFormat := "Invalid data format received from server"

  /** The list the page keeps for each shape, and the error it raises for an unknown one. */
  function NormalizeUsers(body: UsersBody): (r: (seq<UserListing>, Option<string>))
    ensures body.UsersField? ==> r == (body.users, None)
    ensures body.BareArray? ==> r == (body.items, None)
    ensures body.OtherShape? ==> r == ([], Some(InvalidFormat))
  {
    match body
    case UsersField(users) => (users, None)
    case BareArray(items) => (items, None)
    case OtherShape => ([], Some(InvalidFormat))
  }

  /** The users after `fetchUsers`. */
  function UsersAfterFetch(reply: Reply<UsersBody>): (r: seq<UserListing>)
    ensures !reply.Ok? ==> r == []
  {
    if reply.Ok? then NormalizeUsers(reply.data).0 else []
  }

  /** The error after `fetchUsers`: it is never cleared, only set. */
  function ErrorAfterFetch(reply: Reply<UsersBody>, error: string): (r: string)
    ensures reply.Ok? && !reply.data.OtherShape? ==> r == error
    ensures reply.Ok? && reply.data.OtherShape? ==> r == InvalidFormat
    ensures reply.NotOk? ==> r == "Failed to fetch users"
    ensures reply.Thrown? ==> r == reply.message
  {
    match reply
    case Ok(data) => NormalizeUsers(data).1.GetOr(error)
    case NotOk(_, _) => "Failed to fetch users"
    case Thrown(m) => m
  }

  /** The message of a failed preview load. */
  function PreviewError(username: string, reply: Reply<Dashboard>): string
    requires !reply.Ok?
  {
    "Error loading " + username + "'s dashboard: " + LoadError(reply, FetchFailed)
  }

  class AdminDashboardPage {
    const token: JsValue
    var users: seq<UserListing>
    var dashboardData: Option<Dashboard>
    var selectedUser: Option<string>
    var searchTerm: string
    var loading: bool
    var error: string

    constructor (token: JsValue)
      ensures this.token == token
      ensures users == [] && dashboardData == None && selectedUser == None && searchTerm == "" && loading && error == ""
    {
      this.token := token;
      users := [];
      dashboardData := None;
      selectedUser := None;
      searchTerm := "";
      loading := true;
      error := "";
    }

    /** `fetchUsers`. */
    method FetchUsers(reply: Reply<UsersBody>)
      modifies this
      ensures users == UsersAfterFetch(reply) && error == ErrorAfterFetch(reply, old(error))
      ensures !loading
      ensures dashboardData == old(dashboardData) && selectedUser == old(selectedUser) && searchTerm == old(searchTerm)
    {
      loading := true;
      match reply {
        case Ok(data) =>
          var (list, invalid) := NormalizeUsers(data);
          users := list;
          if invalid.Some? {
            error := invalid.value;
          }
        case NotOk(_, _) =>
          error := "Failed to fetch users";
          users := [];
        case Thrown(m) =>
          error := m;
          users := [];
      }
      loading := false;
    }

    /** `fetchDashboard`: success sets the data and the selection together; failure clears
        the data and keeps the selection. */
    method FetchDashboard(username: string, reply: Reply<Dashboard>)
      modifies this
      ensures reply.Ok? ==> dashboardData == Some(reply.data) && selectedUser == Some(username) && error == ""
      ensures !reply.Ok? ==> dashboardData == None && selectedUser == old(selectedUser)
      ensures !reply.Ok? ==> error == PreviewError(username, reply)
      ensures users == old(users) && loading == old(loading) && searchTerm == old(searchTerm)
    {
      error := "";
      if reply.Ok? {
        dashboardData := Some(reply.data);
        selectedUser := Some(username);
      } else {
        error := PreviewError(username, reply);
        dashboardData := None;
      }
    }

    /** `handleDeleteUser`: nothing is requested unless confirmed; after a successful delete
        the list is reloaded and the preview closed iff it showed the deleted user; a failed
        delete only raises an alert. */
    method HandleDeleteUser(usernameToDelete: string, confirmed: bool, deleted: Reply<()>, reloaded: Reply<UsersBody>)
      returns (requested: bool, alert: Option<string>)
      modifies this
      ensures requested == confirmed
      ensures !confirmed ==> alert == None && users == old(users) && error == old(error)
      ensures !confirmed ==> dashboardData == old(dashboardData) && selectedUser == old(selectedUser)
      ensures confirmed && deleted.Ok? ==> alert == None && users == UsersAfterFetch(reloaded)
      ensures confirmed && deleted.Ok? && old(selectedUser) == Some(usernameToDelete) ==> dashboardData == None && selectedUser == None
      ensures confirmed && deleted.Ok? && old(selectedUser) != Some(usernameToDelete) ==>
                dashboardData == old(dashboardData) && selectedUser == old(selectedUser)
      ensures confirmed && deleted.NotOk? ==> alert == Some("Error deleting user: Failed to delete user")
      ensures confirmed && deleted.Thrown? ==> alert == Some("Error deleting user: " + deleted.message)
      ensures confirmed && !deleted.Ok? ==> users == old(users) && dashboardData == old(dashboardData) && selectedUser == old(selectedUser)
      ensures confirmed && deleted.Ok? ==> error == ErrorAfterFetch(reloaded, old(error)) && !loading
      ensures !(confirmed && deleted.Ok?) ==> error == old(error) && loading == old(loading)
      ensures searchTerm == old(searchTerm)
    {
      if !confirmed {
        return false, None;
      }
      requested := true;
      alert := None;
      match deleted {
        case Ok(_) =>
          var wasSelected := selectedUser;
          FetchUsers(reloaded);
          if wasSelected == Some(usernameToDelete) {
            dashboardData := None;
            selectedUser := None;
          }
        case NotOk(_, _) =>
          alert := Some("Error deleting user: Failed to delete user");
        case Thrown(m) =>
          alert := Some("Error deleting user: " + m);
      }
    }

    /** The close button of the preview. */
    method ClosePreview()
      modifies this
      ensures dashboardData == None && selectedUser == None
      ensures users == old(users) && error == old(error) && loading == old(loading) && searchTerm == old(searchTerm)
    {
      dashboardData := None;
      selectedUser := None;
    }

    /** `handleClearCache`: the preview is reloaded when a truthy (non-empty) username is
        selected, unless the clearing call itself threw. */
    method HandleClearCache(clear: Reply<()>, reply: Reply<Dashboard>) returns (reloaded: bool)
      modifies this
      ensures reloaded <==> !clear.Thrown? && old(selectedUser).Some? && old(selectedUser).value != ""
      ensures reloaded && reply.Ok? ==> dashboardData == Some(reply.data) && selectedUser == old(selectedUser) && error == ""
      ensures reloaded && !reply.Ok? ==> dashboardData == None && error == PreviewError(old(selectedUser).value, reply)
      ensures reloaded && !reply.Ok? ==> selectedUser == old(selectedUser)
      ensures !reloaded ==> dashboardData == old(dashboardData) && error == old(error) && selectedUser == old(selectedUser)
      ensures users == old(users) && searchTerm == old(searchTerm) && loading == old(loading)
    {
      reloaded := false;
      if !clear.Thrown? && selectedUser.Some? && selectedUser.value != "" {
        FetchDashboard(selectedUser.value, reply);
        reloaded := true;
      }
    }

    /** The preview's groups for the current search. */
    function PreviewGroups(): (r: seq<ProductGroup>)
      reads this
      requires dashboardData.Some?
      ensures forall g :: g in r <==> g in dashboardData.value.groups && GroupMatches(g, searchTerm)
      ensures searchTerm == "" ==> r == dashboardData.value.groups
    {
      EmptyTermKeepsAll(dashboardData.value.groups);
      FilterGroups(dashboardData.value.groups, searchTerm)
    }

    /** The preview shows its empty view exactly when no group matches. */
    predicate PreviewEmpty()
      reads this
      requires dashboardData.Some?
    {
      PreviewGroups() == []
    }
  }

  /** The empty view appears iff no group of the previewed dashboard matches. */
  lemma PreviewEmptyIff(page: AdminDashboardPage)
    requires page.dashboardData.Some?
    ensures page.PreviewEmpty() <==> forall g :: g in page.dashboardData.value.groups ==> !GroupMatches(g, page.searchTerm)
  {
    var r := page.PreviewGroups();
    if !page.PreviewEmpty() {
      assert r[0] in r;
    }
  }
}
