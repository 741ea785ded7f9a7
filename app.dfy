/**
 * The original single-file app shell: login, the admin's client list, a user's dashboard
 * with its link search, and the user-management actions.
 */
module App {
  import opened Wrappers
  import opened Text
  import opened Js
  import opened Models
  import opened Database
  import opened Storage
  import DashboardRoutes

  const ApiBaseUrl := "http://localhost:8000"

  type Dashboard = DashboardRoutes.DashboardResponse

  // ---------------------------------------------------------------------------------
  // The link search of `filterGroups`

  /** A link as the page receives it: the JSON object of a backend `LinkItem`. */
  function LinkJson(l: LinkItem): map<string, string> {
    map["text" := l.text, "url" := l.url]
  }

  /** The error a property access on `undefined` throws. */
  const TypeError := "TypeError: Cannot read properties of undefined (reading 'toLowerCase')"

  /** The test `filterGroups` applies to one link, as written: `link.name` first, then
      `link.url` unless the name already matched; reading a missing member throws. */
  function LinkHitAsWritten(link: map<string, string>, term: string): Result<bool, string>
  {
    if "name" !in link then Failure(TypeError)
    else if ContainsIgnoringCase(link["name"], term) then Success(true)
    else if "url" !in link then Failure(TypeError)
    else Success(ContainsIgnoringCase(link["url"], term))
  }

  /** `group.links.filter(...)` as written, left to right, the first throw escaping. */
  function NarrowAsWritten(links: seq<LinkItem>, term: string): Result<seq<LinkItem>, string>
  {
    if links == [] then Success([])
    else
      match LinkHitAsWritten(LinkJson(links[0]), term)
      case Failure(e) => Failure(e)
      case Success(hit) =>
        match NarrowAsWritten(links[1..], term)
        case Failure(e) => Failure(e)
        case Success(rest) => Success(if hit then [links[0]] + rest else rest)
  }

  /** `groups.map(...)` then dropping the emptied groups, as written. */
  function NarrowGroupsAsWritten(groups: seq<ProductGroup>, term: string): Result<seq<ProductGroup>, string>
  {
    if groups == [] then Success([])
    else
      match NarrowAsWritten(groups[0].links, term)
      case Failure(e) => Failure(e)
      case Success(links) =>
        match NarrowGroupsAsWritten(groups[1..], term)
        case Failure(e) => Failure(e)
        case Success(rest) => Success(if links != [] then [groups[0].(links := links)] + rest else rest)
  }

  /** `filterGroups` as written. */
  function FilterGroupsAsWritten(groups: seq<ProductGroup>, term: string): Result<seq<ProductGroup>, string>
  {
    if term == "" then Success(groups) else NarrowGroupsAsWritten(groups, term)
  }

  lemma {:induction false} NarrowAsWrittenThrows(links: seq<LinkItem>, term: string)
    requires links != []
    ensures NarrowAsWritten(links, term) == Failure(TypeError)
  {
  }

  lemma {:induction false} NarrowAsWrittenEmpty(links: seq<LinkItem>, term: string)
    requires links == []
    ensures NarrowAsWritten(links, term) == Success([])
  {
  }

  /** As written, any non-empty search over a dashboard with at least one link throws,
      because backend links have `text` and no `name`. */
  lemma {:induction false} FilterGroupsAsWrittenThrows(groups: seq<ProductGroup>, term: string)
    requires term != "" && LinkTotal(groups) > 0
    ensures FilterGroupsAsWritten(groups, term) == Failure(TypeError)
  {
    NarrowGroupsThrows(groups, term);
  }

  lemma {:induction false} NarrowGroupsThrows(groups: seq<ProductGroup>, term: string)
    requires LinkTotal(groups) > 0
    ensures NarrowGroupsAsWritten(groups, term) == Failure(TypeError)
  {
    if groups[0].links != [] {
      NarrowAsWrittenThrows(groups[0].links, term);
    } else {
      NarrowAsWrittenEmpty(groups[0].links, term);
      LinkTotalFront(groups);
      NarrowGroupsThrows(groups[1..], term);
    }
  }

  /** The link total counted from the front. */
  lemma {:induction false} LinkTotalFront(groups: seq<ProductGroup>)
    requires groups != []
    ensures LinkTotal(groups) == |groups[0].links| + LinkTotal(groups[1..])
  {
    if |groups| > 1 {
      var n := |groups| - 1;
      LinkTotalFront(groups[..n]);
      assert groups[..n][1..] == groups[1..][..|groups[1..]| - 1];
      assert groups[..n][0] == groups[0];
    } else {
      assert groups[1..] == [];
      assert groups[..0] == [];
    }
  }

  /** One concrete case: searching "a" over one group with one link throws. */
  lemma AsWrittenExample()
    ensures FilterGroupsAsWritten([ProductGroup("C", "P", "E", [LinkItem("a", "u")])], "a") == Failure(TypeError)
  {
    var gs := [ProductGroup("C", "P", "E", [LinkItem("a", "u")])];
    assert LinkTotal(gs[..0]) == 0;
    FilterGroupsAsWrittenThrows(gs, "a");
  }

  /** The intended link test: the link's text or url contains the term. */
  predicate LinkHit(l: LinkItem, term: string) {
    ContainsIgnoringCase(l.text, term) || ContainsIgnoringCase(l.url, term)
  }

  /** The intended narrowing of one group's links, in order. */
  function Narrow(links: seq<LinkItem>, term: string): (r: seq<LinkItem>)
    ensures forall l :: l in r <==> l in links && LinkHit(l, term)
    ensures |r| <= |links|
  {
    if links == [] then [] else (if LinkHit(links[0], term) then [links[0]] else []) + Narrow(links[1..], term)
  }

  function NarrowGroups(groups: seq<ProductGroup>, term: string): (r: seq<ProductGroup>)
    ensures |r| <= |groups|
    ensures forall i :: 0 <= i < |r| ==> r[i].links != [] && forall l :: l in r[i].links ==> LinkHit(l, term)
  {
    if groups == [] then []
    else
      var links := Narrow(groups[0].links, term);
      (if links != [] then [groups[0].(links := links)] else []) + NarrowGroups(groups[1..], term)
  }

  /** `filterGroups` reading the links' `text`: an empty term keeps every group; otherwise
      each group is cut down to its matching links, and the groups left empty go. */
  function FilterGroups(groups: seq<ProductGroup>, term: string): (r: seq<ProductGroup>)
    ensures term == "" ==> r == groups
    ensures term != "" ==> forall i :: 0 <= i < |r| ==> r[i].links != [] && forall l :: l in r[i].links ==> LinkHit(l, term)
  {
    if term == "" then groups else NarrowGroups(groups, term)
  }

  /** Every kept group is an input group, same product and environment, with exactly its
      matching links; and every input group with a matching link is kept. */
  lemma {:induction false} NarrowGroupsSpec(groups: seq<ProductGroup>, term: string)
    ensures forall h :: h in NarrowGroups(groups, term) <==>
              exists g :: g in groups && Narrow(g.links, term) != [] && h == g.(links := Narrow(g.links, term))
  {
    if groups != [] {
      NarrowGroupsSpec(groups[1..], term);
      forall g | g in groups
        ensures g == groups[0] || g in groups[1..]
      {
      }
    }
  }

  /** The corrected search never throws where the written one does not, and agrees with it
      there: on dashboards without links, or with an empty term. */
  lemma {:induction false} AgreesWhenNoThrow(groups: seq<ProductGroup>, term: string)
    requires term == "" || LinkTotal(groups) == 0
    ensures FilterGroupsAsWritten(groups, term) == Success(FilterGroups(groups, term))
  {
    if term != "" {
      NoLinksAgree(groups, term);
    }
  }

  lemma {:induction false} NoLinksAgree(groups: seq<ProductGroup>, term: string)
    requires LinkTotal(groups) == 0
    ensures NarrowGroupsAsWritten(groups, term) == Success([]) && NarrowGroups(groups, term) == []
  {
    if groups != [] {
      LinkTotalFront(groups);
      NarrowAsWrittenEmpty(groups[0].links, term);
      NoLinksAgree(groups[1..], term);
    }
  }

  // ---------------------------------------------------------------------------------
  // The admin's client list

  /** `data.users.filter(u => !u.is_admin)`. */
  function NonAdmins(users: seq<UserListing>): (r: seq<UserListing>)
    ensures forall u :: u in r <==> u in users && !u.isAdmin
  {
    if users == [] then [] else (if users[0].isAdmin then [] else [users[0]]) + NonAdmins(users[1..])
  }

  /** The client search: username or wiki url, case-insensitively. */
  function ClientFilter(users: seq<UserListing>, term: string): (r: seq<UserListing>)
    ensures forall u :: u in r <==> u in users && (ContainsIgnoringCase(u.username, term) || ContainsIgnoringCase(u.wikiUrl, term))
  {
    if users == [] then []
    else
      (if ContainsIgnoringCase(users[0].username, term) || ContainsIgnoringCase(users[0].wikiUrl, term) then [users[0]] else [])
      + ClientFilter(users[1..], term)
  }

  /** The answer of `/api/login` as read by the page. */
  datatype LoginData = LoginData(token: JsValue, isAdmin: JsValue, username: JsValue)

  /** What a successful login loads next. */
  datatype FollowUp = NoFollowUp | LoadUsers | LoadDashboard(target: string)

  /** The body of the update request; `JSON.stringify` drops an `undefined` password. */
  function UpdateBody(username: string, newPassword: Option<string>, newWikiUrl: string): (r: map<string, JsValue>)
    ensures "new_password" in r <==> newPassword.Some? && newPassword.value != ""
    ensures "new_password" in r ==> r["new_password"] == Str(newPassword.value)
    ensures "username" in r && r["username"] == Str(username) && "wiki_url" in r && r["wiki_url"] == Str(newWikiUrl)
  {
    var password := if newPassword.Some? && newPassword.value != "" then Str(newPassword.value) else Undefined;
    Stringified(map["username" := Str(username), "new_password" := password, "wiki_url" := Str(newWikiUrl)])
  }

  class AppShell {
    var isLoggedIn: bool
    var token: JsValue
    var error: string
    var loading: bool
    var dashboardData: Option<Dashboard>
    var isAdmin: JsValue
    var users: seq<UserListing>
    var selectedUser: Option<string>
    var showAdminPanel: bool
    var searchTerm: string
    var currentUsername: JsValue

    constructor ()
      ensures !isLoggedIn && token == Null && error == "" && !loading && dashboardData == None
      ensures isAdmin == Bool(false) && users == [] && selectedUser == None && !showAdminPanel
      ensures searchTerm == "" && currentUsername == Str("")
    {
      isLoggedIn := false;
      token := Null;
      error := "";
      loading := false;
      dashboardData := None;
      isAdmin := Bool(false);
      users := [];
      selectedUser := None;
      showAdminPanel := false;
      searchTerm := "";
      currentUsername := Str("");
    }

    /** `fetchUsers`: only the non-admin users are kept; a failure only sets the error. */
    method FetchUsers(reply: Reply<seq<UserListing>>)
      modifies this
      ensures reply.Ok? ==> users == NonAdmins(reply.data) && error == old(error)
      ensures reply.NotOk? ==> users == old(users) && error == "Failed to fetch users"
      ensures reply.Thrown? ==> users == old(users) && error == reply.message
      ensures dashboardData == old(dashboardData) && selectedUser == old(selectedUser) && loading == old(loading)
      ensures isLoggedIn == old(isLoggedIn) && token == old(token) && isAdmin == old(isAdmin)
      ensures currentUsername == old(currentUsername) && searchTerm == old(searchTerm) && showAdminPanel == old(showAdminPanel)
    {
      match reply {
        case Ok(data) => users := NonAdmins(data);
        case NotOk(_, _) => error := "Failed to fetch users";
        case Thrown(m) => error := m;
      }
    }

    /** `fetchDashboard`: success shows the dashboard and selects its user; failure sets the
        error, with the status in the fallback message. */
    method FetchDashboard(targetUsername: string, reply: Reply<Dashboard>)
      modifies this
      ensures reply.Ok? ==> dashboardData == Some(reply.data) && selectedUser == Some(targetUsername) && error == old(error)
      ensures reply.NotOk? ==> error == DetailOr(reply.detail, "Failed to fetch dashboard (" + NatToString(reply.status) + ")")
      ensures reply.Thrown? ==> error == reply.message
      ensures !reply.Ok? ==> dashboardData == old(dashboardData) && selectedUser == old(selectedUser)
      ensures !loading && users == old(users)
      ensures isLoggedIn == old(isLoggedIn) && token == old(token) && isAdmin == old(isAdmin)
      ensures currentUsername == old(currentUsername) && searchTerm == old(searchTerm) && showAdminPanel == old(showAdminPanel)
    {
      loading := true;
      match reply {
        case Ok(data) =>
          dashboardData := Some(data);
          selectedUser := Some(targetUsername);
        case NotOk(status, detail) =>
          error := DetailOr(detail, "Failed to fetch dashboard (" + NatToString(status) + ")");
        case Thrown(m) =>
          error := m;
      }
      loading := false;
    }

    /** A successful login's answer goes into the page state and the three storage keys. */
    method StoreLogin(ls: LocalStorage, data: LoginData)
      modifies this, ls
      ensures isLoggedIn && token == data.token && isAdmin == data.isAdmin && currentUsername == data.username
      ensures ls.items == old(ls.items)[AuthTokenKey := ToJsString(data.token)][IsAdminKey := ToJsString(data.isAdmin)]
                                       [UsernameKey := ToJsString(data.username)]
      ensures users == old(users) && dashboardData == old(dashboardData) && selectedUser == old(selectedUser)
      ensures error == old(error) && loading == old(loading) && searchTerm == old(searchTerm)
      ensures showAdminPanel == old(showAdminPanel)
    {
      token := data.token;
      isLoggedIn := true;
      isAdmin := data.isAdmin;
      currentUsername := data.username;
      ls.SetItem(AuthTokenKey, data.token);
      ls.SetItem(IsAdminKey, data.isAdmin);
      ls.SetItem(UsernameKey, data.username);
    }

    /** The load that follows a successful login: the client list for a truthy admin flag,
        the user's own dashboard otherwise. */
    method LoadAfterLogin(data: LoginData, usersReply: Reply<seq<UserListing>>, dashboardReply: Reply<Dashboard>)
      returns (next: FollowUp)
      modifies this
      ensures Truthy(data.isAdmin) ==> next == LoadUsers
      ensures !Truthy(data.isAdmin) ==> next == LoadDashboard(ToJsString(data.username))
      ensures Truthy(data.isAdmin) ==> dashboardData == old(dashboardData) && selectedUser == old(selectedUser)
      ensures Truthy(data.isAdmin) ==>
                && (usersReply.Ok? ==> users == NonAdmins(usersReply.data) && error == old(error))
                && (usersReply.NotOk? ==> users == old(users) && error == "Failed to fetch users")
                && (usersReply.Thrown? ==> users == old(users) && error == usersReply.message)
      ensures !Truthy(data.isAdmin) ==> users == old(users)
      ensures !Truthy(data.isAdmin) ==>
                && (dashboardReply.Ok? ==> dashboardData == Some(dashboardReply.data) && error == old(error)
                                           && selectedUser == Some(ToJsString(data.username)))
                && (dashboardReply.NotOk? ==> error == DetailOr(dashboardReply.detail, "Failed to fetch dashboard ("
                                                                  + NatToString(dashboardReply.status) + ")"))
                && (dashboardReply.Thrown? ==> error == dashboardReply.message)
                && (!dashboardReply.Ok? ==> dashboardData == old(dashboardData) && selectedUser == old(selectedUser))
      ensures isLoggedIn == old(isLoggedIn) && token == old(token) && isAdmin == old(isAdmin)
      ensures currentUsername == old(currentUsername) && searchTerm == old(searchTerm) && showAdminPanel == old(showAdminPanel)
    {
      if Truthy(data.isAdmin) {
        FetchUsers(usersReply);
        next := LoadUsers;
      } else {
        FetchDashboard(ToJsString(data.username), dashboardReply);
        next := LoadDashboard(ToJsString(data.username));
      }
    }

    /** `handleLogin`: a successful login stores the token, the admin flag and the username
        and then loads the client list for an admin, the user's dashboard otherwise. */
    method HandleLogin(ls: LocalStorage, reply: Reply<LoginData>, usersReply: Reply<seq<UserListing>>,
                       dashboardReply: Reply<Dashboard>) returns (next: FollowUp)
      modifies this, ls
      ensures reply.Ok? ==> isLoggedIn && token == reply.data.token && isAdmin == reply.data.isAdmin
      ensures reply.Ok? ==> currentUsername == reply.data.username
      ensures reply.Ok? ==> ls.items == old(ls.items)[AuthTokenKey := ToJsString(reply.data.token)]
                                         [IsAdminKey := ToJsString(reply.data.isAdmin)]
                                         [UsernameKey := ToJsString(reply.data.username)]
      ensures reply.Ok? && Truthy(reply.data.isAdmin) ==> next == LoadUsers
      ensures reply.Ok? && !Truthy(reply.data.isAdmin) ==> next == LoadDashboard(ToJsString(reply.data.username))
      ensures reply.NotOk? ==> error == DetailOr(reply.detail, "Login failed. Please check your credentials.")
      ensures reply.Thrown? ==> error == reply.message
      ensures !reply.Ok? ==> next == NoFollowUp && ls.items == old(ls.items) && isLoggedIn == old(isLoggedIn)
      ensures !reply.Ok? ==> token == old(token)
      ensures !reply.Ok? ==> users == old(users) && dashboardData == old(dashboardData) && selectedUser == old(selectedUser)
      ensures !reply.Ok? ==> isAdmin == old(isAdmin) && currentUsername == old(currentUsername)
      ensures reply.Ok? && Truthy(reply.data.isAdmin) ==> dashboardData == old(dashboardData) && selectedUser == old(selectedUser)
      ensures reply.Ok? && Truthy(reply.data.isAdmin) ==>
                && (usersReply.Ok? ==> users == NonAdmins(usersReply.data) && error == "")
                && (usersReply.NotOk? ==> users == old(users) && error == "Failed to fetch users")
                && (usersReply.Thrown? ==> users == old(users) && error == usersReply.message)
      ensures reply.Ok? && !Truthy(reply.data.isAdmin) ==> users == old(users)
      ensures reply.Ok? && !Truthy(reply.data.isAdmin) ==>
                && (dashboardReply.Ok? ==> dashboardData == Some(dashboardReply.data) && error == ""
                                           && selectedUser == Some(ToJsString(reply.data.username)))
                && (dashboardReply.NotOk? ==> error == DetailOr(dashboardReply.detail, "Failed to fetch dashboard ("
                                                                  + NatToString(dashboardReply.status) + ")"))
                && (dashboardReply.Thrown? ==> error == dashboardReply.message)
                && (!dashboardReply.Ok? ==> dashboardData == old(dashboardData) && selectedUser == old(selectedUser))
      ensures searchTerm == old(searchTerm) && showAdminPanel == old(showAdminPanel)
      ensures !loading
    {
      loading := true;
      error := "";
      next := NoFollowUp;
      match reply {
        case Ok(data) =>
          StoreLogin(ls, data);
          next := LoadAfterLogin(data, usersReply, dashboardReply);
        case NotOk(_, detail) =>
          error := DetailOr(detail, "Login failed. Please check your credentials.");
        case Thrown(m) =>
          error := m;
      }
      loading := false;
    }

    /** `handleLogout`: the session state is reset and the three storage keys removed; the
        displayed username is left as it was. */
    method HandleLogout(ls: LocalStorage)
      modifies this, ls
      ensures !isLoggedIn && token == Null && dashboardData == None && isAdmin == Bool(false)
      ensures users == [] && selectedUser == None && !showAdminPanel
      ensures ls.items == old(ls.items) - {AuthTokenKey, IsAdminKey, UsernameKey}
      ensures GetSession(ls) == Session(None, false, None)
      ensures searchTerm == old(searchTerm) && error == old(error)
      ensures currentUsername == old(currentUsername) && loading == old(loading)
    {
      isLoggedIn := false;
      token := Null;
      dashboardData := None;
      isAdmin := Bool(false);
      users := [];
      selectedUser := None;
      showAdminPanel := false;
      ls.RemoveItem(AuthTokenKey);
      ls.RemoveItem(IsAdminKey);
      ls.RemoveItem(UsernameKey);
      assert ls.items == old(ls.items) - {AuthTokenKey, IsAdminKey, UsernameKey};
      NoKeysNoSession(ls);
    }

    /** `handleDeleteUser`: nothing is requested unless confirmed; after a delete the list is
        reloaded and the dashboard closed iff it showed the deleted user. */
    method HandleDeleteUser(usernameToDelete: string, confirmed: bool, deleted: Reply<()>,
                            reloaded: Reply<seq<UserListing>>) returns (requested: bool, alert: Option<string>)
      modifies this
      ensures requested == confirmed
      ensures !confirmed ==> alert == None && users == old(users) && error == old(error)
      ensures !confirmed ==> dashboardData == old(dashboardData) && selectedUser == old(selectedUser)
      ensures confirmed && deleted.Ok? ==> alert == None
      ensures confirmed && deleted.Ok? && reloaded.Ok? ==> users == NonAdmins(reloaded.data)
      ensures confirmed && deleted.Ok? && old(selectedUser) == Some(usernameToDelete) ==> dashboardData == None && selectedUser == None
      ensures confirmed && deleted.Ok? && old(selectedUser) != Some(usernameToDelete) ==>
                dashboardData == old(dashboardData) && selectedUser == old(selectedUser)
      ensures confirmed && deleted.NotOk? ==> alert == Some("Error deleting user: Failed to delete user")
      ensures confirmed && deleted.Thrown? ==> alert == Some("Error deleting user: " + deleted.message)
      ensures confirmed && !deleted.Ok? ==> users == old(users) && dashboardData == old(dashboardData) && selectedUser == old(selectedUser)
      ensures confirmed && deleted.Ok? && !reloaded.Ok? ==> users == old(users)
      ensures confirmed && deleted.Ok? ==>
                && (reloaded.Ok? ==> error == old(error))
                && (reloaded.NotOk? ==> error == "Failed to fetch users")
                && (reloaded.Thrown? ==> error == reloaded.message)
      ensures confirmed && !deleted.Ok? ==> error == old(error)
      ensures isLoggedIn == old(isLoggedIn) && token == old(token) && searchTerm == old(searchTerm)
      ensures isAdmin == old(isAdmin) && currentUsername == old(currentUsername) && showAdminPanel == old(showAdminPanel)
    {
      if !confirmed {
        return false, None;
      }
      requested, alert := true, None;
      match deleted {
        case Ok(_) =>
          var wasSelected := selectedUser;
          FetchUsers(reloaded);
          if wasSelected == Some(usernameToDelete) {
            dashboardData := None;
            selectedUser := None;
          }
        case NotOk(_, _) =>
          alert := Some("Error deleting user: Failed to delete user");
        case Thrown(m) =>
          alert := Some("Error deleting user: " + m);
      }
    }

    /** `handleUpdateUser`: the two prompts' answers (`None` when cancelled).  An empty or
        cancelled wiki url sends nothing; an empty or cancelled password is left out of the
        body.  Returns the body sent, if any. */
    method HandleUpdateUser(user: UserListing, newPassword: Option<string>, newWikiUrl: Option<string>,
                            updated: Reply<()>, reloaded: Reply<seq<UserListing>>)
      returns (sent: Option<map<string, JsValue>>, alert: Option<string>)
      modifies this
      ensures sent.None? <==> newWikiUrl.None? || newWikiUrl.value == ""
      ensures sent.None? ==> alert == None && users == old(users) && error == old(error)
      ensures sent.Some? ==> sent.value == UpdateBody(user.username, newPassword, newWikiUrl.value)
      ensures sent.Some? && updated.Ok? ==> alert == Some("User updated successfully!")
      ensures sent.Some? && updated.Ok? && reloaded.Ok? ==> users == NonAdmins(reloaded.data)
      ensures sent.Some? && updated.NotOk? ==> alert == Some("Error updating user: Failed to update user")
      ensures sent.Some? && updated.Thrown? ==> alert == Some("Error updating user: " + updated.message)
      ensures sent.Some? && !updated.Ok? ==> users == old(users) && error == old(error)
      ensures sent.Some? && updated.Ok? && !reloaded.Ok? ==> users == old(users)
      ensures sent.Some? && updated.Ok? ==>
                && (reloaded.Ok? ==> error == old(error))
                && (reloaded.NotOk? ==> error == "Failed to fetch users")
                && (reloaded.Thrown? ==> error == reloaded.message)
      ensures dashboardData == old(dashboardData) && selectedUser == old(selectedUser) && searchTerm == old(searchTerm)
      ensures isLoggedIn == old(isLoggedIn) && token == old(token) && isAdmin == old(isAdmin)
      ensures currentUsername == old(currentUsername) && showAdminPanel == old(showAdminPanel)
    {
      if newWikiUrl.None? || newWikiUrl.value == "" {
        return None, None;
      }
      sent := Some(UpdateBody(user.username, newPassword, newWikiUrl.value));
      match updated {
        case Ok(_) =>
          FetchUsers(reloaded);
          alert := Some("User updated successfully!");
        case NotOk(_, _) =>
          alert := Some("Error updating user: Failed to update user");
        case Thrown(m) =>
          alert := Some("Error updating user: " + m);
      }
    }
  }
}
