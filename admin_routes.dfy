/**
 * The admin endpoints: list, update and delete users.  Each one authenticates the
 * bearer token, then demands the admin flag, and only then touches the store.
 */
module AdminRoutes {
  import opened Wrappers
  import opened Http
  import opened Database
  import opened Guards

  /** `GET /api/users`: exactly the store's user listing, for an admin caller. */
  method ListUsers(s: Store, token: string, now: int) returns (r: Result<seq<UserListing>, HttpError>)
    ensures CurrentAdmin(s, token, now).Failure? ==> r == Failure(CurrentAdmin(s, token, now).error)
    ensures CurrentAdmin(s, token, now).Success? ==> r.Success? && ListsUsers(r.value, s.users)
  {
    var caller := CurrentAdmin(s, token, now);
    if caller.Failure? {
      return Failure(caller.error);
    }
    var users := s.AllUsers();
    return Success(users);
  }

  /** `PUT /api/users/{username}`: the omitted fields keep their stored values; a
      request supplying no field at all is answered 400 and changes nothing. */
  method UpdateUserEndpoint(s: Store, token: string, now: int, username: string,
                            newPassword: Option<string>, wikiUrl: Option<string>, isAdmin: Option<bool>)
    returns (r: Result<string, HttpError>)
    modifies s
    ensures s.sessions == old(s.sessions)
    ensures old(CurrentAdmin(s, token, now)).Failure? ==>
              r == Failure(old(CurrentAdmin(s, token, now)).error) && s.users == old(s.users)
    ensures old(CurrentAdmin(s, token, now)).Success? && newPassword.None? && wikiUrl.None? && isAdmin.None? ==>
              r == Failure(HttpError(BadRequest, "Failed to update user")) && s.users == old(s.users)
    ensures old(CurrentAdmin(s, token, now)).Success? && (newPassword.Some? || wikiUrl.Some? || isAdmin.Some?) ==>
              && r == Success("User updated successfully")
              && s.users == PatchedUsers(old(s.users), username,
                                         if newPassword.Some? then Some(s.hash(newPassword.value)) else None, wikiUrl, isAdmin)
  {
    var caller := CurrentAdmin(s, token, now);
    if caller.Failure? {
      return Failure(caller.error);
    }
    var success := s.UpdateUser(username, newPassword, wikiUrl, isAdmin);
    if !success {
      return Failure(HttpError(BadRequest, "Failed to update user"));
    }
    return Success("User updated successfully");
  }

  /** `DELETE /api/users/{username}`: an admin may delete anyone but themself; the
      user's sessions go with the user. */
  method DeleteUserEndpoint(s: Store, token: string, now: int, username: string)
    returns (r: Result<string, HttpError>)
    modifies s
    ensures old(CurrentAdmin(s, token, now)).Failure? ==>
              r == Failure(old(CurrentAdmin(s, token, now)).error) && s.users == old(s.users) && s.sessions == old(s.sessions)
    ensures old(CurrentAdmin(s, token, now)).Success? && username == old(CurrentAdmin(s, token, now)).value.username ==>
              && r == Failure(HttpError(BadRequest, "Cannot delete your own account"))
              && s.users == old(s.users) && s.sessions == old(s.sessions)
    ensures old(CurrentAdmin(s, token, now)).Success? && username != old(CurrentAdmin(s, token, now)).value.username ==>
              && r == Success("User deleted successfully")
              && s.users == old(s.users) - {username}
              && s.sessions == SessionsWithout(old(s.sessions), username)
    ensures old(s.Valid()) ==> s.Valid()
  {
    var caller := CurrentAdmin(s, token, now);
    if caller.Failure? {
      return Failure(caller.error);
    }
    if username == caller.value.username {
      return Failure(HttpError(BadRequest, "Cannot delete your own account"));
    }
    // `delete_user` always answers true, so "Failed to delete user" is never raised.
    var _ := s.DeleteUser(username);
    return Success("User deleted successfully");
  }
}
