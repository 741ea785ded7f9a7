/**
 * The two request guards every protected endpoint runs first: the bearer token must
 * verify against the session table, and admin endpoints then demand the admin flag.
 */
module Guards {
  import opened Wrappers
  import opened Http
  import opened Database

  /** `get_current_user`: the token's user, or 401. */
  function CurrentUser(s: Store, token: string, now: int): (r: Result<TokenUser, HttpError>)
    reads s
    ensures r.Success? <==> s.VerifyToken(token, now).Some?
    ensures r.Success? ==> r.value == s.VerifyToken(token, now).value
    ensures r.Failure? ==> r.error == HttpError(Unauthorized, "Invalid or expired token")
  {
    var u := s.VerifyToken(token, now);
    if u.None? then Failure(HttpError(Unauthorized, "Invalid or expired token")) else Success(u.value)
  }

  /** `require_admin`: nothing for an admin, 403 for anyone else. */
  function RequireAdmin(user: TokenUser): (r: Option<HttpError>)
    ensures r.None? <==> user.isAdmin
    ensures r.Some? ==> r.value == HttpError(Forbidden, "Admin access required")
  {
    if !user.isAdmin then Some(HttpError(Forbidden, "Admin access required")) else None
  }

  /** Both guards in the order the admin endpoints run them: 401 before 403. */
  function CurrentAdmin(s: Store, token: string, now: int): (r: Result<TokenUser, HttpError>)
    reads s
    ensures r.Success? <==> s.VerifyToken(token, now).Some? && s.VerifyToken(token, now).value.isAdmin
    ensures r.Success? ==> r.value == s.VerifyToken(token, now).value
    ensures s.VerifyToken(token, now).None? ==> r == Failure(HttpError(Unauthorized, "Invalid or expired token"))
    ensures s.VerifyToken(token, now).Some? && !s.VerifyToken(token, now).value.isAdmin ==>
              r == Failure(HttpError(Forbidden, "Admin access required"))
  {
    var user := CurrentUser(s, token, now);
    if user.Failure? then user
    else
      var denied := RequireAdmin(user.value);
      if denied.Some? then Failure(denied.value) else user
  }
}
