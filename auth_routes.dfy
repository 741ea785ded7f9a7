/**
 * Registration, login and logout.  The mint (GitLab) sign-in is a network exchange and
 * enters as its outcome: the session cookie string, or nothing when it failed.  The
 * session token `secrets.token_urlsafe` would draw is an input assumed fresh.
 */
module AuthRoutes {
  import opened Wrappers
  import opened Text
  import opened Http
  import opened Database
  import opened Guards

  datatype LoginResponse = LoginResponse(token: string, username: string, wikiUrl: string, isAdmin: bool, message: string)

  /** `POST /api/register`: any caller may register, with any admin flag. */
  method Register(s: Store, username: string, password: string, wikiUrl: string, isAdmin: bool, token: string, now: int)
    returns (r: Result<LoginResponse, HttpError>)
    requires token !in s.sessions
    modifies s
    ensures !StartsWith(wikiUrl, "http") ==>
              r == Failure(HttpError(BadRequest, "Invalid wiki URL format")) && s.users == old(s.users) && s.sessions == old(s.sessions)
    ensures StartsWith(wikiUrl, "http") && username in old(s.users) ==>
              r == Failure(HttpError(Conflict, "Username already exists")) && s.users == old(s.users) && s.sessions == old(s.sessions)
    ensures StartsWith(wikiUrl, "http") && username !in old(s.users) ==>
              && r == Success(LoginResponse(token, username, wikiUrl, isAdmin, "Registration successful"))
              && s.users == old(s.users)[username := UserRow(s.hash(password), wikiUrl, isAdmin, now)]
              && s.sessions == old(s.sessions)[token := SessionRow(username, None, now, now + SessionSeconds)]
              && CurrentUser(s, token, now) == Success(TokenUser(username, None, wikiUrl, isAdmin))
    ensures old(s.Valid()) ==> s.Valid()
  {
    if !StartsWith(wikiUrl, "http") {
      return Failure(HttpError(BadRequest, "Invalid wiki URL format"));
    }
    var success := s.CreateUser(username, password, wikiUrl, isAdmin, now);
    if !success {
      return Failure(HttpError(Conflict, "Username already exists"));
    }
    var t := s.CreateSession(username, None, token, now);
    return Success(LoginResponse(t, username, wikiUrl, isAdmin, "Registration successful"));
  }

  /** `POST /api/login`: admission is decided by the mint sign-in alone (the stored
      password hash is not consulted); the stored profile supplies the answer. */
  method Login(s: Store, username: string, mintSession: Option<string>, token: string, now: int)
    returns (r: Result<LoginResponse, HttpError>)
    requires token !in s.sessions
    modifies s
    ensures s.users == old(s.users)
    ensures mintSession.None? || mintSession == Some("") ==>
              r == Failure(HttpError(Unauthorized, "Invalid GitLab credentials")) && s.sessions == old(s.sessions)
    ensures mintSession.Some? && mintSession != Some("") && username !in s.users ==>
              r == Failure(HttpError(NotFound, "User not found. Please register first.")) && s.sessions == old(s.sessions)
    ensures mintSession.Some? && mintSession != Some("") && username in s.users ==>
              && r == Success(LoginResponse(token, username, s.users[username].wikiUrl, s.users[username].isAdmin, "Login successful"))
              && s.sessions == old(s.sessions)[token := SessionRow(username, mintSession, now, now + SessionSeconds)]
              && CurrentUser(s, token, now).Success? && CurrentUser(s, token, now).value.mintSession == mintSession
    ensures old(s.Valid()) ==> s.Valid()
  {
    if mintSession.None? || mintSession.value == "" {
      return Failure(HttpError(Unauthorized, "Invalid GitLab credentials"));
    }
    var user := s.UserByUsername(username);
    if user.None? {
      return Failure(HttpError(NotFound, "User not found. Please register first."));
    }
    var t := s.CreateSession(username, mintSession, token, now);
    return Success(LoginResponse(t, user.value.username, user.value.wikiUrl, user.value.isAdmin, "Login successful"));
  }

  /** `POST /api/logout`: every session of the caller ends, the presented one included. */
  method Logout(s: Store, token: string, now: int) returns (r: Result<string, HttpError>)
    modifies s
    ensures s.users == old(s.users)
    ensures old(CurrentUser(s, token, now)).Failure? ==>
              r == Failure(old(CurrentUser(s, token, now)).error) && s.sessions == old(s.sessions)
    ensures old(CurrentUser(s, token, now)).Success? ==>
              && r == Success("Logout successful")
              && s.sessions == SessionsWithout(old(s.sessions), old(CurrentUser(s, token, now)).value.username)
              && forall t, later :: CurrentUser(s, t, later).Failure? || CurrentUser(s, t, later).value.username != old(CurrentUser(s, token, now)).value.username
    ensures old(CurrentUser(s, token, now)).Success? ==> CurrentUser(s, token, now).Failure?
    ensures old(s.Valid()) ==> s.Valid()
  {
    var caller := CurrentUser(s, token, now);
    if caller.Failure? {
      return Failure(caller.error);
    }
    s.DeleteSessions(caller.value.username);
    return Success("Logout successful");
  }
}
