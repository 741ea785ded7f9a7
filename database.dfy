/**
 * The backend's SQLite store as two in-memory tables: users keyed by username and
 * sessions keyed by token.  Each SQL statement becomes a map operation.  The clock,
 * the random session token and the password hash are inputs: `hash` is an arbitrary
 * function (nothing assumes two passwords hash differently), times are whole seconds.
 */
module Database {
  import opened Wrappers
  import opened Text

  const SessionExpiryHours := 8
  const SessionSeconds := SessionExpiryHours * 3600

  datatype UserRow = UserRow(passwordHash: string, wikiUrl: string, isAdmin: bool, createdAt: int)
  datatype SessionRow = SessionRow(username: string, mintSession: Option<string>, createdAt: int, expiresAt: int)

  /** What `verify_user` and `get_user_by_username` return. */
  datatype User = User(username: string, wikiUrl: string, isAdmin: bool)
  /** One row of `get_all_users`. */
  datatype UserListing = UserListing(username: string, wikiUrl: string, isAdmin: bool, createdAt: int)
  /** What `verify_token` returns. */
  datatype TokenUser = TokenUser(username: string, mintSession: Option<string>, wikiUrl: string, isAdmin: bool)

  /** User listings in strictly ascending username order (SQLite's binary collation). */
  predicate SortedByName(rows: seq<UserListing>) {
    forall i, j :: 0 <= i < j < |rows| ==> Less(rows[i].username, rows[j].username)
  }

  function Listing(username: string, row: UserRow): UserListing {
    UserListing(username, row.wikiUrl, row.isAdmin, row.createdAt)
  }

  /** `rows` is the users table as `SELECT … ORDER BY username` returns it. */
  predicate ListsUsers(rows: seq<UserListing>, users: map<string, UserRow>) {
    && SortedByName(rows)
    && (forall i :: 0 <= i < |rows| ==> rows[i].username in users && rows[i] == Listing(rows[i].username, users[rows[i].username]))
    && (forall u :: u in users ==> exists i :: 0 <= i < |rows| && rows[i].username == u)
  }

  /** One `column = ?` item of the UPDATE statement built by `update_user`. */
  datatype Assignment = SetPasswordHash(hash: string) | SetWikiUrl(url: string) | SetAdmin(admin: bool)

  function Assign(row: UserRow, a: Assignment): UserRow {
    match a
    case SetPasswordHash(h) => row.(passwordHash := h)
    case SetWikiUrl(w) => row.(wikiUrl := w)
    case SetAdmin(b) => row.(isAdmin := b)
  }

  function AssignAll(row: UserRow, updates: seq<Assignment>): UserRow {
    if updates == [] then row else Assign(AssignAll(row, updates[..|updates| - 1]), updates[|updates| - 1])
  }

  /** A user row with exactly the supplied fields replaced. */
  function Patch(row: UserRow, passwordHash: Option<string>, wikiUrl: Option<string>, isAdmin: Option<bool>): UserRow {
    UserRow(passwordHash.GetOr(row.passwordHash), wikiUrl.GetOr(row.wikiUrl), isAdmin.GetOr(row.isAdmin), row.createdAt)
  }

  /** The users table after `update_user`: the user's supplied fields are replaced when
      some field is supplied and the user exists; otherwise the table is as it was. */
  function PatchedUsers(users: map<string, UserRow>, username: string, passwordHash: Option<string>,
                        wikiUrl: Option<string>, isAdmin: Option<bool>): (r: map<string, UserRow>)
    ensures r.Keys == users.Keys
    ensures forall u :: u in users && u != username ==> r[u] == users[u]
    ensures username in users ==> r[username].createdAt == users[username].createdAt
    ensures username in users && passwordHash.None? && wikiUrl.None? && isAdmin.None? ==> r == users
  {
    if (passwordHash.Some? || wikiUrl.Some? || isAdmin.Some?) && username in users
    then users[username := Patch(users[username], passwordHash, wikiUrl, isAdmin)]
    else users
  }

  /** The sessions left after `DELETE FROM sessions WHERE username = ?`. */
  function SessionsWithout(sessions: map<string, SessionRow>, username: string): (r: map<string, SessionRow>)
    ensures forall t :: t in r <==> t in sessions && sessions[t].username != username
    ensures forall t :: t in r ==> r[t] == sessions[t]
  {
    map t | t in sessions && sessions[t].username != username :: sessions[t]
  }

  class Store {
    const hash: string -> string
    var users: map<string, UserRow>
    var sessions: map<string, SessionRow>

    /** Every session expires exactly eight hours after it was created. */
    predicate Valid()
      reads this
    {
      forall t :: t in sessions ==> sessions[t].expiresAt == sessions[t].createdAt + SessionSeconds
    }

    /** `init_db`: both tables exist and are empty. */
    constructor (hash: string -> string)
      ensures this.hash == hash && users == map[] && sessions == map[] && Valid()
    {
      this.hash := hash;
      users := map[];
      sessions := map[];
    }

    /** `create_user`: the insert fails on the username primary key. */
    method CreateUser(username: string, password: string, wikiUrl: string, isAdmin: bool, now: int)
      returns (created: bool)
      modifies this
      ensures created <==> username !in old(users)
      ensures created ==> users == old(users)[username := UserRow(hash(password), wikiUrl, isAdmin, now)]
      ensures !created ==> users == old(users)
      ensures sessions == old(sessions)
      ensures created ==> VerifyUser(username, password) == Some(User(username, wikiUrl, isAdmin))
    {
      if username in users {
        return false;
      }
      users := users[username := UserRow(hash(password), wikiUrl, isAdmin, now)];
      return true;
    }

    /** `verify_user`: the user's data exactly when the stored hash is the password's hash. */
    function VerifyUser(username: string, password: string): (r: Option<User>)
      reads this
      ensures r.Some? <==> username in users && users[username].passwordHash == hash(password)
      ensures r.Some? ==> r.value == User(username, users[username].wikiUrl, users[username].isAdmin)
    {
      if username in users && users[username].passwordHash == hash(password)
      then Some(User(username, users[username].wikiUrl, users[username].isAdmin))
      else None
    }

    /** `get_user_by_username`. */
    function UserByUsername(username: string): (r: Option<User>)
      reads this
      ensures r.Some? <==> username in users
      ensures r.Some? ==> r.value == User(username, users[username].wikiUrl, users[username].isAdmin)
    {
      if username in users then Some(User(username, users[username].wikiUrl, users[username].isAdmin)) else None
    }

    /** `get_all_users`: every user once, ordered by username. */
    method AllUsers() returns (rows: seq<UserListing>)
      ensures ListsUsers(rows, users)
    {
      var names := OrderByName(users.Keys);
      rows := [];
      var i := 0;
      while i < |names|
        invariant 0 <= i <= |names| && |rows| == i
        invariant forall k :: 0 <= k < i ==> rows[k] == Listing(names[k], users[names[k]])
      {
        rows := rows + [Listing(names[i], users[names[i]])];
        i := i + 1;
      }
      forall u | u in users ensures exists i :: 0 <= i < |rows| && rows[i].username == u {
        var k :| 0 <= k < |names| && names[k] == u;
        assert rows[k].username == u;
      }
    }

    /** The SET clause of the UPDATE statement: the assignments applied in order. */
    static method ApplyAssignments(row: UserRow, updates: seq<Assignment>) returns (r: UserRow)
      ensures r == AssignAll(row, updates)
    {
      r := row;
      var i := 0;
      while i < |updates|
        invariant 0 <= i <= |updates|
        invariant r == AssignAll(row, updates[..i])
      {
        assert updates[..i + 1][..i] == updates[..i];
        r := Assign(r, updates[i]);
        i := i + 1;
      }
      assert updates[..i] == updates;
    }

    /** `update_user`: with no field supplied nothing is done and the answer is false;
        otherwise the supplied fields of that user are set (the password stored hashed)
        and the answer is true, whether or not the user exists. */
    method UpdateUser(username: string, newPassword: Option<string>, wikiUrl: Option<string>, isAdmin: Option<bool>)
      returns (updated: bool)
      modifies this
      ensures updated <==> newPassword.Some? || wikiUrl.Some? || isAdmin.Some?
      ensures users == PatchedUsers(old(users), username, if newPassword.Some? then Some(hash(newPassword.value)) else None, wikiUrl, isAdmin)
      ensures sessions == old(sessions)
    {
      ghost var passwordHash := if newPassword.Some? then Some(hash(newPassword.value)) else None;
      ghost var a := if passwordHash.Some? then [SetPasswordHash(passwordHash.value)] else [];
      ghost var b := if wikiUrl.Some? then [SetWikiUrl(wikiUrl.value)] else [];
      ghost var c := if isAdmin.Some? then [SetAdmin(isAdmin.value)] else [];
      var updates: seq<Assignment> := [];
      if newPassword.Some? {
        updates := updates + [SetPasswordHash(hash(newPassword.value))];
      }
      assert updates == a;
      if wikiUrl.Some? {
        updates := updates + [SetWikiUrl(wikiUrl.value)];
      }
      assert updates == a + b;
      if isAdmin.Some? {
        updates := updates + [SetAdmin(isAdmin.value)];
      }
      assert updates == a + b + c;
      if updates == [] {
        assert a == [] && b == [] && c == [];
        return false;
      }
      if username in users {
        var row := ApplyAssignments(users[username], updates);
        AssignmentsPatch(users[username], passwordHash, wikiUrl, isAdmin, a, b, c);
        users := users[username := row];
      }
      return true;
    }

    /** `delete_user`: the user's sessions are deleted, then the user; always true. */
    method DeleteUser(username: string) returns (deleted: bool)
      modifies this
      ensures deleted
      ensures users == old(users) - {username}
      ensures sessions == SessionsWithout(old(sessions), username)
      ensures old(Valid()) ==> Valid()
      ensures forall t, now :: VerifyToken(t, now).Some? ==> VerifyToken(t, now).value.username != username
    {
      sessions := SessionsWithout(sessions, username);
      users := users - {username};
      return true;
    }

    /** `create_session`: a session expiring eight hours from now under a fresh token.
        The user need not exist: the sessions table's foreign key is not enforced. */
    method CreateSession(username: string, mintSession: Option<string>, token: string, now: int) returns (t: string)
      requires token !in sessions
      modifies this
      ensures t == token
      ensures sessions == old(sessions)[token := SessionRow(username, mintSession, now, now + SessionSeconds)]
      ensures users == old(users)
      ensures old(Valid()) ==> Valid()
      ensures forall later :: now <= later <= now + SessionSeconds && username in users ==>
                VerifyToken(token, later) == Some(TokenUser(username, mintSession, users[username].wikiUrl, users[username].isAdmin))
      ensures forall later :: later > now + SessionSeconds ==> VerifyToken(token, later) == None
    {
      sessions := sessions[token := SessionRow(username, mintSession, now, now + SessionSeconds)];
      return token;
    }

    /** `verify_token`: the session joined with its user, unless it is expired. */
    function VerifyToken(token: string, now: int): (r: Option<TokenUser>)
      reads this
      ensures r.Some? <==> token in sessions && sessions[token].username in users && !(now > sessions[token].expiresAt)
      ensures r.Some? ==> r.value == TokenUser(sessions[token].username, sessions[token].mintSession,
                                               users[sessions[token].username].wikiUrl, users[sessions[token].username].isAdmin)
    {
      if token !in sessions then None
      else
        var s := sessions[token];
        if s.username !in users then None
        else if now > s.expiresAt then None
        else Some(TokenUser(s.username, s.mintSession, users[s.username].wikiUrl, users[s.username].isAdmin))
    }

    /** `delete_session`: every session of the user goes, not only one. */
    method DeleteSessions(username: string)
      modifies this
      ensures sessions == SessionsWithout(old(sessions), username)
      ensures users == old(users)
      ensures old(Valid()) ==> Valid()
      ensures forall t, now :: VerifyToken(t, now).Some? ==> VerifyToken(t, now).value.username != username
    {
      sessions := SessionsWithout(sessions, username);
    }

    /** Token `t` is one of the user's most recently created sessions. */
    predicate IsLatest(t: string, username: string)
      reads this
    {
      t in sessions && sessions[t].username == username
      && forall u :: u in sessions && sessions[u].username == username ==> sessions[u].createdAt <= sessions[t].createdAt
    }

    /** `m` is what `get_user_session` may answer: the mint session of one of the user's
        newest sessions (ties broken arbitrarily), nothing when the user has no session. */
    predicate LatestOf(username: string, m: Option<string>)
      reads this
    {
      && ((forall t :: t in sessions ==> sessions[t].username != username) ==> m == None)
      && ((exists t :: t in sessions && sessions[t].username == username) ==>
            exists t :: t in sessions && IsLatest(t, username) && m == sessions[t].mintSession)
    }

    /** `get_user_session`. */
    method LatestMintSession(username: string) returns (r: Option<string>)
      ensures LatestOf(username, r)
    {
      var best: Option<string> := None;
      var remaining := sessions.Keys;
      while remaining != {}
        invariant remaining <= sessions.Keys
        invariant best.None? ==> forall t :: t in sessions && t !in remaining ==> sessions[t].username != username
        invariant best.Some? ==> best.value in sessions && best.value !in remaining && sessions[best.value].username == username
        invariant best.Some? ==> forall u :: u in sessions && u !in remaining && sessions[u].username == username
                                   ==> sessions[u].createdAt <= sessions[best.value].createdAt
        decreases |remaining|
      {
        var t :| t in remaining;
        if sessions[t].username == username && (best.None? || sessions[t].createdAt > sessions[best.value].createdAt) {
          best := Some(t);
        }
        remaining := remaining - {t};
      }
      r := if best.Some? then sessions[best.value].mintSession else None;
    }
  }

  /** Under the eight-hour invariant a token of an existing user verifies exactly until
      eight hours after its creation, the last second included. */
  lemma TokenLifetime(s: Store, token: string, now: int)
    requires s.Valid() && token in s.sessions && s.sessions[token].username in s.users
    ensures s.VerifyToken(token, now).Some? <==> now <= s.sessions[token].createdAt + SessionSeconds
  {
  }

  /** Only the hash is compared: two passwords with the same hash are equally accepted. */
  lemma SameHashSameAnswer(s: Store, username: string, p1: string, p2: string)
    requires s.hash(p1) == s.hash(p2)
    ensures s.VerifyUser(username, p1) == s.VerifyUser(username, p2)
  {
  }

  /** `ORDER BY username`: the names in a set, each once, in ascending order. */
  method OrderByName(keys: set<string>) returns (names: seq<string>)
    ensures forall i, j :: 0 <= i < j < |names| ==> Less(names[i], names[j])
    ensures forall x :: x in names <==> x in keys
  {
    names := [];
    var remaining := keys;
    while remaining != {}
      invariant remaining <= keys
      invariant forall i, j :: 0 <= i < j < |names| ==> Less(names[i], names[j])
      invariant forall x :: x in names <==> x in keys && x !in remaining
      invariant forall i, u :: 0 <= i < |names| && u in remaining ==> Less(names[i], u)
      decreases |remaining|
    {
      LeastExists(remaining);
      var m :| m in remaining && forall x :: x in remaining && x != m ==> Less(m, x);
      names := names + [m];
      remaining := remaining - {m};
    }
  }

  /** The assignments `update_user` collects, applied in order, patch exactly the supplied fields. */
  lemma AssignmentsPatch(row: UserRow, passwordHash: Option<string>, wikiUrl: Option<string>, isAdmin: Option<bool>,
                         a: seq<Assignment>, b: seq<Assignment>, c: seq<Assignment>)
    requires a == if passwordHash.Some? then [SetPasswordHash(passwordHash.value)] else []
    requires b == if wikiUrl.Some? then [SetWikiUrl(wikiUrl.value)] else []
    requires c == if isAdmin.Some? then [SetAdmin(isAdmin.value)] else []
    ensures AssignAll(row, a + b + c) == Patch(row, passwordHash, wikiUrl, isAdmin)
  {
    AssignAllAppend(row, a + b, c);
    AssignAllAppend(row, a, b);
    var r1 := AssignAll(row, a);
    AssignAtMostOne(row, a);
    var r2 := AssignAll(r1, b);
    AssignAtMostOne(r1, b);
    AssignAtMostOne(r2, c);
  }

  lemma AssignAtMostOne(row: UserRow, a: seq<Assignment>)
    requires |a| <= 1
    ensures AssignAll(row, a) == if a == [] then row else Assign(row, a[0])
  {
    if a != [] {
      assert a[..0] == [];
    }
  }

  lemma {:induction false} AssignAllAppend(row: UserRow, a: seq<Assignment>, b: seq<Assignment>)
    ensures AssignAll(row, a + b) == AssignAll(AssignAll(row, a), b)
    decreases |b|
  {
    if b == [] {
      assert a + b == a;
    } else {
      var n := |b| - 1;
      assert (a + b)[..|a + b| - 1] == a + b[..n];
      AssignAllAppend(row, a, b[..n]);
    }
  }
}
