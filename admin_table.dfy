/**
 * The admin user table: search and role filtering, the stats cards, avatar initials and
 * colours, relative creation dates and the new-user form.
 */
module AdminTable {
  import opened Wrappers
  import opened Text
  import opened Js
  import opened Database

  /** The `users` prop: an array (the default is the empty one) or some other value. */
  datatype UsersProp = Array(items: seq<UserListing>) | NotArray

  /** The role drop-down. */
  predicate RoleMatches(roleFilter: string, isAdmin: bool)
  {
    roleFilter == "ALL" || (roleFilter == "ADMIN" && isAdmin) || (roleFilter == "USER" && !isAdmin)
  }

  predicate Listed(u: UserListing, searchQuery: string, roleFilter: string)
  {
    ContainsIgnoringCase(u.username, searchQuery) && RoleMatches(roleFilter, u.isAdmin)
  }

  /** `filteredUsers`: nothing for a non-array, else exactly the users matching both the
      query and the role, in the given order. */
  function FilteredUsers(users: UsersProp, searchQuery: string, roleFilter: string): (r: seq<UserListing>)
    ensures users.NotArray? ==> r == []
    ensures users.Array? ==> forall u :: u in r <==> u in users.items && Listed(u, searchQuery, roleFilter)
    ensures users.Array? ==> |r| <= |users.items|
  {
    if users.NotArray? then [] else Keep(users.items, searchQuery, roleFilter)
  }

  function Keep(items: seq<UserListing>, searchQuery: string, roleFilter: string): (r: seq<UserListing>)
    ensures forall u :: u in r <==> u in items && Listed(u, searchQuery, roleFilter)
    ensures |r| <= |items|
  {
    if items == [] then []
    else
      var u := items[|items| - 1];
      Keep(items[..|items| - 1], searchQuery, roleFilter) + (if Listed(u, searchQuery, roleFilter) then [u] else [])
  }

  /** The role filters split the users: the admins and the plain users together are all of them. */
  lemma {:induction false} RolesPartition(items: seq<UserListing>, searchQuery: string)
    ensures |Keep(items, searchQuery, "ADMIN")| + |Keep(items, searchQuery, "USER")| == |Keep(items, searchQuery, "ALL")|
  {
    if items != [] {
      RolesPartition(items[..|items| - 1], searchQuery);
    }
  }

  function AdminCount(items: seq<UserListing>): (n: nat)
    ensures n <= |items|
  {
    if items == [] then 0 else AdminCount(items[..|items| - 1]) + (if items[|items| - 1].isAdmin then 1 else 0)
  }

  /** The admin count is what the ADMIN filter lists with an empty query. */
  lemma {:induction false} AdminCountIsAdminFilter(items: seq<UserListing>)
    ensures AdminCount(items) == |Keep(items, "", "ADMIN")|
  {
    if items != [] {
      AdminCountIsAdminFilter(items[..|items| - 1]);
      assert Lower("") == "";
      ContainsEmpty(Lower(items[|items| - 1].username));
    }
  }

  datatype Stats = Stats(total: nat, active: nat, admins: nat, newToday: nat)

  /** The stats of an array of users: everyone counts as active and nobody as new. */
  function StatsOf(items: seq<UserListing>): (r: Stats)
    ensures r.total == |items| && r.active == r.total && r.newToday == 0
    ensures r.admins == AdminCount(items) && r.admins <= r.total
  {
    Stats(|items|, |items|, AdminCount(items), 0)
  }

  /** The UTF-16 code units of one character: itself below 0x10000, else a surrogate pair. */
  function Utf16(c: char): (u: seq<nat>)
    ensures 1 <= |u| <= 2 && (|u| == 1 <==> (c as int) < 0x10000)
    ensures forall k :: 0 <= k < |u| ==> u[k] < 0x10000
  {
    if (c as int) < 0x10000 then [c as int]
    else [0xD800 + ((c as int) - 0x10000) / 0x400, 0xDC00 + ((c as int) - 0x10000) % 0x400]
  }

  /** A JavaScript string: the code units of its characters, in order. */
  function CodeUnits(s: string): (u: seq<nat>)
    ensures |u| >= |s|
  {
    if s == [] then [] else Utf16(s[0]) + CodeUnits(s[1..])
  }

  /** `toUpperCase()` on one code unit, restricted to ASCII letters; a lone surrogate stays. */
  function UpperUnit(u: nat): nat {
    if 'a' as int <= u <= 'z' as int then u - 32 else u
  }

  /** `getInitials`: `substring(0, 2)` takes the first two UTF-16 code units, which are then
      upper-cased. */
  function Initials(username: string): (r: seq<nat>)
    ensures var u := CodeUnits(username); |r| == (if |u| < 2 then |u| else 2)
    ensures forall i :: 0 <= i < |r| ==> r[i] == UpperUnit(CodeUnits(username)[i])
  {
    var u := CodeUnits(username);
    var n := if |u| < 2 then |u| else 2;
    seq(n, i requires 0 <= i < n => UpperUnit(u[i]))
  }

  /** Below 0x10000 every character is one code unit. */
  lemma {:induction false} BmpCodeUnits(s: string)
    requires forall i :: 0 <= i < |s| ==> (s[i] as int) < 0x10000
    ensures CodeUnits(s) == seq(|s|, i requires 0 <= i < |s| => s[i] as int)
  {
    if s != [] {
      BmpCodeUnits(s[1..]);
    }
  }

  lemma UpperUnitChar(c: char)
    requires (c as int) < 0x10000
    ensures UpperUnit(c as int) == UpperChar(c) as int
  {
  }

  /** For a name without astral characters the initials are its first two characters
      (fewer for a shorter name), upper-cased. */
  lemma InitialsBmp(username: string)
    requires forall i :: 0 <= i < |username| ==> (username[i] as int) < 0x10000
    ensures var n := if |username| < 2 then |username| else 2;
      Initials(username) == CodeUnits(Upper(username[..n]))
  {
    var n := if |username| < 2 then |username| else 2;
    var t := Upper(username[..n]);
    BmpCodeUnits(username);
    forall i | 0 <= i < |t|
      ensures (t[i] as int) < 0x10000
    {
      UpperUnitChar(username[i]);
    }
    BmpCodeUnits(t);
    forall i | 0 <= i < n
      ensures Initials(username)[i] == CodeUnits(t)[i]
    {
      UpperUnitChar(username[i]);
    }
  }

  /** An astral first character fills both units, so the second character is dropped. */
  lemma InitialsAstralFirst()
    ensures Initials("\U{1F600}a") == Utf16('\U{1F600}')
  {
    assert CodeUnits("\U{1F600}a") == Utf16('\U{1F600}') + [0x61] by {
      assert "\U{1F600}a"[1..] == "a";
      assert CodeUnits("a") == [0x61] by {
        assert "a"[1..] == [];
      }
    }
  }

  /** An astral second character is split: the initials end in its lone high surrogate. */
  lemma InitialsSplitPair()
    ensures Initials("a\U{1F600}") == [0x41, 0xD83D]
  {
    assert CodeUnits("a\U{1F600}") == [0x61] + Utf16('\U{1F600}') by {
      assert "a\U{1F600}"[1..] == "\U{1F600}";
      assert CodeUnits("\U{1F600}") == Utf16('\U{1F600}') by {
        assert "\U{1F600}"[1..] == [];
      }
    }
  }

  const AvatarColors: seq<string> := [
    "linear-gradient(135deg, " + "#E31E24, #B91C1C)",
    "linear-gradient(135deg, " + "#0066CC, #003DA5)",
    "linear-gradient(135deg, " + "#E31E24, #0066CC)",
    "linear-gradient(135deg, " + "#003DA5, #E31E24)",
    "linear-gradient(135deg, " + "#B91C1C, #0066CC)"
  ]

  /** `charCodeAt(0)` of a string starting with `c`: the first UTF-16 code unit. */
  function FirstCodeUnit(c: char): (n: nat)
    ensures n < 0x10000
    ensures (c as int) < 0x10000 ==> n == c as int
  {
    Utf16(c)[0]
  }

  /** `getAvatarColor`: for a non-empty name the index is in range, so a colour is always
      found; for the empty name `charCodeAt` is NaN and there is none. */
  function AvatarColor(username: string): (r: Option<string>)
    ensures r.None? <==> username == []
    ensures r.Some? ==> r.value == AvatarColors[FirstCodeUnit(username[0]) % 5] && r.value in AvatarColors
  {
    if username == [] then None else Some(AvatarColors[FirstCodeUnit(username[0]) % |AvatarColors|])
  }

  /** The relative-date buckets of `formatDate`; `LocaleDate` is the locale's date string. */
  datatype Ago = JustNow | MinutesAgo(mins: nat) | HoursAgo(hours: nat) | DaysAgo(days: nat) | LocaleDate

  /** The bucket for an elapsed time in milliseconds; negative (future) times are "just now".
      `Math.floor` and Dafny's division agree for a positive divisor. */
  function FormatDate(diffMs: int): (r: Ago)
    ensures r == JustNow <==> diffMs < 60000
    ensures r.MinutesAgo? <==> 60000 <= diffMs < 3600000
    ensures r.HoursAgo? <==> 3600000 <= diffMs < 86400000
    ensures r.DaysAgo? <==> 86400000 <= diffMs < 30 * 86400000
    ensures r.MinutesAgo? ==> r.mins == diffMs / 60000 && 1 <= r.mins < 60
    ensures r.HoursAgo? ==> r.hours == diffMs / 3600000 && 1 <= r.hours < 24
    ensures r.DaysAgo? ==> r.days == diffMs / 86400000 && 1 <= r.days < 30
  {
    var diffMins := diffMs / 60000;
    var diffHours := diffMs / 3600000;
    var diffDays := diffMs / 86400000;
    if diffMins < 1 then JustNow
    else if diffMins < 60 then MinutesAgo(diffMins)
    else if diffHours < 24 then HoursAgo(diffHours)
    else if diffDays < 30 then DaysAgo(diffDays)
    else LocaleDate
  }

  /** `N <unit>` with an `s` exactly when N is more than one. */
  function Plural(n: nat, unit: string): (r: string)
    ensures r == NatToString(n) + " " + unit || r == NatToString(n) + " " + unit + "s"
    ensures r == NatToString(n) + " " + unit + "s" <==> n > 1
  {
    if n > 1 then NatToString(n) + " " + unit + "s" else NatToString(n) + " " + unit
  }

  /** The text shown; `None` stands for the locale-formatted date. */
  function AgoText(a: Ago): Option<string> {
    match a
    case JustNow => Some("Just now")
    case MinutesAgo(n) => Some(NatToString(n) + " min ago")
    case HoursAgo(n) => Some(Plural(n, "hour") + " ago")
    case DaysAgo(n) => Some(Plural(n, "day") + " ago")
    case LocaleDate => None
  }

  datatype NewUser = NewUser(username: string, password: string, wikiUrl: string)

  const EmptyForm := NewUser("", "", "")

  class AdminTablePanel {
    const token: JsValue
    var users: UsersProp
    var searchQuery: string
    var roleFilter: string
    var stats: Stats
    var showNewUserModal: bool
    var newUser: NewUser
    var createError: string

    constructor (users: UsersProp, token: JsValue)
      ensures this.users == users && this.token == token
      ensures searchQuery == "" && roleFilter == "ALL" && stats == Stats(0, 0, 0, 0)
      ensures !showNewUserModal && newUser == EmptyForm && createError == ""
    {
      this.users := users;
      this.token := token;
      searchQuery := "";
      roleFilter := "ALL";
      stats := Stats(0, 0, 0, 0);
      showNewUserModal := false;
      newUser := EmptyForm;
      createError := "";
    }

    /** The stats effect: recomputed for an array, left as they were otherwise. */
    method RefreshStats()
      modifies this
      ensures users.Array? ==> stats == StatsOf(users.items)
      ensures users.NotArray? ==> stats == old(stats)
      ensures users == old(users) && searchQuery == old(searchQuery) && roleFilter == old(roleFilter)
      ensures showNewUserModal == old(showNewUserModal) && newUser == old(newUser) && createError == old(createError)
    {
      if users.NotArray? {
        return;
      }
      var total := |users.items|;
      var admins := AdminCount(users.items);
      stats := Stats(total, total, admins, 0);
    }

    /** `handleCreateUser`: with any field empty it reports "All fields are required" and
        sends nothing; otherwise it sends the form, and on success closes and resets it.
        Returns the body sent, if any. */
    method HandleCreateUser(reply: Reply<()>) returns (sent: Option<NewUser>)
      modifies this
      ensures sent.None? <==> old(newUser).username == "" || old(newUser).password == "" || old(newUser).wikiUrl == ""
      ensures sent.None? ==> createError == "All fields are required" && newUser == old(newUser)
      ensures sent.None? ==> showNewUserModal == old(showNewUserModal)
      ensures sent.Some? ==> sent.value == old(newUser)
      ensures sent.Some? && reply.Ok? ==> !showNewUserModal && newUser == EmptyForm && createError == ""
      ensures sent.Some? && reply.NotOk? ==> createError == DetailOr(reply.detail, "Failed to create user")
      ensures sent.Some? && reply.Thrown? ==> createError == reply.message
      ensures sent.Some? && !reply.Ok? ==> newUser == old(newUser) && showNewUserModal == old(showNewUserModal)
      ensures users == old(users) && stats == old(stats) && searchQuery == old(searchQuery) && roleFilter == old(roleFilter)
    {
      createError := "";
      if newUser.username == "" || newUser.password == "" || newUser.wikiUrl == "" {
        createError := "All fields are required";
        return None;
      }
      sent := Some(newUser);
      match reply {
        case Ok(_) =>
          showNewUserModal := false;
          newUser := EmptyForm;
        case NotOk(_, detail) =>
          createError := DetailOr(detail, "Failed to create user");
        case Thrown(m) =>
          createError := m;
      }
    }
  }
}
