/**
 * The browser's `localStorage` and the `storage` helper object of the frontend, which
 * keeps the session (token, admin flag, username) under three fixed keys.
 */
module Storage {
  import opened Wrappers
  import opened Js

  const AuthTokenKey := "auth_token"
  const IsAdminKey := "is_admin"
  const UsernameKey := "current_username"

  /** `localStorage`: `setItem` stores `String(value)`, `getItem` of a missing key is `null`. */
  class LocalStorage {
    var items: map<string, string>

    constructor ()
      ensures items == map[]
    {
      items := map[];
    }

    function GetItem(key: string): (r: Option<string>)
      reads this
      ensures r.Some? <==> key in items
      ensures r.Some? ==> r.value == items[key]
    {
      if key in items then Some(items[key]) else None
    }

    method SetItem(key: string, value: JsValue)
      modifies this
      ensures items == old(items)[key := ToJsString(value)]
    {
      items := items[key := ToJsString(value)];
    }

    method RemoveItem(key: string)
      modifies this
      ensures items == old(items) - {key}
    {
      items := items - {key};
    }
  }

  datatype Session = Session(token: Option<string>, isAdmin: bool, username: Option<string>)

  function GetToken(ls: LocalStorage): Option<string>
    reads ls
  {
    ls.GetItem(AuthTokenKey)
  }

  method SetToken(ls: LocalStorage, token: JsValue)
    modifies ls
    ensures ls.items == old(ls.items)[AuthTokenKey := ToJsString(token)]
  {
    ls.SetItem(AuthTokenKey, token);
  }

  method RemoveToken(ls: LocalStorage)
    modifies ls
    ensures ls.items == old(ls.items) - {AuthTokenKey}
  {
    ls.RemoveItem(AuthTokenKey);
  }

  /** `getIsAdmin`: only the stored string `true` reads back as admin. */
  function GetIsAdmin(ls: LocalStorage): (r: bool)
    reads ls
    ensures r <==> IsAdminKey in ls.items && ls.items[IsAdminKey] == "true"
  {
    ls.GetItem(IsAdminKey) == Some("true")
  }

  method SetIsAdmin(ls: LocalStorage, isAdmin: JsValue)
    modifies ls
    ensures ls.items == old(ls.items)[IsAdminKey := ToJsString(isAdmin)]
  {
    ls.SetItem(IsAdminKey, isAdmin);
  }

  method RemoveIsAdmin(ls: LocalStorage)
    modifies ls
    ensures ls.items == old(ls.items) - {IsAdminKey}
  {
    ls.RemoveItem(IsAdminKey);
  }

  function GetUsername(ls: LocalStorage): Option<string>
    reads ls
  {
    ls.GetItem(UsernameKey)
  }

  method SetUsername(ls: LocalStorage, username: JsValue)
    modifies ls
    ensures ls.items == old(ls.items)[UsernameKey := ToJsString(username)]
  {
    ls.SetItem(UsernameKey, username);
  }

  method RemoveUsername(ls: LocalStorage)
    modifies ls
    ensures ls.items == old(ls.items) - {UsernameKey}
  {
    ls.RemoveItem(UsernameKey);
  }

  /** `clearAll`: the three session keys go, every other key stays. */
  method ClearAll(ls: LocalStorage)
    modifies ls
    ensures ls.items == old(ls.items) - {AuthTokenKey, IsAdminKey, UsernameKey}
    ensures GetSession(ls) == Session(None, false, None)
  {
    RemoveToken(ls);
    RemoveIsAdmin(ls);
    RemoveUsername(ls);
  }

  function GetSession(ls: LocalStorage): Session
    reads ls
  {
    Session(GetToken(ls), GetIsAdmin(ls), GetUsername(ls))
  }

  /** Without the three keys, no session reads back. */
  lemma NoKeysNoSession(ls: LocalStorage)
    requires AuthTokenKey !in ls.items && IsAdminKey !in ls.items && UsernameKey !in ls.items
    ensures GetSession(ls) == Session(None, false, None)
  {
  }

  /** `setSession`: reading the session back gives the stored strings, and admin exactly
      when `String(isAdmin)` is `true`; every other key stays. */
  method SetSession(ls: LocalStorage, token: JsValue, isAdmin: JsValue, username: JsValue)
    modifies ls
    ensures ls.items == old(ls.items)[AuthTokenKey := ToJsString(token)][IsAdminKey := ToJsString(isAdmin)]
                                     [UsernameKey := ToJsString(username)]
    ensures GetSession(ls) == Session(Some(ToJsString(token)), ToJsString(isAdmin) == "true", Some(ToJsString(username)))
  {
    SetToken(ls, token);
    SetIsAdmin(ls, isAdmin);
    SetUsername(ls, username);
  }
}
