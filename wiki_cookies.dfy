/**
 * The session-cookie string the wiki fetch passes to GitLab, turned into a
 * cookie map before the request is made.  An absent session (`None`) and the
 * empty string are both false in the source's test and are one value here, "".
 */
module WikiCookies {
  import opened Wrappers
  import opened Text

  const SessionCookieName := "_gitlab_session"

  /** One `;`-separated piece as a (name, value) pair: split at its first `=`, both sides
      stripped; a piece without `=` gives nothing. */
  function Piece(piece: string): Option<(string, string)> {
    var t := Strip(piece);
    var kv := SplitOnce(t, '=');
    if kv.None? then None else Some((Strip(kv.value.0), Strip(kv.value.1)))
  }

  /** The pieces entered in order, a later piece overwriting an earlier one with the same name. */
  function FromPieces(pieces: seq<string>): map<string, string> {
    if pieces == [] then map[]
    else
      var m := FromPieces(pieces[..|pieces| - 1]);
      var p := Piece(pieces[|pieces| - 1]);
      if p.Some? then m[p.value.0 := p.value.1] else m
  }

  /** The cookie map for a session string. */
  function Cookies(session: string): map<string, string> {
    if session == "" then map[]
    else if ';' in session then FromPieces(Split(session, ';'))
    else map[SessionCookieName := session]
  }

  /** The loop of the wiki fetch that fills the cookie map. */
  method ParseCookies(session: string) returns (cookies: map<string, string>)
    ensures cookies == Cookies(session)
  {
    cookies := map[];
    if session != "" {
      if ';' in session {
        var pieces := Split(session, ';');
        var i := 0;
        while i < |pieces|
          invariant 0 <= i <= |pieces|
          invariant cookies == FromPieces(pieces[..i])
        {
          assert pieces[..i + 1][..i] == pieces[..i];
          var cookie := Strip(pieces[i]);
          if '=' in cookie {
            var kv := SplitOnce(cookie, '=');
            cookies := cookies[Strip(kv.value.0) := Strip(kv.value.1)];
          }
          i := i + 1;
        }
        assert pieces[..i] == pieces;
      } else {
        cookies := cookies[SessionCookieName := session];
      }
    }
  }

  /** A name is in the map exactly when some piece with an `=` carries it. */
  lemma {:induction false} FromPiecesKeys(pieces: seq<string>, name: string)
    ensures name in FromPieces(pieces) <==>
      exists k :: 0 <= k < |pieces| && Piece(pieces[k]).Some? && Piece(pieces[k]).value.0 == name
  {
    if pieces != [] {
      var init := pieces[..|pieces| - 1];
      FromPiecesKeys(init, name);
      if name in FromPieces(pieces) && name !in FromPieces(init) {
        assert Piece(pieces[|pieces| - 1]).value.0 == name;
      }
      forall k | 0 <= k < |init| ensures init[k] == pieces[k] { }
    }
  }

  /** Its value comes from the last piece that carries it. */
  lemma {:induction false} FromPiecesLast(pieces: seq<string>, k: nat)
    requires k < |pieces| && Piece(pieces[k]).Some?
    requires forall j :: k < j < |pieces| ==> Piece(pieces[j]).None? || Piece(pieces[j]).value.0 != Piece(pieces[k]).value.0
    ensures Piece(pieces[k]).value.0 in FromPieces(pieces)
    ensures FromPieces(pieces)[Piece(pieces[k]).value.0] == Piece(pieces[k]).value.1
  {
    var init := pieces[..|pieces| - 1];
    if k < |pieces| - 1 {
      assert init[k] == pieces[k];
      FromPiecesLast(init, k);
    }
  }

  /** A session string without `;` is sent whole as the GitLab session cookie, even when it holds `=`. */
  lemma WholeSession(session: string)
    requires session != "" && ';' !in session
    ensures Cookies(session).Keys == {SessionCookieName}
    ensures Cookies(session)[SessionCookieName] == session
  {
  }
}
