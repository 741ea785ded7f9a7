/**
 * The conversion of a wiki page URL into the GitLab API URL of that page,
 * with the project path percent-encoded as section 2.1 of RFC 3986 describes:
 * every character except the unreserved ones of section 2.3 is written as `%XX`
 * for each byte of its UTF-8 form, with upper-case hexadecimal digits.
 */
module WikiApiUrl {
  import opened Wrappers
  import opened Text
  import opened Http

  /** The unreserved characters of section 2.3 of RFC 3986; they stay literal. */
  predicate Unreserved(c: char) {
    ('A' <= c <= 'Z') || ('a' <= c <= 'z') || ('0' <= c <= '9') || c == '-' || c == '.' || c == '_' || c == '~'
  }

  /** The UTF-8 bytes of one character. */
  function Utf8(c: char): (bytes: seq<nat>)
    ensures 1 <= |bytes| <= 4 && forall k :: 0 <= k < |bytes| ==> bytes[k] < 256
    ensures (c as int < 0x80) <==> |bytes| == 1
    ensures |bytes| == 1 ==> bytes[0] == c as int
  {
    var cp := c as int;
    if cp < 0x80 then [cp]
    else if cp < 0x800 then [0xC0 + cp / 0x40, 0x80 + cp % 0x40]
    else if cp < 0x1_0000 then [0xE0 + cp / 0x1000, 0x80 + cp / 0x40 % 0x40, 0x80 + cp % 0x40]
    else [0xF0 + cp / 0x4_0000, 0x80 + cp / 0x1000 % 0x40, 0x80 + cp / 0x40 % 0x40, 0x80 + cp % 0x40]
  }

  predicate IsHexDigit(c: char) {
    ('0' <= c <= '9') || ('A' <= c <= 'F')
  }

  function HexDigit(d: nat): (c: char)
    requires d < 16
    ensures IsHexDigit(c)
  {
    if d < 10 then ('0' as int + d) as char else ('A' as int + d - 10) as char
  }

  function HexValue(c: char): (d: nat)
    requires IsHexDigit(c)
    ensures d < 16 && HexDigit(d) == c
  {
    if c <= '9' then c as int - '0' as int else c as int - 'A' as int + 10
  }

  /** `%XX` for each byte. */
  function PercentBytes(bytes: seq<nat>): string
    requires forall k :: 0 <= k < |bytes| ==> bytes[k] < 256
  {
    if bytes == [] then ""
    else ['%', HexDigit(bytes[0] / 16), HexDigit(bytes[0] % 16)] + PercentBytes(bytes[1..])
  }

  /** The encoding of one character. */
  function QuoteChar(c: char): string {
    if Unreserved(c) then [c] else PercentBytes(Utf8(c))
  }

  /** Python's `urllib.parse.quote(s, safe='')`. */
  function Quote(s: string): string {
    if s == [] then "" else QuoteChar(s[0]) + Quote(s[1..])
  }

  /** What an encoding is made of: unreserved characters, and `%` followed by two hex digits. */
  predicate Encoded(e: string)
    decreases |e|
  {
    e == [] ||
    (Unreserved(e[0]) && Encoded(e[1..])) ||
    (|e| >= 3 && e[0] == '%' && IsHexDigit(e[1]) && IsHexDigit(e[2]) && Encoded(e[3..]))
  }

  lemma {:induction false} EncodedAppend(a: string, b: string)
    requires Encoded(a) && Encoded(b)
    ensures Encoded(a + b)
    decreases |a|
  {
    if a == [] {
      assert a + b == b;
    } else if Unreserved(a[0]) && Encoded(a[1..]) {
      EncodedAppend(a[1..], b);
      assert (a + b)[1..] == a[1..] + b;
    } else {
      EncodedAppend(a[3..], b);
      assert (a + b)[3..] == a[3..] + b;
    }
  }

  lemma {:induction false} PercentBytesEncoded(bytes: seq<nat>)
    requires forall k :: 0 <= k < |bytes| ==> bytes[k] < 256
    ensures Encoded(PercentBytes(bytes))
  {
    if bytes != [] {
      PercentBytesEncoded(bytes[1..]);
      var e := PercentBytes(bytes);
      assert e[3..] == PercentBytes(bytes[1..]);
    }
  }

  /** Every encoding is well formed. */
  lemma {:induction false} QuoteEncoded(s: string)
    ensures Encoded(Quote(s))
  {
    if s != [] {
      QuoteEncoded(s[1..]);
      if Unreserved(s[0]) {
        assert Encoded([s[0]]) by { assert [s[0]][1..] == []; }
      } else {
        PercentBytesEncoded(Utf8(s[0]));
      }
      EncodedAppend(QuoteChar(s[0]), Quote(s[1..]));
    }
  }

  /** An encoding holds no `/`: the project path stays one segment of the API URL. */
  lemma {:induction false} EncodedNoSlash(e: string)
    requires Encoded(e)
    ensures '/' !in e
    decreases |e|
  {
    if e != [] {
      if Unreserved(e[0]) && Encoded(e[1..]) {
        EncodedNoSlash(e[1..]);
        assert e == [e[0]] + e[1..];
      } else {
        EncodedNoSlash(e[3..]);
        assert e == e[..3] + e[3..];
      }
    }
  }

  lemma QuoteNoSlash(s: string)
    ensures '/' !in Quote(s)
  {
    QuoteEncoded(s);
    EncodedNoSlash(Quote(s));
  }

  /** Encoding works character by character. */
  lemma {:induction false} QuoteAppend(a: string, b: string)
    ensures Quote(a + b) == Quote(a) + Quote(b)
  {
    if a == [] {
      assert a + b == b;
    } else {
      assert (a + b)[0] == a[0];
      assert (a + b)[1..] == a[1..] + b;
      QuoteAppend(a[1..], b);
    }
  }

  /** A string of unreserved characters encodes to itself. */
  lemma {:induction false} QuoteUnreserved(s: string)
    requires forall k :: 0 <= k < |s| ==> Unreserved(s[k])
    ensures Quote(s) == s
  {
    if s != [] {
      QuoteUnreserved(s[1..]);
    }
  }

  /** Decoding of `%XX` escapes back to the characters below 0x80 they stand for. */
  function UnquoteAscii(e: string): string
    decreases |e|
  {
    if |e| >= 3 && e[0] == '%' && IsHexDigit(e[1]) && IsHexDigit(e[2])
    then [(HexValue(e[1]) * 16 + HexValue(e[2])) as char] + UnquoteAscii(e[3..])
    else if e == [] then ""
    else [e[0]] + UnquoteAscii(e[1..])
  }

  /** For text below 0x80 decoding inverts encoding. */
  lemma {:induction false} UnquoteQuote(s: string)
    requires forall k :: 0 <= k < |s| ==> s[k] as int < 0x80
    ensures UnquoteAscii(Quote(s)) == s
  {
    if s != [] {
      var c := s[0];
      UnquoteQuote(s[1..]);
      var e := Quote(s);
      if Unreserved(c) {
        assert e == [c] + Quote(s[1..]);
        assert e[1..] == Quote(s[1..]);
      } else {
        var b := c as int;
        assert Utf8(c) == [b];
        var hi, lo := HexDigit(b / 16), HexDigit(b % 16);
        assert PercentBytes([b]) == ['%', hi, lo] by {
          assert [b][1..] == [];
        }
        assert e == ['%', hi, lo] + Quote(s[1..]);
        assert e[3..] == Quote(s[1..]);
        assert HexValue(hi) * 16 + HexValue(lo) == b;
      }
    }
  }

  /** The API URL of a wiki page URL, or the 400 error for a URL with fewer than six
      `/`-separated parts. */
  function ExtractApiUrl(wikiUrl: string): Result<string, HttpError> {
    var parts := Split(wikiUrl, '/');
    if |parts| < 6 then Failure(HttpError(BadRequest, "Invalid wiki URL format: " + wikiUrl))
    else
      var projectPath := Join(parts[3..5], '/');
      Success(parts[0] + "//" + parts[2] + "/api/v4/projects/" + Quote(projectPath) + "/wikis/" + parts[|parts| - 1])
  }

  /** A URL is rejected exactly when it has fewer than five `/`; the error names the URL. */
  lemma Rejects(wikiUrl: string)
    ensures ExtractApiUrl(wikiUrl).Failure? <==> Count(wikiUrl, '/') < 5
    ensures ExtractApiUrl(wikiUrl).Failure? ==>
      ExtractApiUrl(wikiUrl).error == HttpError(400, "Invalid wiki URL format: " + wikiUrl)
  {
    SplitCount(wikiUrl, '/');
  }

  /** `/` is encoded as `%2F`. */
  lemma QuoteSlash()
    ensures Quote("/") == "%2F"
  {
    assert Utf8('/') == [47];
    assert PercentBytes([47]) == ['%', HexDigit(2), HexDigit(15)] + PercentBytes([]);
  }

  /** A URL assembled from `/`-free segments converts segment-wise: group and project are
      encoded and joined by `%2F`, the page is the last segment, the middle ones are dropped. */
  lemma FromSegments(parts: seq<string>)
    requires |parts| >= 6 && forall k :: 0 <= k < |parts| ==> '/' !in parts[k]
    ensures ExtractApiUrl(Join(parts, '/')) == Success(
      parts[0] + "//" + parts[2] + "/api/v4/projects/" + (Quote(parts[3]) + "%2F" + Quote(parts[4]))
        + "/wikis/" + parts[|parts| - 1])
  {
    SplitJoin(parts, '/');
    FromParts(Join(parts, '/'), parts);
  }

  lemma FromParts(wikiUrl: string, parts: seq<string>)
    requires Split(wikiUrl, '/') == parts && |parts| >= 6
    ensures ExtractApiUrl(wikiUrl) == Success(
      parts[0] + "//" + parts[2] + "/api/v4/projects/" + (Quote(parts[3]) + "%2F" + Quote(parts[4]))
        + "/wikis/" + parts[|parts| - 1])
  {
    ProjectPath(parts);
  }

  /** The project path, parts 3 and 4 rejoined, is encoded with `%2F` between them. */
  lemma ProjectPath(parts: seq<string>)
    requires |parts| >= 5
    ensures Quote(Join(parts[3..5], '/')) == Quote(parts[3]) + "%2F" + Quote(parts[4])
  {
    var path := parts[3..5];
    assert path == [parts[3]] + [parts[4]];
    JoinCons(parts[3], [parts[4]], '/');
    QuoteAppend(parts[3] + "/", parts[4]);
    QuoteAppend(parts[3], "/");
    QuoteSlash();
  }

  /** The wiki URL of the backend's own conversion script, given by its `/`-separated segments. */
  lemma ScriptExample(parts: seq<string>)
    requires parts == ["http:", "", "mint.systemhaus.com.br:9070", "document-group", "systemhaus-pt_br", "-", "wikis", "antara_links"]
    ensures ExtractApiUrl(Join(parts, '/')) == Success("http:" + "//" + "mint.systemhaus.com.br:9070"
      + "/api/v4/projects/" + ("document-group" + "%2F" + "systemhaus-pt_br") + "/wikis/" + "antara_links")
  {
    ScriptExampleSegments(parts);
    FromSegments(parts);
    QuoteUnreserved(parts[3]);
    QuoteUnreserved(parts[4]);
    assert parts[0] == "http:" && parts[2] == "mint.systemhaus.com.br:9070";
    assert parts[3] == "document-group" && parts[4] == "systemhaus-pt_br";
    assert parts[|parts| - 1] == "antara_links";
  }

  lemma ScriptExampleSegments(parts: seq<string>)
    requires parts == ["http:", "", "mint.systemhaus.com.br:9070", "document-group", "systemhaus-pt_br", "-", "wikis", "antara_links"]
    ensures forall k :: 0 <= k < |parts| ==> '/' !in parts[k]
    ensures forall k :: 0 <= k < |parts[3]| ==> Unreserved(parts[3][k])
    ensures forall k :: 0 <= k < |parts[4]| ==> Unreserved(parts[4][k])
  {
  }
}
