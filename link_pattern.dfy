/**
 * The markdown link pattern both wiki parsers search lines with: `findall` of
 * `\[([^\]]+)\]\(([^\)]+)\)`, written as a direct scanner.  At each position the
 * pattern either matches (and scanning resumes after the match) or scanning moves
 * on by one character, so matches are found left to right and never overlap.
 */
module LinkPattern {
  import opened Wrappers
  import opened Text

  /** One match of the pattern: its two groups and the text after it. */
  datatype Match = Match(text: string, url: string, rest: string)

  /** The text a match with these groups spans. */
  function Shape(text: string, url: string): string {
    "[" + text + "](" + url + ")"
  }

  /** What the two groups may hold: at least one character, and no closing bracket or parenthesis. */
  predicate ValidGroups(text: string, url: string) {
    text != [] && url != [] && ']' !in text && ')' !in url
  }

  /** The pattern anchored at the start of `s`. */
  function MatchAt(s: string): (r: Option<Match>)
    ensures r.Some? ==> ValidGroups(r.value.text, r.value.url)
    ensures r.Some? ==> s == Shape(r.value.text, r.value.url) + r.value.rest
  {
    if s == [] || s[0] != '[' then None
    else
      var afterOpen := SplitOnce(s[1..], ']');
      if afterOpen.None? then None
      else
        var text := afterOpen.value.0;
        var c := afterOpen.value.1;
        if text == [] || c == [] || c[0] != '(' then None
        else
          var afterParen := SplitOnce(c[1..], ')');
          if afterParen.None? then None
          else
            var url := afterParen.value.0;
            var rest := afterParen.value.1;
            if url == [] then None
            else
              Reassemble(s, text, c, url, rest);
              Some(Match(text, url, rest))
  }

  lemma Reassemble(s: string, text: string, c: string, url: string, rest: string)
    requires s != [] && s[0] == '[' && s[1..] == text + "]" + c
    requires c != [] && c[0] == '(' && c[1..] == url + ")" + rest
    ensures s == Shape(text, url) + rest
  {
    assert s == "[" + s[1..];
    assert c == "(" + c[1..];
  }

  /** A string that begins with a well-formed link matches exactly that link: the groups
      cannot be chosen any other way. */
  lemma MatchAtShape(text: string, url: string, rest: string)
    requires ValidGroups(text, url)
    ensures MatchAt(Shape(text, url) + rest) == Some(Match(text, url, rest))
  {
    var s := Shape(text, url) + rest;
    assert s[1..] == text + "]" + ("(" + url + ")" + rest);
    SplitOnceAt(text, "(" + url + ")" + rest, ']');
    var c := "(" + url + ")" + rest;
    assert c[1..] == url + ")" + rest;
    SplitOnceAt(url, rest, ')');
  }

  /** A string that does not begin with `[` does not match. */
  lemma MatchAtNoBracket(s: string)
    requires s == [] || s[0] != '['
    ensures MatchAt(s) == None
  {
  }

  /** All non-overlapping matches, left to right, as (text, url) pairs. */
  function Scan(s: string): (ms: seq<(string, string)>)
    ensures forall k :: 0 <= k < |ms| ==> ValidGroups(ms[k].0, ms[k].1)
    decreases |s|
  {
    if s == [] then []
    else
      var m := MatchAt(s);
      if m.Some? then [(m.value.text, m.value.url)] + Scan(m.value.rest) else Scan(s[1..])
  }

  /** Text before the first `[` contributes no match. */
  lemma {:induction false} ScanSkip(p: string, s: string)
    requires '[' !in p
    ensures Scan(p + s) == Scan(s)
    decreases |p|
  {
    if p == [] {
      assert p + s == s;
    } else {
      assert (p + s)[0] == p[0];
      MatchAtNoBracket(p + s);
      assert (p + s)[1..] == p[1..] + s;
      ScanSkip(p[1..], s);
    }
  }

  /** A string with no `[` has no match. */
  lemma ScanNone(s: string)
    requires '[' !in s
    ensures Scan(s) == []
  {
    ScanSkip(s, "");
    assert s + "" == s;
  }

  /** A well-formed link is found, and scanning resumes right after it. */
  lemma ScanShape(text: string, url: string, rest: string)
    requires ValidGroups(text, url)
    ensures Scan(Shape(text, url) + rest) == [(text, url)] + Scan(rest)
  {
    MatchAtShape(text, url, rest);
  }
}
