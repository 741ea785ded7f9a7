/**
 * The older, self-contained wiki parser of the backend's parser script.  A
 * header line is any non-empty stripped line that does not start with `*`, `-`
 * or `#`; its first word (or first two, after the flag emoji) is the country
 * and the remaining words the product.  The absent country, product and
 * environment (`None`) are the empty string: they are only checked for truth
 * or replaced by `""`.
 */
module LegacyParser {
  import opened Text
  import opened Models
  import opened LinkPattern
  import WikiParser

  /** The Brazilian flag emoji as it appears in the script's text, its UTF-8 bytes read as
      Windows-1252: `ð`, `Ÿ`, `‡`, `§`, `ð`, `Ÿ`, `‡`, `·`. */
  const Flag: string := ['ð', 'Ÿ', '‡', '§', 'ð', 'Ÿ', '‡', '·']

  datatype Parser = Parser(groups: seq<ProductGroup>, country: string, product: string, env: string,
                           links: seq<LinkItem>)

  const Start := Parser([], "", "", "", [])

  /** Python `str.isupper` on ASCII letters: some upper-case letter and no lower-case one. */
  predicate IsUpper(s: string) {
    (exists i :: 0 <= i < |s| && 'A' <= s[i] <= 'Z') && forall i :: 0 <= i < |s| ==> !('a' <= s[i] <= 'z')
  }

  predicate IsBullet(t: string) {
    StartsWith(t, "*") || StartsWith(t, "-")
  }

  /** A stripped line that takes the header branch. */
  predicate IsHeader(t: string) {
    t != [] && !IsBullet(t) && !StartsWith(t, "#")
  }

  /** The country a header of at least two words names. */
  function Country(ws: seq<string>): string
    requires |ws| >= 2
  {
    if StartsWith(ws[0], Flag) then JoinWith(ws[..2], " ") else ws[0]
  }

  /** The product a header of at least two words names. */
  function Product(ws: seq<string>): string
    requires |ws| >= 2
  {
    if |ws| > 2 then JoinWith(ws[2..], " ") else ""
  }

  /** The pending group may be emitted: a country and at least one link. */
  predicate Ready(p: Parser) {
    p.country != "" && p.links != []
  }

  function Pending(p: Parser): ProductGroup {
    ProductGroup(p.country, p.product, p.env, p.links)
  }

  datatype Line = Header(words: seq<string>) | Environment(name: string) | Bullet(items: seq<LinkItem>) | Other

  /** What a line is to the parser; every test is on the stripped line. */
  function Classify(line: string): Line {
    var t := Strip(line);
    if IsHeader(t) then Header(Words(t))
    else if t != [] && !IsBullet(t) && IsUpper(t) then Environment(t)
    else if IsBullet(t) then Bullet(WikiParser.LinkItems(Scan(t)))
    else Other
  }

  function Apply(p: Parser, line: Line): Parser {
    match line
    case Header(ws) =>
      var q := if Ready(p) then p.(groups := p.groups + [Pending(p)], links := []) else p;
      if |ws| >= 2 then q.(country := Country(ws), product := Product(ws)) else q
    case Environment(name) => p.(env := name)
    case Bullet(items) => p.(links := p.links + items)
    case Other => p
  }

  function Step(p: Parser, line: string): Parser {
    Apply(p, Classify(line))
  }

  function Run(p: Parser, lines: seq<string>): Parser {
    if lines == [] then p else Step(Run(p, lines[..|lines| - 1]), lines[|lines| - 1])
  }

  /** The groups returned at the end of the input: a ready pending group is emitted last. */
  function Finish(p: Parser): seq<ProductGroup> {
    if Ready(p) then p.groups + [Pending(p)] else p.groups
  }

  function Parse(content: string): seq<ProductGroup> {
    Finish(Run(Start, Split(content, '\n')))
  }

  /** The script's parsing loop. */
  method ParseMarkdownLinks(content: string) returns (groups: seq<ProductGroup>)
    ensures groups == Parse(content)
  {
    var lines := Split(content, '\n');
    groups := [];
    var country, product, env, links := "", "", "", [];
    var i := 0;
    while i < |lines|
      invariant 0 <= i <= |lines|
      invariant Parser(groups, country, product, env, links) == Run(Start, lines[..i])
    {
      groups, country, product, env, links := ReadLine(groups, country, product, env, links, lines[i]);
      TakeNext(lines, i);
      i := i + 1;
    }
    assert lines[..i] == lines;
    if country != "" && links != [] {
      groups := groups + [ProductGroup(country, product, env, links)];
    }
  }

  /** One turn of the loop. */
  method ReadLine(groups0: seq<ProductGroup>, country0: string, product0: string, env0: string,
                  links0: seq<LinkItem>, original: string)
    returns (groups: seq<ProductGroup>, country: string, product: string, env: string, links: seq<LinkItem>)
    ensures Parser(groups, country, product, env, links)
         == Step(Parser(groups0, country0, product0, env0, links0), original)
  {
    groups, country, product, env, links := groups0, country0, product0, env0, links0;
    var line := Strip(original);
    if line != [] && !StartsWith(line, "*") && !StartsWith(line, "-") && !StartsWith(line, "#") {
      assert Classify(original) == Header(Words(line));
      if country != "" && links != [] {
        groups := groups + [ProductGroup(country, product, env, links)];
        links := [];
      }
      var parts := Words(line);
      if |parts| >= 2 {
        country := if StartsWith(parts[0], Flag) then JoinWith(parts[..2], " ") else parts[0];
        product := if |parts| > 2 then JoinWith(parts[2..], " ") else "";
      }
    } else if line != [] && !StartsWith(line, "*") && !StartsWith(line, "-") && IsUpper(line) {
      assert Classify(original) == Environment(line);
      env := line;
    } else if StartsWith(line, "*") || StartsWith(line, "-") {
      assert Classify(original) == Bullet(WikiParser.LinkItems(Scan(line)));
      links := WikiParser.AppendMatches(links, Scan(line));
    } else {
      assert Classify(original) == Other;
    }
  }

  // ---------------------------------------------------------------- single lines

  /** A header line emits the pending group exactly when a country is set and links exist,
      and only then clears the links; with two words or more it sets the country and the
      product, with one it changes neither; it never touches the environment. */
  lemma HeaderLine(p: Parser, line: string)
    requires IsHeader(Strip(line))
    ensures var q, ws := Step(p, line), Words(Strip(line));
      && q.env == p.env
      && q.groups == (if Ready(p) then p.groups + [Pending(p)] else p.groups)
      && q.links == (if Ready(p) then [] else p.links)
      && (|ws| >= 2 ==>
            && q.country == (if StartsWith(ws[0], Flag) then ws[0] + " " + ws[1] else ws[0])
            && q.product == (if |ws| > 2 then JoinWith(ws[2..], " ") else ""))
      && (|ws| < 2 ==> q.country == p.country && q.product == p.product)
  {
    var ws := Words(Strip(line));
    if |ws| >= 2 {
      assert JoinWith(ws[..2], " ") == ws[0] + " " + ws[1] by {
        assert ws[..2][1..] == [ws[1]];
      }
    }
  }

  /** The environment branch is taken exactly for a stripped line that starts with `#`
      and is upper case. */
  lemma EnvironmentLine(line: string)
    ensures Classify(line).Environment? <==> StartsWith(Strip(line), "#") && IsUpper(Strip(line))
  {
    var t := Strip(line);
    if StartsWith(t, "#") {
      assert t[0] == '#';
      assert !IsBullet(t);
    }
  }

  /** So an upper-case line such as `PTA` is a one-word header: it sets no environment
      and leaves country and product as they were. */
  lemma UpperWordIsHeader(p: Parser, line: string)
    requires line == "PTA"
    ensures Classify(line) == Header(["PTA"])
    ensures Step(p, line).env == p.env && Step(p, line).country == p.country && Step(p, line).product == p.product
  {
    assert Strip(line) == line by {
      assert TrimLeft(line) == line;
      assert TrimRight(line) == line;
    }
    assert line[..1] == "P";
    assert !IsBullet(line) && !StartsWith(line, "#");
    WordsOne(line);
    assert Classify(line) == Header(["PTA"]);
  }

  /** A bullet line appends every `[name](url)` match of the stripped line, stripped, in
      order, and changes nothing else. */
  lemma BulletLine(p: Parser, line: string)
    requires IsBullet(Strip(line))
    ensures Step(p, line) == p.(links := p.links + WikiParser.LinkItems(Scan(Strip(line))))
  {
    var t := Strip(line);
    assert t[0] == '*' || t[0] == '-';
  }

  // ---------------------------------------------------------------- whole runs

  predicate AllReady(groups: seq<ProductGroup>) {
    forall k :: 0 <= k < |groups| ==> groups[k].country != "" && groups[k].links != []
  }

  lemma {:induction false} RunReady(p: Parser, lines: seq<string>)
    requires AllReady(p.groups)
    ensures AllReady(Run(p, lines).groups)
  {
    if lines != [] {
      RunReady(p, lines[..|lines| - 1]);
      var q := Run(p, lines[..|lines| - 1]);
      if Ready(q) {
        assert (q.groups + [Pending(q)])[..|q.groups|] == q.groups;
      }
    }
  }

  /** Every group returned has a country and at least one link. */
  lemma GroupsReady(content: string)
    ensures AllReady(Parse(content))
  {
    var p := Run(Start, Split(content, '\n'));
    RunReady(Start, Split(content, '\n'));
    if Ready(p) {
      assert (p.groups + [Pending(p)])[..|p.groups|] == p.groups;
    }
  }

  // ---------------------------------------------------------------- the bundled sample

  /** A bullet line `prefix[text](url)` holds that one link. */
  lemma BulletClassify(prefix: string, text: string, url: string)
    requires prefix == "- " || prefix == "* - "
    requires ValidGroups(text, url) && Strip(text) == text && Strip(url) == url
    ensures Classify(prefix + Shape(text, url)) == Bullet([LinkItem(text, url)])
  {
    var line := prefix + Shape(text, url);
    assert line[0] == prefix[0];
    assert line[|line| - 1] == ')';
    assert Strip(line) == line by {
      assert TrimLeft(line) == line;
      assert TrimRight(line) == line;
    }
    assert IsBullet(line);
    ScanSkip(prefix, Shape(text, url));
    ScanShape(text, url, "");
    assert Shape(text, url) + "" == Shape(text, url);
    assert Scan("") == [];
    assert WikiParser.LinkItems([(text, url)]) == [LinkItem(text, url)];
  }

  /** A header line of words separated by single spaces. */
  lemma HeaderClassify(line: string, ws: seq<string>)
    requires line == JoinWith(ws, " ") && ws != []
    requires forall k :: 0 <= k < |ws| ==> ws[k] != [] && forall i :: 0 <= i < |ws[k]| ==> !IsSpace(ws[k][i])
    requires ws[0][0] != '*' && ws[0][0] != '-' && ws[0][0] != '#'
    ensures Classify(line) == Header(ws)
  {
    WordsJoin(ws);
    JoinWithEnds(ws);
    assert Strip(line) == line by {
      assert TrimLeft(line) == line;
      assert TrimRight(line) == line;
    }
    assert IsHeader(line);
  }

  lemma {:induction false} JoinWithEnds(ws: seq<string>)
    requires ws != [] && forall k :: 0 <= k < |ws| ==> ws[k] != []
    ensures var j := JoinWith(ws, " "); j != [] && j[0] == ws[0][0] && j[|j| - 1] == ws[|ws| - 1][|ws[|ws| - 1]| - 1]
  {
    if |ws| > 1 {
      var tail := ws[1..];
      JoinWithEnds(tail);
      var rest := JoinWith(tail, " ");
      var j := ws[0] + " " + rest;
      assert JoinWith(ws, " ") == j;
      assert j[0] == ws[0][0];
      assert j[|j| - 1] == rest[|rest| - 1];
      assert tail[|tail| - 1] == ws[|ws| - 1];
    } else {
      assert JoinWith(ws, " ") == ws[0];
    }
  }

  /** The state after a sequence of already classified lines. */
  function Replay(p: Parser, ls: seq<Line>): Parser {
    if ls == [] then p else Apply(Replay(p, ls[..|ls| - 1]), ls[|ls| - 1])
  }

  /** Running the lines is replaying their classifications. */
  lemma {:induction false} RunReplay(p: Parser, lines: seq<string>, ls: seq<Line>)
    requires |lines| == |ls| && forall k :: 0 <= k < |lines| ==> Classify(lines[k]) == ls[k]
    ensures Run(p, lines) == Replay(p, ls)
  {
    if lines != [] {
      var n := |lines| - 1;
      RunReplay(p, lines[..n], ls[..n]);
    }
  }

  lemma ReplayNext(p: Parser, ls: seq<Line>, i: nat)
    requires i < |ls|
    ensures Replay(p, ls[..i + 1]) == Apply(Replay(p, ls[..i]), ls[i])
  {
    assert ls[..i + 1][..i] == ls[..i];
  }

  /** A run of one-link bullets appends those links in order. */
  lemma {:induction false} Bullets(ls: seq<Line>, lo: nat, n: nat, items: seq<LinkItem>)
    requires lo + n <= |ls| && n <= |items|
    requires forall k :: 0 <= k < n ==> ls[lo + k] == Bullet([items[k]])
    ensures Replay(Start, ls[..lo + n]) == Replay(Start, ls[..lo]).(links := Replay(Start, ls[..lo]).links + items[..n])
  {
    if n == 0 {
      assert Replay(Start, ls[..lo]).links + items[..0] == Replay(Start, ls[..lo]).links;
    } else {
      Bullets(ls, lo, n - 1, items);
      ReplayNext(Start, ls, lo + n - 1);
      assert ls[lo + (n - 1)] == Bullet([items[n - 1]]);
      assert items[..n] == items[..n - 1] + [items[n - 1]];
    }
  }

  /** The sample's shape once classified: a blank, a header, a one-word header, five
      bullets, a blank, a header, a one-word header, three bullets and a blank. */
  function SampleShape(h0: seq<string>, h1: seq<string>, a: seq<LinkItem>, b: seq<LinkItem>): seq<Line>
    requires |a| == 5 && |b| == 3
  {
    [Other, Header(h0), Header(["PTA"]),
     Bullet([a[0]]), Bullet([a[1]]), Bullet([a[2]]), Bullet([a[3]]), Bullet([a[4]]),
     Other, Header(h1), Header(["PROD"]),
     Bullet([b[0]]), Bullet([b[1]]), Bullet([b[2]]), Other]
  }

  lemma ShapeFirst(ls: seq<Line>, h0: seq<string>, h1: seq<string>, a: seq<LinkItem>, b: seq<LinkItem>)
    requires |a| == 5 && |b| == 3 && |h0| >= 2 && ls == SampleShape(h0, h1, a, b)
    ensures Replay(Start, ls[..8]) == Parser([], Country(h0), Product(h0), "", a)
  {
    assert ls[..0] == [];
    ReplayNext(Start, ls, 0);
    ReplayNext(Start, ls, 1);
    ReplayNext(Start, ls, 2);
    assert Replay(Start, ls[..3]) == Parser([], Country(h0), Product(h0), "", []);
    assert forall k :: 0 <= k < 5 ==> ls[3 + k] == Bullet([a[k]]);
    Bullets(ls, 3, 5, a);
    assert a[..5] == a;
  }

  lemma ShapeSecond(ls: seq<Line>, h0: seq<string>, h1: seq<string>, a: seq<LinkItem>, b: seq<LinkItem>)
    requires |a| == 5 && |b| == 3 && |h0| >= 2 && |h1| >= 2 && Country(h0) != ""
    requires ls == SampleShape(h0, h1, a, b)
    ensures Replay(Start, ls[..14]) == Parser([ProductGroup(Country(h0), Product(h0), "", a)], Country(h1), Product(h1), "", b)
  {
    ShapeFirst(ls, h0, h1, a, b);
    var g0 := ProductGroup(Country(h0), Product(h0), "", a);
    ReplayNext(Start, ls, 8);
    ReplayNext(Start, ls, 9);
    var q10 := Parser([g0], Country(h1), Product(h1), "", []);
    assert Replay(Start, ls[..10]) == q10;
    ReplayNext(Start, ls, 10);
    assert Replay(Start, ls[..11]) == q10;
    assert forall k :: 0 <= k < 3 ==> ls[11 + k] == Bullet([b[k]]);
    Bullets(ls, 11, 3, b);
    assert b[..3] == b;
  }

  lemma ShapeGroups(ls: seq<Line>, h0: seq<string>, h1: seq<string>, a: seq<LinkItem>, b: seq<LinkItem>)
    requires |a| == 5 && |b| == 3 && |h0| >= 2 && |h1| >= 2 && Country(h0) != "" && Country(h1) != ""
    requires ls == SampleShape(h0, h1, a, b)
    ensures Finish(Replay(Start, ls)) == [ProductGroup(Country(h0), Product(h0), "", a),
                                         ProductGroup(Country(h1), Product(h1), "", b)]
  {
    ShapeSecond(ls, h0, h1, a, b);
    ReplayNext(Start, ls, 14);
    assert ls[..15] == ls;
  }

  /** A bullet line of the sample, its text and url without white space at either end. */
  lemma SampleBullet(line: string, prefix: string, text: string, url: string)
    requires prefix == "- " || prefix == "* - "
    requires line == prefix + Shape(text, url)
    requires text != [] && url != [] && ']' !in text && ')' !in url
    requires !IsSpace(text[0]) && !IsSpace(text[|text| - 1]) && !IsSpace(url[0]) && !IsSpace(url[|url| - 1])
    ensures Classify(line) == Bullet([LinkItem(text, url)])
  {
    assert Strip(text) == text by {
      assert TrimLeft(text) == text;
      assert TrimRight(text) == text;
    }
    assert Strip(url) == url by {
      assert TrimLeft(url) == url;
      assert TrimRight(url) == url;
    }
    BulletClassify(prefix, text, url);
  }

  // The sample page of the script, line by line.  Long literals are written as
  // concatenations of shorter ones, and each bullet as `prefix + Shape(text, url)`,
  // which is the line `prefix[text](url)`.
  const PtaHost := "http://pta.antara.abuhler" + ".com.br:8095/"
  const AntaraUrl := PtaHost + "antara/antara.jnlp"
  const SelectionUrl := PtaHost + "antara/selectionPO.jnlp"
  const ProductionUrl := PtaHost + "antara/AntaraProduction.jnlp"
  const AntaraEdUrl := "http://pta-antara-ed" + ".antara.abuhler.com.br:8095/"
  const ManagementUrl := "http://pta-management" + ".antara.abuhler.com.br:8095/"
  const DashboardUrl := "http://prod.dashboard" + ".example.com:8080/"
  const AdminUrl := "http://prod.admin" + ".example.com:8080/admin"
  const ReportsUrl := "http://prod.reports" + ".example.com:8080/reports"

  const FirstHeader := [Flag, "A.Buhler", "Compose", "6.0"]
  const SecondHeader := [Flag, "Another", "Product", "System", "2.0"]

  /** The sample page split at its newlines; it begins and ends with one, hence the
      empty first and last lines. */
  const SampleLines: seq<string> := [
    "",
    Flag + " A.Buhler Compose 6.0",
    "PTA",
    "* - " + Shape("Antara", AntaraUrl),
    "- " + Shape("SelectionPO", SelectionUrl),
    "- " + Shape("Production", ProductionUrl),
    "- " + Shape("AntaraED", AntaraEdUrl),
    "- " + Shape("Management", ManagementUrl),
    "",
    Flag + " Another Product System 2.0",
    "PROD",
    "- " + Shape("Dashboard", DashboardUrl),
    "- " + Shape("Admin", AdminUrl),
    "- " + Shape("Reports", ReportsUrl),
    ""
  ]

  const FirstLinks := [LinkItem("Antara", AntaraUrl), LinkItem("SelectionPO", SelectionUrl),
                       LinkItem("Production", ProductionUrl), LinkItem("AntaraED", AntaraEdUrl),
                       LinkItem("Management", ManagementUrl)]
  const SecondLinks := [LinkItem("Dashboard", DashboardUrl), LinkItem("Admin", AdminUrl),
                        LinkItem("Reports", ReportsUrl)]

  lemma HeaderNames()
    ensures Country(FirstHeader) == Flag + " A.Buhler" && Product(FirstHeader) == "Compose 6.0"
    ensures Country(SecondHeader) == Flag + " Another" && Product(SecondHeader) == "Product System 2.0"
  {
    assert StartsWith(FirstHeader[0], Flag) && StartsWith(SecondHeader[0], Flag);
    assert FirstHeader[..2][1..] == ["A.Buhler"] && SecondHeader[..2][1..] == ["Another"];
    assert JoinWith(FirstHeader[..2], " ") == Flag + " " + "A.Buhler";
    assert JoinWith(SecondHeader[..2], " ") == Flag + " " + "Another";
    assert FirstHeader[2..][1..] == ["6.0"];
    assert JoinWith(FirstHeader[2..], " ") == "Compose" + " " + "6.0";
    assert SecondHeader[2..][1..] == ["System", "2.0"];
    assert SecondHeader[2..][1..][1..] == ["2.0"];
    assert JoinWith(SecondHeader[2..][1..], " ") == "System" + " " + "2.0";
    assert JoinWith(SecondHeader[2..], " ") == "Product" + " " + ("System" + " " + "2.0");
  }

  lemma SampleOthers(l0: string, l2: string, l10: string)
    requires l0 == "" && l2 == "PTA" && l10 == "PROD"
    ensures Classify(l0) == Other && Classify(l2) == Header(["PTA"]) && Classify(l10) == Header(["PROD"])
  {
    assert Strip("") == "";
    UpperWordIsHeader(Start, l2);
    assert Strip(l10) == l10 by {
      assert TrimLeft(l10) == l10;
      assert TrimRight(l10) == l10;
    }
    WordsOne(l10);
  }

  lemma SampleFirstBullets(l3: string, l4: string, l5: string, l6: string, l7: string)
    requires l3 == "* - " + Shape("Antara", AntaraUrl) && l4 == "- " + Shape("SelectionPO", SelectionUrl)
    requires l5 == "- " + Shape("Production", ProductionUrl) && l6 == "- " + Shape("AntaraED", AntaraEdUrl)
    requires l7 == "- " + Shape("Management", ManagementUrl)
    ensures Classify(l3) == Bullet([FirstLinks[0]]) && Classify(l4) == Bullet([FirstLinks[1]])
    ensures Classify(l5) == Bullet([FirstLinks[2]]) && Classify(l6) == Bullet([FirstLinks[3]])
    ensures Classify(l7) == Bullet([FirstLinks[4]])
  {
    AntaraLine(l3);
    SelectionPOLine(l4);
    ProductionLine(l5);
    AntaraEDLine(l6);
    ManagementLine(l7);
  }

  lemma SampleSecondBullets(l11: string, l12: string, l13: string)
    requires l11 == "- " + Shape("Dashboard", DashboardUrl) && l12 == "- " + Shape("Admin", AdminUrl)
    requires l13 == "- " + Shape("Reports", ReportsUrl)
    ensures Classify(l11) == Bullet([SecondLinks[0]]) && Classify(l12) == Bullet([SecondLinks[1]])
    ensures Classify(l13) == Bullet([SecondLinks[2]])
  {
    DashboardLine(l11);
    AdminLine(l12);
    ReportsLine(l13);
  }

  /** Fifteen lines classified one by one run as their classifications replay. */
  lemma ClassifiedRun(lines: seq<string>, ls: seq<Line>)
    requires |lines| == 15 && |ls| == 15
    requires Classify(lines[0]) == ls[0] && Classify(lines[1]) == ls[1] && Classify(lines[2]) == ls[2]
    requires Classify(lines[3]) == ls[3] && Classify(lines[4]) == ls[4] && Classify(lines[5]) == ls[5]
    requires Classify(lines[6]) == ls[6] && Classify(lines[7]) == ls[7] && Classify(lines[8]) == ls[8]
    requires Classify(lines[9]) == ls[9] && Classify(lines[10]) == ls[10] && Classify(lines[11]) == ls[11]
    requires Classify(lines[12]) == ls[12] && Classify(lines[13]) == ls[13] && Classify(lines[14]) == ls[14]
    ensures Run(Start, lines) == Replay(Start, ls)
  {
    forall k | 0 <= k < 15 ensures Classify(lines[k]) == ls[k] {
      assert k == 0 || k == 1 || k == 2 || k == 3 || k == 4 || k == 5 || k == 6 || k == 7
          || k == 8 || k == 9 || k == 10 || k == 11 || k == 12 || k == 13 || k == 14;
    }
    RunReplay(Start, lines, ls);
  }

  /** On the bundled sample the parser returns two groups, of five and three links, both
      with the empty environment: `PTA` and `PROD` are read as one-word headers. */
  lemma SampleGroups(lines: seq<string>)
    requires lines == SampleLines
    ensures Finish(Run(Start, lines)) == [ProductGroup(Flag + " A.Buhler", "Compose 6.0", "", FirstLinks),
                                          ProductGroup(Flag + " Another", "Product System 2.0", "", SecondLinks)]
  {
    SampleLinesRun(lines);
    HeaderNames();
    ShapeGroups(SampleShape(FirstHeader, SecondHeader, FirstLinks, SecondLinks), FirstHeader, SecondHeader, FirstLinks, SecondLinks);
  }

  lemma SampleLinesRun(lines: seq<string>)
    requires lines == SampleLines
    ensures Run(Start, lines) == Replay(Start, SampleShape(FirstHeader, SecondHeader, FirstLinks, SecondLinks))
  {
    var ls := SampleShape(FirstHeader, SecondHeader, FirstLinks, SecondLinks);
    SampleFirstHalf(lines);
    SampleSecondHalf(lines);
    ClassifiedRun(lines, ls);
  }

  lemma SampleFirstHalf(lines: seq<string>)
    requires lines == SampleLines
    ensures Classify(lines[0]) == Other && Classify(lines[1]) == Header(FirstHeader) && Classify(lines[2]) == Header(["PTA"])
    ensures Classify(lines[3]) == Bullet([FirstLinks[0]]) && Classify(lines[4]) == Bullet([FirstLinks[1]])
    ensures Classify(lines[5]) == Bullet([FirstLinks[2]]) && Classify(lines[6]) == Bullet([FirstLinks[3]])
    ensures Classify(lines[7]) == Bullet([FirstLinks[4]])
  {
    FirstHeaderLine(lines[1]);
    SampleOthers(lines[0], lines[2], lines[10]);
    SampleFirstBullets(lines[3], lines[4], lines[5], lines[6], lines[7]);
  }

  lemma SampleSecondHalf(lines: seq<string>)
    requires lines == SampleLines
    ensures Classify(lines[8]) == Other && Classify(lines[9]) == Header(SecondHeader) && Classify(lines[10]) == Header(["PROD"])
    ensures Classify(lines[11]) == Bullet([SecondLinks[0]]) && Classify(lines[12]) == Bullet([SecondLinks[1]])
    ensures Classify(lines[13]) == Bullet([SecondLinks[2]]) && Classify(lines[14]) == Other
  {
    SecondHeaderLine(lines[9]);
    SampleOthers(lines[8], lines[2], lines[10]);
    assert lines[14] == lines[8];
    SampleSecondBullets(lines[11], lines[12], lines[13]);
  }

  // One lemma per bullet line of the sample keeps each literal's facts in a small proof.

  lemma AntaraLine(line: string)
    requires line == "* - " + Shape("Antara", AntaraUrl)
    ensures Classify(line) == Bullet([LinkItem("Antara", AntaraUrl)])
  {
    SampleBullet(line, "* - ", "Antara", AntaraUrl);
  }

  lemma SelectionPOLine(line: string)
    requires line == "- " + Shape("SelectionPO", SelectionUrl)
    ensures Classify(line) == Bullet([LinkItem("SelectionPO", SelectionUrl)])
  {
    SampleBullet(line, "- ", "SelectionPO", SelectionUrl);
  }

  lemma ProductionLine(line: string)
    requires line == "- " + Shape("Production", ProductionUrl)
    ensures Classify(line) == Bullet([LinkItem("Production", ProductionUrl)])
  {
    SampleBullet(line, "- ", "Production", ProductionUrl);
  }

  lemma AntaraEDLine(line: string)
    requires line == "- " + Shape("AntaraED", AntaraEdUrl)
    ensures Classify(line) == Bullet([LinkItem("AntaraED", AntaraEdUrl)])
  {
    SampleBullet(line, "- ", "AntaraED", AntaraEdUrl);
  }

  lemma ManagementLine(line: string)
    requires line == "- " + Shape("Management", ManagementUrl)
    ensures Classify(line) == Bullet([LinkItem("Management", ManagementUrl)])
  {
    SampleBullet(line, "- ", "Management", ManagementUrl);
  }

  lemma DashboardLine(line: string)
    requires line == "- " + Shape("Dashboard", DashboardUrl)
    ensures Classify(line) == Bullet([LinkItem("Dashboard", DashboardUrl)])
  {
    SampleBullet(line, "- ", "Dashboard", DashboardUrl);
  }

  lemma AdminLine(line: string)
    requires line == "- " + Shape("Admin", AdminUrl)
    ensures Classify(line) == Bullet([LinkItem("Admin", AdminUrl)])
  {
    SampleBullet(line, "- ", "Admin", AdminUrl);
  }

  lemma ReportsLine(line: string)
    requires line == "- " + Shape("Reports", ReportsUrl)
    ensures Classify(line) == Bullet([LinkItem("Reports", ReportsUrl)])
  {
    SampleBullet(line, "- ", "Reports", ReportsUrl);
  }

  lemma FirstHeaderLine(line: string)
    requires line == Flag + " A.Buhler Compose 6.0"
    ensures Classify(line) == Header(FirstHeader)
  {
    var w := FirstHeader;
    assert JoinWith(w[3..], " ") == "6.0";
    assert w[2..][1..] == w[3..];
    assert JoinWith(w[2..], " ") == "Compose" + " " + "6.0";
    assert w[1..][1..] == w[2..];
    assert JoinWith(w[1..], " ") == "A.Buhler" + " " + ("Compose" + " " + "6.0");
    HeaderClassify(line, w);
  }

  lemma SecondHeaderLine(line: string)
    requires line == Flag + " Another Product System 2.0"
    ensures Classify(line) == Header(SecondHeader)
  {
    var w := SecondHeader;
    assert JoinWith(w[4..], " ") == "2.0";
    assert w[3..][1..] == w[4..];
    assert JoinWith(w[3..], " ") == "System" + " " + "2.0";
    assert w[2..][1..] == w[3..];
    assert JoinWith(w[2..], " ") == "Product" + " " + ("System" + " " + "2.0");
    assert w[1..][1..] == w[2..];
    assert JoinWith(w[1..], " ") == "Another" + " " + ("Product" + " " + ("System" + " " + "2.0"));
    HeaderClassify(line, w);
  }
}
