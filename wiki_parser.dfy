/**
 * The wiki page parser of the backend: a line-by-line state machine that turns
 * `# Product` headings, `## Environment` headings and bulleted `[text](url)` links
 * into product groups.
 *
 * `Step` is the effect of one line on the parser state, `Parse` the whole page;
 * `ParseMarkdownLinks` is the loop the backend runs, proved equal to `Parse`.
 * The absent product and environment (Python's `None`) are the empty string: the
 * parser only ever tests them for truth, and `None` and `""` are both false.
 */
module WikiParser {
  import opened Text
  import opened Models
  import opened LinkPattern

  /** The parser's variables: the groups emitted so far and the pending product, environment and links. */
  datatype Parser = Parser(groups: seq<ProductGroup>, product: string, env: string, links: seq<LinkItem>)

  const Start := Parser([], "", "", [])

  /** The pending group may be emitted: product, environment and at least one link are all present. */
  predicate Complete(p: Parser) {
    p.product != "" && p.env != "" && p.links != []
  }

  function Pending(p: Parser): ProductGroup {
    ProductGroup("", p.product, p.env, p.links)
  }

  /** A stripped line that is searched for links: a bullet holding both `[` and `](`. */
  predicate IsLinkLine(line: string) {
    (StartsWith(line, "*") || StartsWith(line, "-")) && Contains(line, "[") && Contains(line, "](")
  }

  /** The matches found in a line as link items, text and url stripped, in order. */
  function LinkItems(ms: seq<(string, string)>): (items: seq<LinkItem>)
    ensures |items| == |ms|
  {
    if ms == [] then []
    else LinkItems(ms[..|ms| - 1]) + [LinkItem(Strip(ms[|ms| - 1].0), Strip(ms[|ms| - 1].1))]
  }

  /** What a line of the page is to the parser. Headings are recognised on the line as
      written, everything else on the stripped line. */
  datatype Line = Blank | ProductHeading(name: string) | EnvironmentHeading(name: string)
                | Bullet(items: seq<LinkItem>) | Ignored

  function Classify(line: string): Line {
    var t := Strip(line);
    if t == [] then Blank
    else if StartsWith(line, "# ") then ProductHeading(Strip(Drop(t, 2)))
    else if StartsWith(line, "## ") then EnvironmentHeading(Strip(Drop(t, 3)))
    else if IsLinkLine(t) then Bullet(LinkItems(Scan(t)))
    else Ignored
  }

  /** Emit the pending group if it is complete, starting a new link list. */
  function Flush(p: Parser): Parser {
    if Complete(p) then p.(groups := p.groups + [Pending(p)], links := []) else p
  }

  /** The effect of one classified line on the parser state. */
  function Apply(p: Parser, line: Line): Parser {
    match line
    case ProductHeading(name) => if Complete(p) then Flush(p).(env := "", product := name) else p.(product := name)
    case EnvironmentHeading(name) => Flush(p).(env := name)
    case Bullet(items) => p.(links := p.links + items)
    case _ => p
  }

  /** The effect of one line of the page. */
  function Step(p: Parser, line: string): Parser {
    Apply(p, Classify(line))
  }

  /** The parser state after the given lines, starting from `p`. */
  function Run(p: Parser, lines: seq<string>): Parser {
    if lines == [] then p else Step(Run(p, lines[..|lines| - 1]), lines[|lines| - 1])
  }

  /** The groups returned once the input is exhausted: a complete pending group is emitted last. */
  function Finish(p: Parser): seq<ProductGroup> {
    if Complete(p) then p.groups + [Pending(p)] else p.groups
  }

  function Parse(content: string): seq<ProductGroup> {
    Finish(Run(Start, Split(content, '\n')))
  }

  /** A page given as its lines parses line by line. */
  lemma ParseLines(lines: seq<string>)
    requires |lines| >= 1 && forall k :: 0 <= k < |lines| ==> '\n' !in lines[k]
    ensures Parse(Join(lines, '\n')) == Finish(Run(Start, lines))
  {
    SplitJoin(lines, '\n');
  }

  /** The parsing loop itself. */
  method ParseMarkdownLinks(content: string) returns (groups: seq<ProductGroup>)
    ensures groups == Parse(content)
  {
    var lines := Split(content, '\n');
    groups := [];
    var product, env, links := "", "", [];
    var i := 0;
    while i < |lines|
      invariant 0 <= i <= |lines|
      invariant Parser(groups, product, env, links) == Run(Start, lines[..i])
    {
      groups, product, env, links := ReadLine(groups, product, env, links, lines[i]);
      TakeNext(lines, i);
      i := i + 1;
    }
    assert lines[..i] == lines;
    if product != "" && env != "" && links != [] {
      groups := groups + [ProductGroup("", product, env, links)];
    }
  }

  /** One turn of the parsing loop: the line as written, and the variables before and after. */
  method ReadLine(groups0: seq<ProductGroup>, product0: string, env0: string, links0: seq<LinkItem>, original: string)
    returns (groups: seq<ProductGroup>, product: string, env: string, links: seq<LinkItem>)
    ensures Parser(groups, product, env, links) == Step(Parser(groups0, product0, env0, links0), original)
  {
    groups, product, env, links := groups0, product0, env0, links0;
    var line := Strip(original);
    if line != [] {
      if StartsWith(original, "# ") {
        assert Classify(original) == ProductHeading(Strip(Drop(line, 2)));
        if product != "" && env != "" && links != [] {
          groups := groups + [ProductGroup("", product, env, links)];
          links := [];
          env := "";
        }
        product := Strip(Drop(line, 2));
      } else if StartsWith(original, "## ") {
        assert Classify(original) == EnvironmentHeading(Strip(Drop(line, 3)));
        if product != "" && env != "" && links != [] {
          groups := groups + [ProductGroup("", product, env, links)];
          links := [];
        }
        env := Strip(Drop(line, 3));
      } else if IsLinkLine(line) {
        assert Classify(original) == Bullet(LinkItems(Scan(line)));
        links := AppendMatches(links, Scan(line));
      } else {
        assert Classify(original) == Ignored;
      }
    } else {
      assert Classify(original) == Blank;
    }
  }

  /** The `for text, url in matches` loop: each match is appended, stripped, in order. */
  method AppendMatches(links: seq<LinkItem>, matches: seq<(string, string)>) returns (r: seq<LinkItem>)
    ensures r == links + LinkItems(matches)
  {
    r := links;
    var k := 0;
    while k < |matches|
      invariant 0 <= k <= |matches|
      invariant r == links + LinkItems(matches[..k])
    {
      var item := LinkItem(Strip(matches[k].0), Strip(matches[k].1));
      assert matches[..k + 1][..k] == matches[..k];
      assert LinkItems(matches[..k + 1]) == LinkItems(matches[..k]) + [item];
      r := r + [item];
      k := k + 1;
    }
    assert matches[..k] == matches;
  }

  // ---------------------------------------------------------------- single lines

  /** A `# ` line emits the pending group exactly when it is complete, and only then
      also drops the environment and the links; the product becomes the rest of the
      line, stripped. */
  lemma ProductHeader(p: Parser, line: string)
    requires StartsWith(line, "# ")
    ensures var q := Step(p, line);
      && q.groups == (if Complete(p) then p.groups + [Pending(p)] else p.groups)
      && q.product == Strip(Drop(Strip(line), 2))
      && q.env == (if Complete(p) then "" else p.env)
      && q.links == (if Complete(p) then [] else p.links)
  {
    assert line[0] == '#';
    StripKeepsFirst(line);
  }

  /** A `## ` line emits a complete pending group and drops the links; the environment
      becomes the rest of the line, stripped, and the product is kept. */
  lemma EnvironmentHeader(p: Parser, line: string)
    requires StartsWith(line, "## ")
    ensures var q := Step(p, line);
      && q.groups == (if Complete(p) then p.groups + [Pending(p)] else p.groups)
      && q.product == p.product
      && q.env == Strip(Drop(Strip(line), 3))
      && q.links == (if Complete(p) then [] else p.links)
  {
    assert line[0] == '#';
    StripKeepsFirst(line);
    assert !StartsWith(line, "# ") by { assert line[1] == '#'; }
  }

  /** A line is searched for links only when, stripped, it is a bullet holding `[` and `](`;
      its matches are added in order, and nothing else changes. */
  lemma BulletLine(p: Parser, line: string)
    requires !StartsWith(line, "# ") && !StartsWith(line, "## ")
    ensures Step(p, line).groups == p.groups && Step(p, line).product == p.product && Step(p, line).env == p.env
    ensures Step(p, line).links == p.links + (if IsLinkLine(Strip(line)) then LinkItems(Scan(Strip(line))) else [])
  {
  }

  /** A line the parser ignores. */
  predicate Inert(line: string) {
    Classify(line).Blank? || Classify(line).Ignored?
  }

  /** Blank lines, and lines that are neither a heading as written nor a link line
      once stripped, are ignored. */
  lemma InertLines(line: string)
    ensures Inert(line) <==>
      (Strip(line) == [] || (!StartsWith(line, "# ") && !StartsWith(line, "## ") && !IsLinkLine(Strip(line))))
  {
  }

  /** `###` and deeper headings are ignored. */
  lemma DeepHeadingInert(line: string)
    requires StartsWith(line, "###")
    ensures Inert(line)
  {
    assert line[0] == '#' && line[1] == '#' && line[2] == '#';
    StripKeepsFirst(line);
    var t := Strip(line);
    assert !StartsWith(line, "# ") && !StartsWith(line, "## ");
    assert !IsLinkLine(t) by {
      assert t[0] == '#';
      assert !StartsWith(t, "*") && !StartsWith(t, "-");
    }
    assert Classify(line) == Ignored;
  }

  /** A heading preceded by white space is ignored: headings are checked before stripping. */
  lemma IndentedHeadingInert(line: string)
    requires line != [] && IsSpace(line[0])
    requires StartsWith(Strip(line), "#")
    ensures Inert(line)
  {
    var t := Strip(line);
    assert !StartsWith(line, "# ") && !StartsWith(line, "## ");
    assert !IsLinkLine(t) by {
      assert t[0] == '#';
      assert !StartsWith(t, "*") && !StartsWith(t, "-");
    }
    assert Classify(line) == Ignored;
  }

  // ---------------------------------------------------------------- whole runs

  lemma {:induction false} RunAppend(p: Parser, a: seq<string>, b: seq<string>)
    ensures Run(p, a + b) == Run(Run(p, a), b)
    decreases |b|
  {
    if b == [] {
      assert a + b == a;
    } else {
      assert (a + b)[..|a + b| - 1] == a + b[..|b| - 1];
      RunAppend(p, a, b[..|b| - 1]);
    }
  }

  /** Removing an ignored line anywhere leaves the result unchanged. */
  lemma InertLine(a: seq<string>, line: string, b: seq<string>)
    requires Inert(line)
    ensures Finish(Run(Start, a + [line] + b)) == Finish(Run(Start, a + b))
  {
    RunAppend(Start, a + [line], b);
    RunAppend(Start, a, [line]);
    RunAppend(Start, a, b);
  }

  predicate AllComplete(groups: seq<ProductGroup>) {
    forall k :: 0 <= k < |groups| ==>
      groups[k].country == "" && groups[k].product != "" && groups[k].environment != "" && groups[k].links != []
  }

  lemma {:induction false} RunComplete(p: Parser, lines: seq<string>)
    requires AllComplete(p.groups)
    ensures AllComplete(Run(p, lines).groups)
    decreases |lines|
  {
    if lines != [] {
      RunComplete(p, lines[..|lines| - 1]);
      ApplyComplete(Run(p, lines[..|lines| - 1]), Classify(lines[|lines| - 1]));
    }
  }

  lemma ApplyComplete(p: Parser, line: Line)
    requires AllComplete(p.groups)
    ensures AllComplete(Apply(p, line).groups)
  {
    var q := Apply(p, line);
    assert q.groups == p.groups || (Complete(p) && q.groups == p.groups + [Pending(p)]);
  }

  /** Every emitted group has an empty country and a non-empty product, environment and link list. */
  lemma GroupsComplete(content: string)
    ensures AllComplete(Parse(content))
  {
    RunComplete(Start, Split(content, '\n'));
  }

  /** The links a line contributes, if the parser reads it as a link line. */
  function LineLinks(line: string): seq<LinkItem> {
    Contributed(Classify(line))
  }

  /** Every link on the page, in page order. */
  function AllLinks(lines: seq<string>): seq<LinkItem> {
    if lines == [] then [] else AllLinks(lines[..|lines| - 1]) + LineLinks(lines[|lines| - 1])
  }

  /** The links a classified line contributes. */
  function Contributed(line: Line): seq<LinkItem> {
    if line.Bullet? then line.items else []
  }

  lemma ApplyLinks(p: Parser, line: Line)
    ensures Flatten(Apply(p, line).groups) + Apply(p, line).links == Flatten(p.groups) + p.links + Contributed(line)
  {
    var q := Apply(p, line);
    match line
    case ProductHeading(name) =>
      FlushLinks(p);
      assert Flatten(q.groups) + q.links == Flatten(Flush(p).groups) + Flush(p).links;
    case EnvironmentHeading(name) =>
      FlushLinks(p);
    case Bullet(items) =>
      assert Flatten(p.groups) + (p.links + items) == Flatten(p.groups) + p.links + items;
    case Blank =>
      assert Flatten(p.groups) + p.links + [] == Flatten(p.groups) + p.links;
    case Ignored =>
      assert Flatten(p.groups) + p.links + [] == Flatten(p.groups) + p.links;
  }

  lemma FlushLinks(p: Parser)
    ensures Flatten(Flush(p).groups) + Flush(p).links == Flatten(p.groups) + p.links
  {
    if Complete(p) {
      assert (p.groups + [Pending(p)])[..|p.groups|] == p.groups;
    }
  }

  lemma {:induction false} RunLinks(p: Parser, lines: seq<string>)
    ensures Flatten(Run(p, lines).groups) + Run(p, lines).links == Flatten(p.groups) + p.links + AllLinks(lines)
    decreases |lines|
  {
    if lines != [] {
      var init := lines[..|lines| - 1];
      RunLinks(p, init);
      ApplyLinks(Run(p, init), Classify(lines[|lines| - 1]));
    }
  }

  /** Links still pending when the page ends without a complete group; they are dropped. */
  function Leftover(content: string): seq<LinkItem> {
    var p := Run(Start, Split(content, '\n'));
    if Complete(p) then [] else p.links
  }

  /** Every link of the page lands in exactly one place, in page order: the emitted
      groups, group by group, followed by the links dropped at the end. Links read
      while no environment is set are therefore carried into the next emitted group. */
  lemma LinksConserved(content: string)
    ensures Flatten(Parse(content)) + Leftover(content) == AllLinks(Split(content, '\n'))
  {
    var lines := Split(content, '\n');
    var p := Run(Start, lines);
    RunLinks(Start, lines);
    FinishLinks(p);
    assert Flatten(Start.groups) + Start.links + AllLinks(lines) == AllLinks(lines);
  }

  lemma FinishLinks(p: Parser)
    ensures Flatten(Finish(p)) + (if Complete(p) then [] else p.links) == Flatten(p.groups) + p.links
  {
    if Complete(p) {
      var out := p.groups + [Pending(p)];
      assert out[..|p.groups|] == p.groups;
      assert Flatten(out) == Flatten(p.groups) + p.links;
    }
  }

  // ---------------------------------------------------------------- an example page

  /** `- [text](url)` is a bullet with that one link. */
  lemma BulletClassify(text: string, url: string)
    requires ValidGroups(text, url) && Strip(text) == text && Strip(url) == url
    ensures Classify("- " + Shape(text, url)) == Bullet([LinkItem(text, url)])
  {
    var line := "- " + Shape(text, url);
    assert line[0] == '-';
    assert line[|line| - 1] == ')';
    assert Strip(line) == line by {
      assert TrimLeft(line) == line;
      assert TrimRight(line) == line;
    }
    ScanSkip("- ", Shape(text, url));
    ScanShape(text, url, "");
    assert Shape(text, url) + "" == Shape(text, url);
    assert Scan("") == [];
    assert LinkItems([(text, url)]) == [LinkItem(text, url)];
    ContainsAt(line, "[", 2);
    assert line[3 + |text|..][..2] == "](";
    ContainsAt(line, "](", 3 + |text|);
  }

  /** `# name` and `## name` are headings with that name. */
  lemma HeadingClassify(line: string, marker: string, name: string)
    requires marker == "# " || marker == "## "
    requires line == marker + name && name != [] && !IsSpace(name[0]) && !IsSpace(name[|name| - 1])
    ensures marker == "# " ==> Classify(line) == ProductHeading(name)
    ensures marker == "## " ==> Classify(line) == EnvironmentHeading(name)
  {
    assert line[0] == '#' && line[|line| - 1] == name[|name| - 1];
    assert Strip(line) == line by {
      assert TrimLeft(line) == line;
      assert TrimRight(line) == line;
    }
    assert Drop(line, |marker|) == name;
    assert Strip(name) == name by {
      assert TrimLeft(name) == name;
      assert TrimRight(name) == name;
    }
    if marker == "## " {
      assert !StartsWith(line, "# ") by { assert line[1] == '#'; }
    }
  }

  lemma CarriedForwardRun(lines: seq<string>)
    requires |lines| == 4
    requires Classify(lines[0]) == Bullet([LinkItem("a", "u")])
    requires Classify(lines[1]) == ProductHeading("P")
    requires Classify(lines[2]) == EnvironmentHeading("E")
    requires Classify(lines[3]) == Bullet([LinkItem("b", "v")])
    ensures Finish(Run(Start, lines)) == [ProductGroup("", "P", "E", [LinkItem("a", "u"), LinkItem("b", "v")])]
  {
    var a, b := LinkItem("a", "u"), LinkItem("b", "v");
    TakeNext(lines, 0);
    assert lines[..0] == [];
    assert Run(Start, lines[..1]) == Parser([], "", "", [a]);
    TakeNext(lines, 1);
    assert Run(Start, lines[..2]) == Parser([], "P", "", [a]);
    TakeNext(lines, 2);
    assert Run(Start, lines[..3]) == Parser([], "P", "E", [a]);
    TakeNext(lines, 3);
    assert lines[..4] == lines;
    assert Run(Start, lines) == Parser([], "P", "E", [a, b]);
  }

  /** A bullet holding one link whose text and url are single characters. */
  lemma CharBullet(line: string, text: char, url: char)
    requires line == ['-', ' ', '[', text, ']', '(', url, ')']
    requires text != ']' && url != ')' && !IsSpace(text) && !IsSpace(url)
    ensures Classify(line) == Bullet([LinkItem([text], [url])])
  {
    assert Strip([text]) == [text] by {
      assert TrimLeft([text]) == [text];
      assert TrimRight([text]) == [text];
    }
    assert Strip([url]) == [url] by {
      assert TrimLeft([url]) == [url];
      assert TrimRight([url]) == [url];
    }
    BulletClassify([text], [url]);
    assert line == "- " + Shape([text], [url]);
  }

  /** A link listed before any environment heading is carried into the next group. */
  lemma CarriedForwardExample(lines: seq<string>)
    requires lines == ["- [a](u)", "# P", "## E", "- [b](v)"]
    ensures Finish(Run(Start, lines)) == [ProductGroup("", "P", "E", [LinkItem("a", "u"), LinkItem("b", "v")])]
  {
    CharBullet(lines[0], 'a', 'u');
    CharBullet(lines[3], 'b', 'v');
    HeadingClassify(lines[1], "# ", "P");
    HeadingClassify(lines[2], "## ", "E");
    CarriedForwardRun(lines);
  }
}
