/**
 * The dashboard search shared by the user dashboard, the admin preview and the newer
 * app shell: a group is kept, whole, when the term occurs case-insensitively in its
 * product, its environment, or the text or url of one of its links.
 */
module DashboardSearch {
  import opened Text
  import opened Models

  predicate LinkMatches(l: LinkItem, term: string) {
    ContainsIgnoringCase(l.text, term) || ContainsIgnoringCase(l.url, term)
  }

  /** The predicate given to `groups.filter`. */
  predicate GroupMatches(g: ProductGroup, term: string) {
    ContainsIgnoringCase(g.product, term) || ContainsIgnoringCase(g.environment, term)
    || exists i :: 0 <= i < |g.links| && LinkMatches(g.links[i], term)
  }

  /** `groups.filter(GroupMatches)`: exactly the matching groups, none of them narrowed. */
  function FilterGroups(groups: seq<ProductGroup>, term: string): (r: seq<ProductGroup>)
    ensures forall g :: g in r <==> g in groups && GroupMatches(g, term)
    ensures |r| <= |groups|
  {
    if groups == [] then []
    else
      var g := groups[|groups| - 1];
      FilterGroups(groups[..|groups| - 1], term) + (if GroupMatches(g, term) then [g] else [])
  }

  /** Filtering keeps the input order: it distributes over concatenation. */
  lemma {:induction false} FilterConcat(a: seq<ProductGroup>, b: seq<ProductGroup>, term: string)
    ensures FilterGroups(a + b, term) == FilterGroups(a, term) + FilterGroups(b, term)
  {
    if b == [] {
      assert a + b == a;
    } else {
      var n := |b| - 1;
      assert (a + b)[..|a + b| - 1] == a + b[..n];
      FilterConcat(a, b[..n], term);
    }
  }

  /** Every string contains the empty term, so every group matches it. */
  lemma EmptyTermMatches(g: ProductGroup)
    ensures GroupMatches(g, "")
  {
    assert Lower("") == "";
    ContainsEmpty(Lower(g.product));
  }

  /** An empty search term keeps every group. */
  lemma {:induction false} EmptyTermKeepsAll(groups: seq<ProductGroup>)
    ensures FilterGroups(groups, "") == groups
  {
    if groups != [] {
      var n := |groups| - 1;
      var init := groups[..n];
      EmptyTermKeepsAll(init);
      EmptyTermMatches(groups[n]);
      assert FilterGroups(groups, "") == FilterGroups(init, "") + [groups[n]];
      assert init + [groups[n]] == groups;
    }
  }

  /** The link total shown, the sum of the kept groups' link counts, never exceeds the
      dashboard's total. */
  lemma {:induction false} FilteredLinkTotal(groups: seq<ProductGroup>, term: string)
    ensures LinkTotal(FilterGroups(groups, term)) <= LinkTotal(groups)
  {
    if groups != [] {
      var n := |groups| - 1;
      var g := groups[n];
      FilteredLinkTotal(groups[..n], term);
      LinkTotalAppend(FilterGroups(groups[..n], term), if GroupMatches(g, term) then [g] else []);
    }
  }

  lemma {:induction false} LinkTotalAppend(a: seq<ProductGroup>, b: seq<ProductGroup>)
    ensures LinkTotal(a + b) == LinkTotal(a) + LinkTotal(b)
  {
    if b == [] {
      assert a + b == a;
    } else {
      var n := |b| - 1;
      assert (a + b)[..|a + b| - 1] == a + b[..n];
      LinkTotalAppend(a, b[..n]);
    }
  }
}
