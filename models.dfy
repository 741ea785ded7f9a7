/** The response records the backend builds from wiki content. */
module Models {

  /** One `[text](url)` link of a wiki page. */
  datatype LinkItem = LinkItem(text: string, url: string)

  /** The links listed under one product and environment heading. */
  datatype ProductGroup = ProductGroup(country: string, product: string, environment: string, links: seq<LinkItem>)

  /** All links of a group list, group by group, in order. */
  function Flatten(groups: seq<ProductGroup>): seq<LinkItem> {
    if groups == [] then [] else Flatten(groups[..|groups| - 1]) + groups[|groups| - 1].links
  }

  /** The number of links in a group list. */
  function LinkTotal(groups: seq<ProductGroup>): nat {
    if groups == [] then 0 else LinkTotal(groups[..|groups| - 1]) + |groups[|groups| - 1].links|
  }

  lemma {:induction false} LinkTotalFlatten(groups: seq<ProductGroup>)
    ensures LinkTotal(groups) == |Flatten(groups)|
  {
    if groups != [] {
      LinkTotalFlatten(groups[..|groups| - 1]);
    }
  }
}
