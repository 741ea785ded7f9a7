/**
 * The helpers of the status-monitoring view: status colours and icons, the grouping of
 * link records by product and environment, the status counts and the uptime figure.
 */
module StatusUtils {
  import StatusRoutes

  /** A link-status record as the status endpoints send it. */
  type LinkStatus = StatusRoutes.StatusRecord

  const DefaultColor := "rgba(255, 255, 255, 0.3)"

  /** `getStatusColor`: three fixed colours, a translucent white for anything else. */
  function StatusColor(status: string): (c: string)
    ensures c == DefaultColor <==> status != "online" && status != "offline" && status != "warning"
  {
    if status == "online" then "#00ff88"
    else if status == "offline" then "#E31E24"
    else if status == "warning" then "#FFA500"
    else DefaultColor
  }

  /** The three known statuses get three different colours. */
  lemma ColorsDistinct()
    ensures StatusColor("online") != StatusColor("offline")
    ensures StatusColor("online") != StatusColor("warning")
    ensures StatusColor("offline") != StatusColor("warning")
  {
  }

  datatype Icon = CheckIcon | CrossIcon | WarningIcon | PlainCircleIcon

  /** `getStatusIcon`: every status, known or not, has an icon; unknown ones the plain circle. */
  function StatusIcon(status: string): (i: Icon)
    ensures i == PlainCircleIcon <==> status != "online" && status != "offline" && status != "warning"
  {
    if status == "online" then CheckIcon
    else if status == "offline" then CrossIcon
    else if status == "warning" then WarningIcon
    else PlainCircleIcon
  }

  /** `link.product || 'Uncategorized'`. */
  function ProductKey(l: LinkStatus): string {
    if l.product == "" then "Uncategorized" else l.product
  }

  /** `link.environment || 'Default'`. */
  function EnvKey(l: LinkStatus): string {
    if l.environment == "" then "Default" else l.environment
  }

  type Buckets = map<string, map<string, seq<LinkStatus>>>

  /** One step of the reducer: create the product and environment entries if missing,
      then push the link. */
  function Push(groups: Buckets, l: LinkStatus): Buckets {
    var p, e := ProductKey(l), EnvKey(l);
    var envs := if p in groups then groups[p] else map[];
    var bucket := if e in envs then envs[e] else [];
    groups[p := envs[e := bucket + [l]]]
  }

  /** `groupLinksByProductAndEnv` as a fold over the links. */
  function Group(links: seq<LinkStatus>): Buckets {
    if links == [] then map[] else Push(Group(links[..|links| - 1]), links[|links| - 1])
  }

  /** The bucket under a product and environment, empty when there is none. */
  function Bucket(groups: Buckets, p: string, e: string): seq<LinkStatus> {
    if p in groups && e in groups[p] then groups[p][e] else []
  }

  /** The links with a given product and environment key, in input order. */
  function Select(links: seq<LinkStatus>, p: string, e: string): (r: seq<LinkStatus>)
    ensures forall x :: x in r <==> x in links && ProductKey(x) == p && EnvKey(x) == e
  {
    if links == [] then []
    else
      var l := links[|links| - 1];
      Select(links[..|links| - 1], p, e) + (if ProductKey(l) == p && EnvKey(l) == e then [l] else [])
  }

  /** The reducer with its accumulator mutated in place. */
  method GroupLinksByProductAndEnv(links: seq<LinkStatus>) returns (groups: Buckets)
    ensures groups == Group(links)
  {
    groups := map[];
    var i := 0;
    while i < |links|
      invariant 0 <= i <= |links|
      invariant groups == Group(links[..i])
    {
      assert links[..i + 1][..i] == links[..i];
      ghost var before := groups;
      var link := links[i];
      var productKey := ProductKey(link);
      var envKey := EnvKey(link);
      if productKey !in groups {
        groups := groups[productKey := map[]];
      }
      var envs := groups[productKey];
      assert envs == if productKey in before then before[productKey] else map[];
      if envKey !in envs {
        envs := envs[envKey := []];
      }
      envs := envs[envKey := envs[envKey] + [link]];
      ghost var E0 := if productKey in before then before[productKey] else map[];
      ghost var B0 := if envKey in E0 then E0[envKey] else [];
      assert envs == E0[envKey := B0 + [link]];
      groups := groups[productKey := envs];
      assert groups == before[productKey := envs];
      assert productKey == ProductKey(link) && envKey == EnvKey(link);
      assert groups == Push(before, link);
      i := i + 1;
    }
    assert links[..i] == links;
  }

  /** Each bucket holds exactly the links with its keys, in input order, and a bucket
      exists exactly when it is non-empty. */
  lemma {:induction false} GroupSelect(links: seq<LinkStatus>, p: string, e: string)
    ensures Bucket(Group(links), p, e) == Select(links, p, e)
    ensures (p in Group(links) && e in Group(links)[p]) <==> Select(links, p, e) != []
  {
    if links != [] {
      GroupSelect(links[..|links| - 1], p, e);
    }
  }

  lemma GroupAll(links: seq<LinkStatus>)
    ensures forall p, e :: Bucket(Group(links), p, e) == Select(links, p, e)
  {
    forall p, e ensures Bucket(Group(links), p, e) == Select(links, p, e) {
      GroupSelect(links, p, e);
    }
  }

  /** A link lands in its own bucket; a bucket holds only links with its keys. */
  lemma OwnBucket(links: seq<LinkStatus>, i: nat, p: string, e: string)
    requires i < |links|
    ensures links[i] in Bucket(Group(links), ProductKey(links[i]), EnvKey(links[i]))
    ensures forall x :: x in Bucket(Group(links), p, e) ==> ProductKey(x) == p && EnvKey(x) == e
  {
    GroupSelect(links, ProductKey(links[i]), EnvKey(links[i]));
    GroupSelect(links, p, e);
  }

  /** The total size of the buckets listed in `keys`. */
  function Sizes(links: seq<LinkStatus>, keys: seq<(string, string)>): nat {
    if keys == [] then 0 else Sizes(links, keys[..|keys| - 1]) + |Select(links, keys[|keys| - 1].0, keys[|keys| - 1].1)|
  }

  /** How often a key is listed. */
  function Occurrences(keys: seq<(string, string)>, k: (string, string)): nat {
    if keys == [] then 0 else Occurrences(keys[..|keys| - 1], k) + (if keys[|keys| - 1] == k then 1 else 0)
  }

  lemma {:induction false} SizesStep(links: seq<LinkStatus>, l: LinkStatus, keys: seq<(string, string)>)
    ensures Sizes(links + [l], keys) == Sizes(links, keys) + Occurrences(keys, (ProductKey(l), EnvKey(l)))
  {
    assert (links + [l])[..|links + [l]| - 1] == links;
    if keys != [] {
      SizesStep(links, l, keys[..|keys| - 1]);
    }
  }

  lemma {:induction false} OccursOnce(keys: seq<(string, string)>, k: (string, string))
    requires forall i, j :: 0 <= i < j < |keys| ==> keys[i] != keys[j]
    requires k in keys
    ensures Occurrences(keys, k) == 1
  {
    var n := |keys| - 1;
    if keys[n] == k {
      OccursNot(keys[..n], k);
    } else {
      assert k in keys[..n];
      OccursOnce(keys[..n], k);
    }
  }

  lemma {:induction false} OccursNot(keys: seq<(string, string)>, k: (string, string))
    requires k !in keys
    ensures Occurrences(keys, k) == 0
  {
    if keys != [] {
      assert k !in keys[..|keys| - 1];
      OccursNot(keys[..|keys| - 1], k);
    }
  }

  /** Over any duplicate-free list of the bucket keys, the bucket sizes add up to the
      number of links. */
  lemma {:induction false} BucketSizes(links: seq<LinkStatus>, keys: seq<(string, string)>)
    requires forall i, j :: 0 <= i < j < |keys| ==> keys[i] != keys[j]
    requires forall i :: 0 <= i < |links| ==> (ProductKey(links[i]), EnvKey(links[i])) in keys
    ensures Sizes(links, keys) == |links|
  {
    if links == [] {
      SizesEmpty(keys);
    } else {
      var n := |links| - 1;
      var l := links[n];
      var init := links[..n];
      forall i | 0 <= i < |init|
        ensures (ProductKey(init[i]), EnvKey(init[i])) in keys
      {
        assert init[i] == links[i];
      }
      BucketSizes(init, keys);
      SizesStep(init, l, keys);
      assert (ProductKey(l), EnvKey(l)) in keys;
      OccursOnce(keys, (ProductKey(l), EnvKey(l)));
      assert init + [l] == links;
    }
  }

  lemma {:induction false} SizesEmpty(keys: seq<(string, string)>)
    ensures Sizes([], keys) == 0
  {
    if keys != [] {
      SizesEmpty(keys[..|keys| - 1]);
    }
  }

  /** `links.filter(l => l.status === s)`. */
  function WithStatus(links: seq<LinkStatus>, s: string): (r: seq<LinkStatus>)
    ensures forall x :: x in r <==> x in links && x.status == s
    ensures |r| <= |links|
  {
    if links == [] then []
    else WithStatus(links[..|links| - 1], s) + (if links[|links| - 1].status == s then [links[|links| - 1]] else [])
  }

  datatype StatusCounts = StatusCounts(online: nat, offline: nat, warning: nat, total: nat)

  /** `calculateStatusCounts`: exact per-status counts, which never exceed the total. */
  function CalculateStatusCounts(links: seq<LinkStatus>): (r: StatusCounts)
    ensures r.total == |links|
    ensures r.online == |WithStatus(links, "online")| && r.offline == |WithStatus(links, "offline")|
    ensures r.warning == |WithStatus(links, "warning")|
    ensures r.online + r.offline + r.warning <= r.total
  {
    CountsBounded(links);
    StatusCounts(|WithStatus(links, "online")|, |WithStatus(links, "offline")|, |WithStatus(links, "warning")|, |links|)
  }

  lemma {:induction false} CountsBounded(links: seq<LinkStatus>)
    ensures |WithStatus(links, "online")| + |WithStatus(links, "offline")| + |WithStatus(links, "warning")| <= |links|
  {
    if links != [] {
      CountsBounded(links[..|links| - 1]);
    }
  }

  /** The uptime figure before formatting: none for no links, else online out of total. */
  datatype Uptime = NoLinks | Ratio(online: nat, total: nat)

  /** `calculateUptime`: 0 for an empty list, else the online share of the links. */
  function CalculateUptime(links: seq<LinkStatus>): (r: Uptime)
    ensures r == NoLinks <==> links == []
    ensures r.Ratio? ==> r.online == |WithStatus(links, "online")| && r.total == |links| && 0 < r.total && r.online <= r.total
  {
    if |links| == 0 then NoLinks else Ratio(|WithStatus(links, "online")|, |links|)
  }
}
