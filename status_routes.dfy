/**
 * The status-monitoring endpoints of the backend: every wiki link becomes a record
 * whose id is `username + "_" + url`, each record is probed once, and a single link
 * can be probed again by its id.  Wiki fetches and probes are inputs: a fetch is the
 * parsed groups or `None` when it raised, a probe its status and response time or the
 * text of the exception it raised.
 */
module StatusRoutes {
  import opened Wrappers
  import opened Text
  import opened Http
  import opened Models
  import opened Database
  import opened Guards

  /** One collected link.  `owner` is the `username` key, present only in the all-users list. */
  datatype LinkRecord = LinkRecord(id: string, name: string, url: string, owner: Option<string>,
                                   product: string, environment: string)

  /** The result of probing a url. */
  datatype Probe = Probe(status: string, responseTime: int)

  datatype StatusRecord = StatusRecord(id: string, name: string, url: string, product: string, environment: string,
                                       status: string, responseTime: int, uptime: int, lastChecked: string)

  datatype PingResponse = PingResponse(id: string, status: string, responseTime: int, lastChecked: string)

  function LinkId(username: string, url: string): string {
    username + "_" + url
  }

  function Record(username: string, g: ProductGroup, l: LinkItem, owner: Option<string>): LinkRecord {
    LinkRecord(LinkId(username, l.url), l.text, l.url, owner, g.product, g.environment)
  }

  /** The records of a user's groups, group by group, link by link. */
  function GroupLinks(username: string, groups: seq<ProductGroup>, owner: Option<string>): seq<LinkRecord> {
    if groups == [] then []
    else
      var g := groups[|groups| - 1];
      GroupLinks(username, groups[..|groups| - 1], owner) + seq(|g.links|, i requires 0 <= i < |g.links| => Record(username, g, g.links[i], owner))
  }

  /** Each record stands for the link at the same place of the flattened groups, and
      carries the product and environment of a group holding that link. */
  lemma {:induction false} GroupLinksFlatten(username: string, groups: seq<ProductGroup>, owner: Option<string>)
    ensures var r, f := GroupLinks(username, groups, owner), Flatten(groups);
      && |r| == |f|
      && forall i :: 0 <= i < |r| ==>
           && r[i].id == LinkId(username, f[i].url) && r[i].name == f[i].text
           && r[i].url == f[i].url && r[i].owner == owner
           && exists j :: 0 <= j < |groups| && f[i] in groups[j].links
                && r[i].product == groups[j].product && r[i].environment == groups[j].environment
  {
    if groups != [] {
      var n := |groups| - 1;
      var init, g := groups[..n], groups[n];
      GroupLinksFlatten(username, init, owner);
      var ri, fi := GroupLinks(username, init, owner), Flatten(init);
      var r, f := GroupLinks(username, groups, owner), Flatten(groups);
      assert r == ri + seq(|g.links|, k requires 0 <= k < |g.links| => Record(username, g, g.links[k], owner));
      assert f == fi + g.links;
      forall i | 0 <= i < |r|
        ensures r[i].id == LinkId(username, f[i].url) && r[i].name == f[i].text
        ensures r[i].url == f[i].url && r[i].owner == owner
        ensures exists j :: 0 <= j < |groups| && f[i] in groups[j].links
                  && r[i].product == groups[j].product && r[i].environment == groups[j].environment
      {
        if i < |ri| {
          assert r[i] == ri[i] && f[i] == fi[i];
          var j :| 0 <= j < |init| && fi[i] in init[j].links
                   && ri[i].product == init[j].product && ri[i].environment == init[j].environment;
          assert init[j] == groups[j];
        } else {
          var k := i - |ri|;
          assert r[i] == Record(username, g, g.links[k], owner);
          assert f[i] == g.links[k];
          assert f[i] in groups[n].links;
        }
      }
    }
  }

  /** The nested loop over a user's groups and links. */
  method CollectGroupLinks(username: string, groups: seq<ProductGroup>, owner: Option<string>) returns (links: seq<LinkRecord>)
    ensures links == GroupLinks(username, groups, owner)
  {
    links := [];
    var i := 0;
    while i < |groups|
      invariant 0 <= i <= |groups|
      invariant links == GroupLinks(username, groups[..i], owner)
    {
      var g := groups[i];
      assert groups[..i + 1][..i] == groups[..i];
      var j := 0;
      var before := links;
      while j < |g.links|
        invariant 0 <= j <= |g.links|
        invariant links == before + seq(j, k requires 0 <= k < j => Record(username, g, g.links[k], owner))
      {
        links := links + [Record(username, g, g.links[j], owner)];
        j := j + 1;
      }
      i := i + 1;
    }
    assert groups[..i] == groups;
  }

  /** All users' links: the users in listing order, a user whose fetch raised contributing nothing. */
  function AllUserLinks(users: seq<UserListing>, fetched: seq<Option<seq<ProductGroup>>>): seq<LinkRecord>
    requires |fetched| == |users|
  {
    if users == [] then []
    else
      var n := |users| - 1;
      AllUserLinks(users[..n], fetched[..n])
      + (if fetched[n].Some? then GroupLinks(users[n].username, fetched[n].value, Some(users[n].username)) else [])
  }

  /** `get_all_links_from_gitlab_wikis`, given each listed user's fetch result. */
  method CollectAllLinks(users: seq<UserListing>, fetched: seq<Option<seq<ProductGroup>>>) returns (all: seq<LinkRecord>)
    requires |fetched| == |users|
    ensures all == AllUserLinks(users, fetched)
  {
    all := [];
    var i := 0;
    while i < |users|
      invariant 0 <= i <= |users|
      invariant all == AllUserLinks(users[..i], fetched[..i])
    {
      assert users[..i + 1][..i] == users[..i] && fetched[..i + 1][..i] == fetched[..i];
      if fetched[i].Some? {
        var links := CollectGroupLinks(users[i].username, fetched[i].value, Some(users[i].username));
        all := all + links;
      }
      i := i + 1;
    }
    assert users[..i] == users && fetched[..i] == fetched;
  }

  /** A user whose fetch raised is skipped without affecting the others. */
  lemma {:induction false} FailedFetchSkipped(users: seq<UserListing>, fetched: seq<Option<seq<ProductGroup>>>, k: nat)
    requires |fetched| == |users| && k < |users| && fetched[k].None?
    ensures AllUserLinks(users, fetched)
         == AllUserLinks(users[..k] + users[k + 1..], fetched[..k] + fetched[k + 1..])
    decreases |users|
  {
    var n := |users| - 1;
    if k == n {
      assert users[..k] + users[k + 1..] == users[..n];
      assert fetched[..k] + fetched[k + 1..] == fetched[..n];
    } else {
      FailedFetchSkipped(users[..n], fetched[..n], k);
      var us, fs := users[..k] + users[k + 1..], fetched[..k] + fetched[k + 1..];
      assert us[..|us| - 1] == users[..n][..k] + users[..n][k + 1..];
      assert fs[..|fs| - 1] == fetched[..n][..k] + fetched[..n][k + 1..];
      assert us[|us| - 1] == users[n] && fs[|fs| - 1] == fetched[n];
    }
  }

  /** `get_user_links_from_gitlab_wiki`: nothing for an unknown user or a failed fetch. */
  method CollectUserLinks(username: string, user: Option<User>, fetched: Option<seq<ProductGroup>>)
    returns (links: seq<LinkRecord>)
    ensures user.None? || fetched.None? ==> links == []
    ensures user.Some? && fetched.Some? ==> links == GroupLinks(username, fetched.value, None)
  {
    if user.None? || fetched.None? {
      return [];
    }
    links := CollectGroupLinks(username, fetched.value, None);
  }

  /** The record built for one link from its probe: a successful probe's status and time,
      uptime 100 exactly when the status is `online`; a probe that raised gives `unknown`. */
  function Check(link: LinkRecord, probe: Result<Probe, string>, now: string): (r: StatusRecord)
    ensures r.id == link.id && r.name == link.name && r.url == link.url
    ensures r.product == link.product && r.environment == link.environment && r.lastChecked == now
    ensures r.uptime == (if r.status == "online" then 100 else 0)
    ensures probe.Failure? ==> r.status == "unknown" && r.responseTime == 0
    ensures probe.Success? ==> r.status == probe.value.status && r.responseTime == probe.value.responseTime
  {
    if probe.Success? then
      StatusRecord(link.id, link.name, link.url, link.product, link.environment,
                   probe.value.status, probe.value.responseTime, if probe.value.status == "online" then 100 else 0, now)
    else
      StatusRecord(link.id, link.name, link.url, link.product, link.environment, "unknown", 0, 0, now)
  }

  /** The records of all probed links, in the links' order. */
  function CheckAll(links: seq<LinkRecord>, probes: seq<Result<Probe, string>>, now: string): (r: seq<StatusRecord>)
    requires |probes| == |links|
    ensures |r| == |links| && forall i :: 0 <= i < |r| ==> r[i] == Check(links[i], probes[i], now)
  {
    seq(|links|, i requires 0 <= i < |links| => Check(links[i], probes[i], now))
  }

  /** `GET /api/status/links`: admins only. */
  function AllLinkStatuses(caller: TokenUser, links: seq<LinkRecord>, probes: seq<Result<Probe, string>>, now: string)
    : (r: Result<seq<StatusRecord>, HttpError>)
    requires |probes| == |links|
    ensures r.Failure? <==> !caller.isAdmin
    ensures r.Failure? ==> r.error.status == Forbidden
    ensures r.Success? ==> r.value == CheckAll(links, probes, now)
  {
    var denied := RequireAdmin(caller);
    if denied.Some? then Failure(denied.value) else Success(CheckAll(links, probes, now))
  }

  /** `GET /api/status/links/{username}`: the user themself or an admin. */
  function UserLinkStatuses(caller: TokenUser, username: string, links: seq<LinkRecord>,
                            probes: seq<Result<Probe, string>>, now: string)
    : (r: Result<seq<StatusRecord>, HttpError>)
    requires |probes| == |links|
    ensures r.Failure? <==> caller.username != username && !caller.isAdmin
    ensures r.Failure? ==> r.error == HttpError(Forbidden, "Not authorized")
    ensures r.Success? ==> r.value == CheckAll(links, probes, now)
  {
    if caller.username != username && !caller.isAdmin then Failure(HttpError(Forbidden, "Not authorized"))
    else Success(CheckAll(links, probes, now))
  }

  /** The url `ping_link` probes: everything after the first `_` of the id. */
  function PingTarget(linkId: string): (r: Result<string, HttpError>)
    ensures r.Failure? <==> '_' !in linkId
    ensures r.Failure? ==> r.error == HttpError(BadRequest, "Invalid link ID format")
    ensures r.Success? ==> exists u :: '_' !in u && linkId == u + "_" + r.value
  {
    var parts := SplitOnce(linkId, '_');
    if parts.None? then Failure(HttpError(BadRequest, "Invalid link ID format"))
    else
      assert [ '_' ] == "_";
      Success(parts.value.1)
  }

  /** `POST /api/status/ping/{link_id}`: the response echoes the id it was given. */
  function Ping(linkId: string, probe: Result<Probe, string>, now: string): (r: Result<PingResponse, HttpError>)
    ensures PingTarget(linkId).Failure? ==> r == Failure(PingTarget(linkId).error)
    ensures PingTarget(linkId).Success? && probe.Failure? ==> r == Failure(HttpError(ServerError, probe.error))
    ensures r.Success? ==> r.value == PingResponse(linkId, probe.value.status, probe.value.responseTime, now)
  {
    var target := PingTarget(linkId);
    if target.Failure? then Failure(target.error)
    else if probe.Failure? then Failure(HttpError(ServerError, probe.error))
    else Success(PingResponse(linkId, probe.value.status, probe.value.responseTime, now))
  }

  /** A collected id pings the link's own url exactly when the username has no `_`. */
  lemma PingRoundTrip(username: string, url: string)
    ensures PingTarget(LinkId(username, url)) == Success(url) <==> '_' !in username
  {
    var id := LinkId(username, url);
    assert id == username + ['_'] + url;
    if '_' !in username {
      SplitOnceAt(username, url, '_');
    } else {
      var parts := SplitOnce(id, '_');
      var a, b := parts.value.0, parts.value.1;
      var k :| 0 <= k < |username| && username[k] == '_';
      assert id[k] == '_';
      assert |b| > |url|;
    }
  }
}
