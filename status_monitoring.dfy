/**
 * The status-monitoring view: it loads the link statuses for an admin (all links) or a
 * user (their own), probes one link on demand and patches its entry, and filters the list
 * by status.  A reply is the outcome of `fetch`: an ok response with its decoded body,
 * a non-ok response, or a thrown error.
 */
module StatusMonitoring {
  import opened Wrappers
  import opened Js
  import opened StatusRoutes
  import opened StatusUtils

  const ApiBaseUrl := "http://localhost:8000"

  /** `{ ...link, ...data }` for a ping response: the response's fields win. */
  function Merge(link: LinkStatus, data: PingResponse): LinkStatus {
    link.(id := data.id, status := data.status, responseTime := data.responseTime, lastChecked := data.lastChecked)
  }

  /** `prev.map(link => link.id === linkId ? { ...link, ...data } : link)`. */
  function Patched(links: seq<LinkStatus>, linkId: string, data: PingResponse): (r: seq<LinkStatus>)
    ensures |r| == |links|
    ensures forall i :: 0 <= i < |links| && links[i].id != linkId ==> r[i] == links[i]
    ensures forall i :: 0 <= i < |links| && links[i].id == linkId ==> r[i] == Merge(links[i], data)
  {
    if links == [] then []
    else
      var l := links[|links| - 1];
      Patched(links[..|links| - 1], linkId, data) + [if l.id == linkId then Merge(l, data) else l]
  }

  /** With a response that echoes the id, the ids and the uptimes of the list stay as they were. */
  lemma PatchKeepsIds(links: seq<LinkStatus>, linkId: string, data: PingResponse, i: nat)
    requires data.id == linkId && i < |links|
    ensures Patched(links, linkId, data)[i].id == links[i].id
    ensures Patched(links, linkId, data)[i].uptime == links[i].uptime
    ensures Patched(links, linkId, data)[i].name == links[i].name && Patched(links, linkId, data)[i].url == links[i].url
  {
  }

  /** Applying the same echoed ping response twice is the same as applying it once. */
  lemma {:induction false} PatchIdempotent(links: seq<LinkStatus>, linkId: string, data: PingResponse)
    requires data.id == linkId
    ensures Patched(Patched(links, linkId, data), linkId, data) == Patched(links, linkId, data)
  {
    var once := Patched(links, linkId, data);
    var twice := Patched(once, linkId, data);
    forall i | 0 <= i < |links|
      ensures twice[i] == once[i]
    {
      PatchKeepsIds(links, linkId, data, i);
    }
  }

  /** What the backend's ping endpoint answers always echoes the id, so patching with it
      never re-keys an entry. */
  lemma BackendPingKeepsIds(links: seq<LinkStatus>, linkId: string, probe: Result<Probe, string>, now: string, i: nat)
    requires Ping(linkId, probe, now).Success? && i < |links|
    ensures Patched(links, linkId, Ping(linkId, probe, now).value)[i].id == links[i].id
  {
    PatchKeepsIds(links, linkId, Ping(linkId, probe, now).value, i);
  }

  /** The filter: `all` keeps everything, any other value exactly the links with that status. */
  function Filtered(links: seq<LinkStatus>, filter: string): (r: seq<LinkStatus>)
    ensures filter == "all" ==> r == links
    ensures filter != "all" ==> forall x :: x in r <==> x in links && x.status == filter
  {
    if filter == "all" then links else WithStatus(links, filter)
  }

  /** The view the component renders at the top level. */
  datatype View = AuthErrorView | LoadingView | StatusView

  class StatusMonitor {
    const token: JsValue
    const currentUsername: JsValue
    const isAdmin: JsValue
    var linkStatuses: seq<LinkStatus>
    var loading: bool
    /** The time of the last successful load, `null` before one. */
    var lastUpdate: Option<int>
    var filter: string

    constructor (token: JsValue, currentUsername: JsValue, isAdmin: JsValue)
      ensures this.token == token && this.currentUsername == currentUsername && this.isAdmin == isAdmin
      ensures linkStatuses == [] && loading && lastUpdate == None && filter == "all"
    {
      this.token := token;
      this.currentUsername := currentUsername;
      this.isAdmin := isAdmin;
      linkStatuses := [];
      loading := true;
      lastUpdate := None;
      filter := "all";
    }

    /** The props check that comes before everything else. */
    predicate MissingAuth()
    {
      !Truthy(token) || !Truthy(currentUsername)
    }

    /** The endpoint loaded: every link for an admin, the user's own otherwise. */
    function Endpoint(): (r: string)
      ensures Truthy(isAdmin) ==> r == "/api/status/links"
      ensures !Truthy(isAdmin) ==> r == "/api/status/links/" + ToJsString(currentUsername)
    {
      if Truthy(isAdmin) then "/api/status/links" else "/api/status/links/" + ToJsString(currentUsername)
    }

    /** `fetchStatuses`: an ok reply replaces the list with `data.links || []` and stamps the
        time; anything else keeps the previous list.  Loading ends either way.  Returns the
        url requested. */
    method FetchStatuses(reply: Reply<Option<seq<LinkStatus>>>, now: int) returns (url: string)
      modifies this
      ensures url == ApiBaseUrl + Endpoint()
      ensures reply.Ok? ==> linkStatuses == reply.data.GetOr([]) && lastUpdate == Some(now)
      ensures !reply.Ok? ==> linkStatuses == old(linkStatuses) && lastUpdate == old(lastUpdate)
      ensures !loading && filter == old(filter)
    {
      loading := true;
      url := ApiBaseUrl + Endpoint();
      if reply.Ok? {
        linkStatuses := reply.data.GetOr([]);
        lastUpdate := Some(now);
      }
      loading := false;
    }

    /** Mounting: with a token and a username the first load runs; without, the error view
        is returned and nothing is loaded. */
    method Mount(reply: Reply<Option<seq<LinkStatus>>>, now: int) returns (view: View)
      modifies this
      ensures MissingAuth() ==> view == AuthErrorView && linkStatuses == old(linkStatuses) && loading == old(loading)
      ensures MissingAuth() ==> lastUpdate == old(lastUpdate)
      ensures !MissingAuth() ==> view == StatusView
      ensures !MissingAuth() && reply.Ok? ==> linkStatuses == reply.data.GetOr([]) && lastUpdate == Some(now)
      ensures !MissingAuth() && !reply.Ok? ==> linkStatuses == old(linkStatuses)
      ensures filter == old(filter)
    {
      if MissingAuth() {
        return AuthErrorView;
      }
      var _ := FetchStatuses(reply, now);
      view := StatusView;
    }

    /** `pingLink`: an ok reply patches the entries with that id; anything else changes nothing. */
    method PingLink(linkId: string, reply: Reply<PingResponse>) returns (url: string)
      modifies this
      ensures url == ApiBaseUrl + "/api/status/ping/" + linkId
      ensures reply.Ok? ==> linkStatuses == Patched(old(linkStatuses), linkId, reply.data)
      ensures !reply.Ok? ==> linkStatuses == old(linkStatuses)
      ensures loading == old(loading) && lastUpdate == old(lastUpdate) && filter == old(filter)
    {
      url := ApiBaseUrl + "/api/status/ping/" + linkId;
      if reply.Ok? {
        linkStatuses := Patched(linkStatuses, linkId, reply.data);
      }
    }

    method SetFilter(f: string)
      modifies this
      ensures filter == f
      ensures linkStatuses == old(linkStatuses) && loading == old(loading) && lastUpdate == old(lastUpdate)
    {
      filter := f;
    }

    /** The links shown, grouped by product and environment. */
    function Shown(): (r: Buckets)
      reads this
      ensures forall p, e :: Bucket(r, p, e) == Select(Filtered(linkStatuses, filter), p, e)
    {
      GroupAll(Filtered(linkStatuses, filter));
      Group(Filtered(linkStatuses, filter))
    }

    /** The counts shown in the header, over the whole list whatever the filter. */
    function Counts(): (r: StatusCounts)
      reads this
      ensures r == CalculateStatusCounts(linkStatuses)
    {
      StatusCounts(|WithStatus(linkStatuses, "online")|, |WithStatus(linkStatuses, "offline")|,
                   |WithStatus(linkStatuses, "warning")|, |linkStatuses|)
    }

    /** The spinner shows only while loading with nothing to show. */
    function TopView(): (v: View)
      reads this
      ensures v == AuthErrorView <==> MissingAuth()
      ensures v == LoadingView <==> !MissingAuth() && loading && linkStatuses == []
    {
      if MissingAuth() then AuthErrorView
      else if loading && |linkStatuses| == 0 then LoadingView
      else StatusView
    }
  }
}
