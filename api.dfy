/**
 * The request helpers of the frontend: the URL, method, headers and JSON body of each
 * API call, and the error message of a failed reply.  Header objects and bodies are
 * maps; JavaScript's object spread `{...a, ...b}` is the map union `a + b`, in which
 * the right operand wins.
 */
module Api {
  import opened Wrappers
  import opened Text
  import opened Js

  const ApiBaseUrl := "http://localhost:8000"

  const LoginEndpoint := "/api/login"
  const LogoutEndpoint := "/api/logout"
  const RegisterEndpoint := "/api/register"
  const DashboardEndpoint := "/api/dashboard"
  const UsersEndpoint := "/api/users"
  const ClearCacheEndpoint := "/api/clear-cache"
  const HealthEndpoint := "/api/health"
  const StatusLinksEndpoint := "/api/status/links"
  const StatusPingEndpoint := "/api/status/ping"

  /** The `options` argument of `fetch`; an absent method is `GET`. */
  datatype Options = Options(httpMethod: Option<string>, headers: map<string, string>, body: Option<map<string, JsValue>>)

  datatype Request = Request(url: string, httpMethod: string, headers: map<string, string>, body: Option<map<string, JsValue>>)

  const NoOptions := Options(None, map[], None)

  /** `apiRequest`: the JSON content type unless the caller supplies one. */
  function ApiRequest(endpoint: string, options: Options): (r: Request)
    ensures r.url == ApiBaseUrl + endpoint
    ensures r.httpMethod == options.httpMethod.GetOr("GET") && r.body == options.body
    ensures r.headers.Keys == options.headers.Keys + {"Content-Type"}
    ensures forall k :: k in options.headers ==> r.headers[k] == options.headers[k]
    ensures "Content-Type" !in options.headers ==> r.headers["Content-Type"] == "application/json"
  {
    Request(ApiBaseUrl + endpoint, options.httpMethod.GetOr("GET"),
            map["Content-Type" := "application/json"] + options.headers, options.body)
  }

  /** `authenticatedRequest`: the bearer token is set last, over any caller Authorization. */
  function AuthenticatedRequest(endpoint: string, token: JsValue, options: Options): (r: Request)
    ensures r.url == ApiBaseUrl + endpoint
    ensures r.httpMethod == options.httpMethod.GetOr("GET") && r.body == options.body
    ensures "Authorization" in r.headers && r.headers["Authorization"] == "Bearer " + ToJsString(token)
    ensures r.headers.Keys == options.headers.Keys + {"Content-Type", "Authorization"}
    ensures forall k :: k in options.headers && k != "Authorization" ==> r.headers[k] == options.headers[k]
    ensures "Content-Type" !in options.headers ==> r.headers["Content-Type"] == "application/json"
  {
    ApiRequest(endpoint, options.(headers := options.headers + map["Authorization" := "Bearer " + ToJsString(token)]))
  }

  /** What a call through `apiRequest` resolves to or rejects with: the decoded body of an
      ok reply, else the reply's `detail` when truthy, else `Request failed: <status>`. */
  function Complete<T>(reply: Reply<T>): (r: Result<T, string>)
    ensures reply.Ok? <==> r.Success?
    ensures reply.Ok? ==> r.value == reply.data
    ensures reply.NotOk? && Truthy(reply.detail) ==> r.error == ToJsString(reply.detail)
    ensures reply.NotOk? && !Truthy(reply.detail) ==> r.error == "Request failed: " + NatToString(reply.status)
    ensures reply.Thrown? ==> r.error == reply.message
  {
    match reply
    case Ok(data) => Success(data)
    case NotOk(status, detail) => Failure(DetailOr(detail, "Request failed: " + NatToString(status)))
    case Thrown(message) => Failure(message)
  }

  function Login(username: string, password: string): (r: Request)
    ensures r.url == ApiBaseUrl + LoginEndpoint && r.httpMethod == "POST" && "Authorization" !in r.headers
    ensures r.body == Some(map["username" := Str(username), "password" := Str(password)])
  {
    ApiRequest(LoginEndpoint, Options(Some("POST"), map[], Some(map["username" := Str(username), "password" := Str(password)])))
  }

  function Logout(token: JsValue): (r: Request)
    ensures r.url == ApiBaseUrl + LogoutEndpoint && r.httpMethod == "POST" && r.body == None
    ensures "Authorization" in r.headers && r.headers["Authorization"] == "Bearer " + ToJsString(token)
  {
    AuthenticatedRequest(LogoutEndpoint, token, Options(Some("POST"), map[], None))
  }

  /** `register`: an omitted (undefined) admin flag is sent as `false`. */
  function Register(username: string, password: string, wikiUrl: string, isAdmin: JsValue): (r: Request)
    ensures r.url == ApiBaseUrl + RegisterEndpoint && r.httpMethod == "POST" && "Authorization" !in r.headers
    ensures r.body.Some? && r.body.value.Keys == {"username", "password", "wiki_url", "is_admin"}
    ensures r.body.value["wiki_url"] == Str(wikiUrl)
    ensures r.body.value["is_admin"] == if isAdmin == Undefined then Bool(false) else isAdmin
  {
    var admin := if isAdmin == Undefined then Bool(false) else isAdmin;
    ApiRequest(RegisterEndpoint, Options(Some("POST"), map[],
      Some(map["username" := Str(username), "password" := Str(password), "wiki_url" := Str(wikiUrl), "is_admin" := admin])))
  }

  function GetDashboard(token: JsValue): (r: Request)
    ensures r.url == ApiBaseUrl + DashboardEndpoint && r.httpMethod == "GET"
    ensures "Authorization" in r.headers && r.headers["Authorization"] == "Bearer " + ToJsString(token)
  {
    AuthenticatedRequest(DashboardEndpoint, token, NoOptions)
  }

  function GetUserDashboard(token: JsValue, username: string): (r: Request)
    ensures r.url == ApiBaseUrl + DashboardEndpoint + "/" + username && r.httpMethod == "GET"
    ensures "Authorization" in r.headers && r.headers["Authorization"] == "Bearer " + ToJsString(token)
  {
    AuthenticatedRequest(DashboardEndpoint + "/" + username, token, NoOptions)
  }

  function ClearCache(token: JsValue): (r: Request)
    ensures r.url == ApiBaseUrl + ClearCacheEndpoint && r.httpMethod == "POST"
    ensures "Authorization" in r.headers && r.headers["Authorization"] == "Bearer " + ToJsString(token)
  {
    AuthenticatedRequest(ClearCacheEndpoint, token, Options(Some("POST"), map[], None))
  }

  function GetUsers(token: JsValue): (r: Request)
    ensures r.url == ApiBaseUrl + UsersEndpoint && r.httpMethod == "GET"
    ensures "Authorization" in r.headers && r.headers["Authorization"] == "Bearer " + ToJsString(token)
  {
    AuthenticatedRequest(UsersEndpoint, token, NoOptions)
  }

  /** `updateUser`: the body is `{username, ...updates}`, so a `username` among the
      updates replaces the path's username in the body. */
  function UpdateUser(token: JsValue, username: string, updates: map<string, JsValue>): (r: Request)
    ensures r.url == ApiBaseUrl + UsersEndpoint + "/" + username && r.httpMethod == "PUT"
    ensures "Authorization" in r.headers && r.headers["Authorization"] == "Bearer " + ToJsString(token)
    ensures r.body.Some? && r.body.value.Keys == updates.Keys + {"username"}
    ensures r.body.value["username"] == if "username" in updates then updates["username"] else Str(username)
    ensures forall k :: k in updates ==> r.body.value[k] == updates[k]
  {
    AuthenticatedRequest(UsersEndpoint + "/" + username, token,
                         Options(Some("PUT"), map[], Some(map["username" := Str(username)] + updates)))
  }

  function DeleteUser(token: JsValue, username: string): (r: Request)
    ensures r.url == ApiBaseUrl + UsersEndpoint + "/" + username && r.httpMethod == "DELETE"
    ensures "Authorization" in r.headers && r.headers["Authorization"] == "Bearer " + ToJsString(token)
  {
    AuthenticatedRequest(UsersEndpoint + "/" + username, token, Options(Some("DELETE"), map[], None))
  }

  function GetAllLinkStatuses(token: JsValue): (r: Request)
    ensures r.url == ApiBaseUrl + StatusLinksEndpoint && r.httpMethod == "GET"
    ensures "Authorization" in r.headers && r.headers["Authorization"] == "Bearer " + ToJsString(token)
  {
    AuthenticatedRequest(StatusLinksEndpoint, token, NoOptions)
  }

  function GetUserLinkStatuses(token: JsValue, username: string): (r: Request)
    ensures r.url == ApiBaseUrl + StatusLinksEndpoint + "/" + username && r.httpMethod == "GET"
    ensures "Authorization" in r.headers && r.headers["Authorization"] == "Bearer " + ToJsString(token)
  {
    AuthenticatedRequest(StatusLinksEndpoint + "/" + username, token, NoOptions)
  }

  function PingLink(token: JsValue, linkId: string): (r: Request)
    ensures r.url == ApiBaseUrl + StatusPingEndpoint + "/" + linkId && r.httpMethod == "POST"
    ensures "Authorization" in r.headers && r.headers["Authorization"] == "Bearer " + ToJsString(token)
  {
    AuthenticatedRequest(StatusPingEndpoint + "/" + linkId, token, Options(Some("POST"), map[], None))
  }

  function HealthCheck(): (r: Request)
    ensures r.url == ApiBaseUrl + HealthEndpoint && r.httpMethod == "GET" && r.headers == map["Content-Type" := "application/json"]
  {
    ApiRequest(HealthEndpoint, NoOptions)
  }
}
