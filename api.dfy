/**
 * The dashboard's request pipeline (dashboard/lib/api.ts): one HTTP client created at
 * start-up with a base URL and default headers, a request interceptor that attaches the
 * stored bearer token, and per-resource request builders.
 */
module Api {
  import opened Wrappers
  import opened Text

  const DefaultBaseUrl := "http://localhost:8000/api/v1"

  /** The one browser-storage key the dashboard persists: the bearer token. */
  const TokenKey := "token"

  /** `NEXT_PUBLIC_API_URL || default`: an unset or empty setting falls back to the default. */
  function BaseUrl(envApiUrl: Option<string>): (url: string)
    ensures envApiUrl.Some? && envApiUrl.value != "" ==> url == envApiUrl.value
    ensures envApiUrl.None? || envApiUrl.value == "" ==> url == DefaultBaseUrl
    ensures url != ""
  {
    if envApiUrl.Some? && envApiUrl.value != "" then envApiUrl.value else DefaultBaseUrl
  }

  datatype Verb = Get | Post | Patch | Delete

  /** The JSON values request bodies carry. */
  datatype Json = JString(s: string) | JInt(i: int) | JBool(b: bool) | JNull

  /** The `axios.create` instance: base URL and the headers every request starts with. */
  datatype Client = Client(baseUrl: string, defaultHeaders: map<string, string>)

  /** A request as the interceptor sees it and as it goes out. */
  datatype Request = Request(
    verb: Verb, baseUrl: string, path: string,
    body: Option<map<string, Json>>, headers: map<string, string>)

  function CreateClient(envApiUrl: Option<string>): (c: Client)
    ensures c.baseUrl == BaseUrl(envApiUrl)
    ensures c.defaultHeaders.Keys == {"Content-Type"} && c.defaultHeaders["Content-Type"] == "application/json"
  {
    Client(BaseUrl(envApiUrl), map["Content-Type" := "application/json"])
  }

  /** A request issued through the client: its base URL and its default headers. */
  function Call(c: Client, verb: Verb, path: string, body: Option<map<string, Json>>): (r: Request)
    ensures r.baseUrl == c.baseUrl && r.headers == c.defaultHeaders
    ensures r.verb == verb && r.path == path && r.body == body
  {
    Request(verb, c.baseUrl, path, body, c.defaultHeaders)
  }

  /** `localStorage.getItem(key)` is truthy: present and not the empty string. */
  function StoredToken(storage: map<string, string>): (t: Option<string>)
    ensures t.Some? <==> TokenKey in storage && storage[TokenKey] != ""
    ensures t.Some? ==> t.value == storage[TokenKey]
  {
    if TokenKey in storage && storage[TokenKey] != "" then Some(storage[TokenKey]) else None
  }

  /**
   * The interceptor's effect on the headers: in a browser with a non-empty stored token
   * `t`, `Authorization` becomes `"Bearer " + t`; otherwise the headers are left alone.
   */
  function AttachToken(headers: map<string, string>, inBrowser: bool, storage: map<string, string>): (h: map<string, string>)
    ensures inBrowser && StoredToken(storage).Some? ==>
      h.Keys == headers.Keys + {"Authorization"} && h["Authorization"] == "Bearer " + StoredToken(storage).value
    ensures inBrowser && StoredToken(storage).Some? ==>
      forall k :: k in headers && k != "Authorization" ==> h[k] == headers[k]
    ensures !inBrowser || StoredToken(storage).None? ==> h == headers
  {
    if inBrowser then
      match StoredToken(storage)
      case Some(token) => headers["Authorization" := "Bearer " + token]
      case None => headers
    else headers
  }

  /** The credential an `Authorization: Bearer <t>` header carries, as a server reads it. */
  function BearerCredential(headers: map<string, string>): Option<string>
  {
    if "Authorization" in headers && StartsWith(headers["Authorization"], "Bearer ")
    then Some(headers["Authorization"][7..])
    else None
  }

  /**
   * Every request sent from a browser carries exactly the stored credential when there is
   * one, and none otherwise (unless the caller set the header itself).
   */
  lemma CredentialRoundTrip(headers: map<string, string>, storage: map<string, string>)
    requires "Authorization" !in headers
    ensures BearerCredential(AttachToken(headers, true, storage)) == StoredToken(storage)
  {
    var h := AttachToken(headers, true, storage);
    if StoredToken(storage).Some? {
      var t := StoredToken(storage).value;
      assert h["Authorization"] == "Bearer " + t;
      assert h["Authorization"][..7] == "Bearer ";
      assert h["Authorization"][7..] == t;
    }
  }

  /** The request after the interceptor: only its headers may differ. */
  function Intercepted(r: Request, inBrowser: bool, storage: map<string, string>): (out: Request)
    ensures out.verb == r.verb && out.baseUrl == r.baseUrl && out.path == r.path && out.body == r.body
    ensures out.headers == AttachToken(r.headers, inBrowser, storage)
  {
    r.(headers := AttachToken(r.headers, inBrowser, storage))
  }

  /** The mutable request config object axios hands to the interceptor. */
  class RequestConfig {
    var verb: Verb
    var baseUrl: string
    var path: string
    var body: Option<map<string, Json>>
    var headers: map<string, string>

    function Value(): Request
      reads this
    {
      Request(verb, baseUrl, path, body, headers)
    }

    constructor (r: Request)
      ensures Value() == r
    {
      verb, baseUrl, path, body, headers := r.verb, r.baseUrl, r.path, r.body, r.headers;
    }

    /** The request interceptor: sets the header on the config in place and hands it back. */
    method Intercept(inBrowser: bool, storage: map<string, string>) returns (config: RequestConfig)
      modifies this`headers
      ensures config == this
      ensures Value() == Intercepted(old(Value()), inBrowser, storage)
    {
      if inBrowser {
        var token := StoredToken(storage);
        if token.Some? {
          headers := headers["Authorization" := "Bearer " + token.value];
        }
      }
      config := this;
    }
  }

  // authAPI

  function RegisterCall(c: Client, email: string, password: string, fullName: string): (r: Request)
    ensures r.verb == Post && r.path == "/auth/register" && r.body.Some?
    ensures r.body.value.Keys == {"email", "password", "full_name"}
    ensures r.body.value["email"] == JString(email) && r.body.value["password"] == JString(password)
    ensures r.body.value["full_name"] == JString(fullName)
  {
    Call(c, Post, "/auth/register",
      Some(map["email" := JString(email), "password" := JString(password), "full_name" := JString(fullName)]))
  }

  function LoginCall(c: Client, email: string, password: string): (r: Request)
    ensures r.verb == Post && r.path == "/auth/login"
    ensures r.body == Some(map["email" := JString(email), "password" := JString(password)])
  {
    Call(c, Post, "/auth/login", Some(map["email" := JString(email), "password" := JString(password)]))
  }

  function MeCall(c: Client): (r: Request)
    ensures r.verb == Get && r.path == "/auth/me" && r.body.None?
  {
    Call(c, Get, "/auth/me", None)
  }

  // printersAPI

  function PrintersListCall(c: Client): (r: Request)
    ensures r.verb == Get && r.path == "/printers" && r.body.None?
  {
    Call(c, Get, "/printers", None)
  }

  function PrinterGetCall(c: Client, id: int): (r: Request)
    ensures r.verb == Get && StartsWith(r.path, "/printers/") && r.body.None?
  {
    Call(c, Get, "/printers/" + IntToString(id), None)
  }

  function PrinterDeleteCall(c: Client, id: int): (r: Request)
    ensures r.verb == Delete && StartsWith(r.path, "/printers/") && r.body.None?
  {
    Call(c, Delete, "/printers/" + IntToString(id), None)
  }

  // metricsAPI

  function MetricsSummaryCall(c: Client): (r: Request)
    ensures r.verb == Get && r.path == "/metrics/summary" && r.body.None?
  {
    Call(c, Get, "/metrics/summary", None)
  }

  /** `history(printerId, days = 7)`: a missing `days` argument means seven days. */
  function MetricsHistoryCall(c: Client, printerId: int, days: Option<int>): (r: Request)
    ensures r.verb == Get && StartsWith(r.path, "/metrics/") && r.body.None?
  {
    var d := match days case Some(n) => n case None => 7;
    Call(c, Get, "/metrics/" + IntToString(printerId) + "?days=" + IntToString(d), None)
  }

  // devicesAPI

  function DevicesListCall(c: Client): (r: Request)
    ensures r.verb == Get && r.path == "/devices" && r.body.None?
  {
    Call(c, Get, "/devices", None)
  }

  function DeviceRegisterCall(c: Client, name: string, version: string): (r: Request)
    ensures r.verb == Post && r.path == "/devices/register" && r.body.Some?
    ensures r.body.value.Keys == {"name", "version"}
    ensures r.body.value["name"] == JString(name) && r.body.value["version"] == JString(version)
  {
    Call(c, Post, "/devices/register", Some(map["name" := JString(name), "version" := JString(version)]))
  }

  // remoteSubnetsAPI

  function SubnetsListCall(c: Client): (r: Request)
    ensures r.verb == Get && r.path == "/remote-subnets" && r.body.None?
  {
    Call(c, Get, "/remote-subnets", None)
  }

  /**
   * `create(subnet, description?, deviceId?)`: the body `{subnet, description, device_id}`;
   * JSON serialisation drops the members whose value is `undefined`.
   */
  function SubnetCreateCall(c: Client, subnet: string, description: Option<string>, deviceId: Option<int>): (r: Request)
    ensures r.verb == Post && r.path == "/remote-subnets" && r.body.Some?
    ensures "subnet" in r.body.value && r.body.value["subnet"] == JString(subnet)
    ensures "description" in r.body.value <==> description.Some?
    ensures description.Some? ==> r.body.value["description"] == JString(description.value)
    ensures "device_id" in r.body.value <==> deviceId.Some?
    ensures deviceId.Some? ==> r.body.value["device_id"] == JInt(deviceId.value)
    ensures r.body.value.Keys <= {"subnet", "description", "device_id"}
  {
    var withSubnet := map["subnet" := JString(subnet)];
    var withDescription := match description
      case Some(d) => withSubnet["description" := JString(d)]
      case None => withSubnet;
    var body := match deviceId
      case Some(id) => withDescription["device_id" := JInt(id)]
      case None => withDescription;
    Call(c, Post, "/remote-subnets", Some(body))
  }

  /** `update(id, data)`: the caller's fields are sent as they are. */
  function SubnetUpdateCall(c: Client, id: int, data: map<string, Json>): (r: Request)
    ensures r.verb == Patch && StartsWith(r.path, "/remote-subnets/") && r.body == Some(data)
  {
    Call(c, Patch, "/remote-subnets/" + IntToString(id), Some(data))
  }

  function SubnetDeleteCall(c: Client, id: int): (r: Request)
    ensures r.verb == Delete && StartsWith(r.path, "/remote-subnets/") && r.body.None?
  {
    Call(c, Delete, "/remote-subnets/" + IntToString(id), None)
  }

  /** The id a server route like `/printers/{id}` reads from a path under `prefix`. */
  function PathId(prefix: string, path: string): Option<int>
  {
    if StartsWith(path, prefix) then ParseInt(path[|prefix|..]) else None
  }

  /** The builders that address one record put its id where the server's route reads it. */
  lemma IdPathsReadBack(c: Client, id: int)
    ensures PathId("/printers/", PrinterGetCall(c, id).path) == Some(id)
    ensures PathId("/printers/", PrinterDeleteCall(c, id).path) == Some(id)
    ensures PrinterDeleteCall(c, id).verb == Delete
    ensures forall data :: PathId("/remote-subnets/", SubnetUpdateCall(c, id, data).path) == Some(id)
    ensures PathId("/remote-subnets/", SubnetDeleteCall(c, id).path) == Some(id)
  {
    IntToStringRoundTrip(id);
    var p := "/printers/" + IntToString(id);
    assert p[|"/printers/"|..] == IntToString(id);
    var q := "/remote-subnets/" + IntToString(id);
    assert q[|"/remote-subnets/"|..] == IntToString(id);
  }

  /** Reads `/metrics/{id}?days={n}` back into its printer id and day count. */
  function HistoryQuery(path: string): Option<(int, int)>
  {
    if !StartsWith(path, "/metrics/") then None
    else
      var parts := Split(path[9..], '?');
      if |parts| != 2 || !StartsWith(parts[1], "days=") then None
      else match (ParseInt(parts[0]), ParseInt(parts[1][5..]))
        case (Some(id), Some(days)) => Some((id, days))
        case _ => None
  }

  /** The history request names the printer and the day count (seven when none is given). */
  lemma HistoryPathReadsBack(c: Client, printerId: int, days: Option<int>)
    ensures HistoryQuery(MetricsHistoryCall(c, printerId, days).path)
      == Some((printerId, match days case Some(n) => n case None => 7))
  {
    var d := match days case Some(n) => n case None => 7;
    var idText, dayText := IntToString(printerId), IntToString(d);
    var query := "days=" + dayText;
    var path := "/metrics/" + idText + "?days=" + dayText;
    assert path[..9] == "/metrics/";
    assert path[9..] == idText + ['?'] + query;
    IntToStringLacks(printerId, '?');
    IntToStringLacks(d, '?');
    assert '?' !in query by {
      assert query[5..] == dayText;
      assert forall k :: 5 <= k < |query| ==> query[k] == dayText[k - 5];
    }
    SplitCons(idText, query, '?');
    SplitSeparatorFree(query, '?');
    assert query[..5] == "days=" && query[5..] == dayText;
    IntToStringRoundTrip(printerId);
    IntToStringRoundTrip(d);
  }
}
