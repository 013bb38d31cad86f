/** The Jules API client: one request per operation, built from the client's base URL and
    authentication headers, and the normalisation of the transport's answer into a result. */
module Client {
  import opened Messages
  import Urls
  import opened Query

  const DefaultBaseUrl := "https://jules.googleapis.com/v1alpha"
  const ApiKeyHeader := "x-goog-api-key"

  /** The headers every request carries. */
  function AuthHeaders(apiKey: string): (h: map<string, string>)
    ensures h.Keys == {ApiKeyHeader, "Content-Type"}
    ensures h[ApiKeyHeader] == apiKey && h["Content-Type"] == "application/json"
  {
    map[ApiKeyHeader := apiKey, "Content-Type" := "application/json"]
  }

  /** The `create_session` body: each present field carries the caller's value, and a present
      flag is always `true`. */
  function SessionBody(source: string, instruction: string, branch: Option<string>,
                       requirePlanApproval: bool, autoPr: bool): (data: map<string, Json>)
    ensures "source" in data && data["source"] == JString(source)
    ensures "instruction" in data && data["instruction"] == JString(instruction)
    ensures "branch" in data <==> TextGiven(branch)
    ensures "requirePlanApproval" in data <==> requirePlanApproval
    ensures "autoPr" in data <==> autoPr
    ensures "branch" in data ==> data["branch"] == JString(branch.value)
    ensures "requirePlanApproval" in data ==> data["requirePlanApproval"] == JBool(true)
    ensures "autoPr" in data ==> data["autoPr"] == JBool(true)
    ensures data.Keys <= {"source", "instruction", "branch", "requirePlanApproval", "autoPr"}
    ensures data.Keys == {"source", "instruction"} <==> !TextGiven(branch) && !requirePlanApproval && !autoPr
  {
    map["source" := JString(source), "instruction" := JString(instruction)]
    + (if TextGiven(branch) then map["branch" := JString(branch.value)] else map[])
    + (if requirePlanApproval then map["requirePlanApproval" := JBool(true)] else map[])
    + (if autoPr then map["autoPr" := JBool(true)] else map[])
  }

  /** The transport as seen by the client: the answer it gives to a request, which statuses
      the HTTP library accepts as success (`raise_for_status` is not modelled), and the log of
      every request it has been asked to send. */
  class Transport {
    const exchange: Request -> Exchange
    const successful: int -> bool
    var log: seq<Request>

    constructor (exchange: Request -> Exchange, successful: int -> bool)
      ensures this.exchange == exchange && this.successful == successful && log == []
    {
      this.exchange := exchange;
      this.successful := successful;
      log := [];
    }

    /** Sends one request: it is appended to the log, and the answer is the exchange's. */
    method Send(req: Request) returns (x: Exchange)
      modifies this
      ensures log == old(log) + [req]
      ensures x == exchange(req)
    {
      log := log + [req];
      x := exchange(req);
    }
  }

  /** The response half of `_request`. The status check comes first: a rejected status is a
      backend error carrying that status and the body text, whatever the body is. An accepted
      204 or empty body is the empty object. Otherwise the decoded JSON is returned unchanged;
      a body that does not decode, or a request that never completed, is a transport error. */
  function Normalise(x: Exchange, successful: int -> bool): (r: Outcome)
    ensures (r.Err? && r.failure.BackendError?) <==> (x.Completed? && !successful(x.status))
    ensures r.Err? && r.failure.BackendError? ==> r.failure == BackendError(x.status, x.text)
    ensures x.Completed? && successful(x.status) && (x.status == 204 || x.text == "")
            ==> r == Ok(JObject(map[]))
    ensures x.Completed? && successful(x.status) && x.status != 204 && x.text != "" && x.decoded.Parsed?
            ==> r == Ok(x.decoded.value)
    ensures (r.Err? && r.failure.TransportError?)
            <==> (x.Failed? || (x.Completed? && successful(x.status) && x.status != 204
                                && x.text != "" && x.decoded.NotJson?))
    ensures x.Failed? ==> r == Err(TransportError(x.cause))
    ensures x.Completed? && successful(x.status) && x.status != 204 && x.text != "" && x.decoded.NotJson?
            ==> r == Err(TransportError(x.decoded.reason))
    ensures !(r.Err? && r.failure.ConfigurationError?)
  {
    match x
    case Failed(cause) => Err(TransportError(cause))
    case Completed(status, text, decoded) =>
      if !successful(status) then Err(BackendError(status, text))
      else if status == 204 || text == "" then Ok(JObject(map[]))
      else
        match decoded
        case Parsed(v) => Ok(v)
        case NotJson(reason) => Err(TransportError(reason))
  }

  /** The outcome of sending one request once: a success only when the exchange completed with
      an accepted status, and a failed exchange is a transport error carrying its cause. */
  function Perform(req: Request, transport: Transport): (r: Outcome)
    ensures r.Ok? ==> transport.exchange(req).Completed? && transport.successful(transport.exchange(req).status)
    ensures transport.exchange(req).Failed? ==> r == Err(TransportError(transport.exchange(req).cause))
  {
    Normalise(transport.exchange(req), transport.successful)
  }

  class JulesClient {
    const apiKey: string
    const baseUrl: string
    const headers: map<string, string>

    /** The state `__init__` leaves: the headers carry the key, the base has no trailing slash. */
    predicate Valid() {
      headers == AuthHeaders(apiKey) && !Urls.EndsWithSlash(baseUrl)
    }

    constructor (apiKey: string, baseUrl: string := DefaultBaseUrl)
      ensures Valid()
      ensures this.apiKey == apiKey && this.baseUrl == Urls.RStripSlash(baseUrl)
    {
      this.apiKey := apiKey;
      this.baseUrl := Urls.RStripSlash(baseUrl);
      this.headers := AuthHeaders(apiKey);
    }

    /** The request half of `_request`: the URL is the base, one slash and the path with its
        leading slashes trimmed; the headers and body go out as given. */
    function Prepare(verb: Verb, path: string, body: Option<map<string, Json>>): (r: Request)
      requires Valid()
      ensures r.verb == verb && r.body == body
      ensures r.url == Urls.Join(baseUrl, path)
      ensures r.headers.Keys == {ApiKeyHeader, "Content-Type"}
      ensures r.headers[ApiKeyHeader] == apiKey && r.headers["Content-Type"] == "application/json"
    {
      Request(verb, baseUrl + "/" + Urls.LStripSlash(path), headers, body)
    }

    /** The sending half of `_request`: the transport is asked exactly once, and its answer
        is normalised. */
    method Issue(req: Request, transport: Transport) returns (r: Outcome)
      modifies transport
      ensures transport.log == old(transport.log) + [req]
      ensures r == Perform(req, transport)
    {
      var x := transport.Send(req);
      r := Normalise(x, transport.successful);
    }

    function ListSources(): (r: Request)
      requires Valid()
      ensures r == Request(GET, Urls.Join(baseUrl, "sources"), AuthHeaders(apiKey), None)
    {
      Prepare(GET, "sources", None)
    }

    /** `sourceName` is used as the path unchanged, e.g. `sources/github/owner/repo`. */
    function GetSource(sourceName: string): (r: Request)
      requires Valid()
      ensures r == Request(GET, Urls.Join(baseUrl, sourceName), AuthHeaders(apiKey), None)
    {
      Prepare(GET, sourceName, None)
    }

    method ListSessions(pageSize: Option<int> := None, pageToken: Option<string> := None) returns (r: Request)
      requires Valid()
      ensures r == Request(GET, Urls.Join(baseUrl, Paged("sessions", pageSize, pageToken)), AuthHeaders(apiKey), None)
    {
      var params: seq<string> := [];
      if SizeGiven(pageSize) {
        params := params + ["pageSize=" + Decimal(pageSize.value)];
      }
      if TextGiven(pageToken) {
        params := params + ["pageToken=" + pageToken.value];
      }
      var path := "sessions";
      if params != [] {
        path := path + "?" + JoinWith('&', params);
      }
      r := Prepare(GET, path, None);
    }

    method CreateSession(source: string, instruction: string, branch: Option<string> := None,
                         requirePlanApproval: bool := false, autoPr: bool := false) returns (r: Request)
      requires Valid()
      ensures r == Request(POST, Urls.Join(baseUrl, "sessions"), AuthHeaders(apiKey),
                           Some(SessionBody(source, instruction, branch, requirePlanApproval, autoPr)))
    {
      var data := map["source" := JString(source), "instruction" := JString(instruction)];
      ghost var body := data;
      if TextGiven(branch) {
        data := data["branch" := JString(branch.value)];
        assert data == body + map["branch" := JString(branch.value)];
      }
      body := body + (if TextGiven(branch) then map["branch" := JString(branch.value)] else map[]);
      if requirePlanApproval {
        data := data["requirePlanApproval" := JBool(requirePlanApproval)];
        assert data == body + map["requirePlanApproval" := JBool(true)];
      }
      body := body + (if requirePlanApproval then map["requirePlanApproval" := JBool(true)] else map[]);
      if autoPr {
        data := data["autoPr" := JBool(autoPr)];
        assert data == body + map["autoPr" := JBool(true)];
      }
      body := body + (if autoPr then map["autoPr" := JBool(true)] else map[]);
      assert data == body;
      r := Prepare(POST, "sessions", Some(data));
    }

    function GetSession(sessionName: string): (r: Request)
      requires Valid()
      ensures r == Request(GET, Urls.Join(baseUrl, sessionName), AuthHeaders(apiKey), None)
    {
      Prepare(GET, sessionName, None)
    }

    function DeleteSession(sessionName: string): (r: Request)
      requires Valid()
      ensures r == Request(DELETE, Urls.Join(baseUrl, sessionName), AuthHeaders(apiKey), None)
    {
      Prepare(DELETE, sessionName, None)
    }

    /** POST to the compound path `{name}:approvePlan` with an empty object body. */
    function ApprovePlan(sessionName: string): (r: Request)
      requires Valid()
      ensures r == Request(POST, Urls.Join(baseUrl, sessionName + ":approvePlan"), AuthHeaders(apiKey), Some(map[]))
    {
      Prepare(POST, sessionName + ":approvePlan", Some(map[]))
    }

    /** POST to `{name}:sendMessage` with a body holding only the prompt. */
    function SendMessage(sessionName: string, prompt: string): (r: Request)
      requires Valid()
      ensures r == Request(POST, Urls.Join(baseUrl, sessionName + ":sendMessage"), AuthHeaders(apiKey),
                           Some(map["prompt" := JString(prompt)]))
    {
      Prepare(POST, sessionName + ":sendMessage", Some(map["prompt" := JString(prompt)]))
    }

    method ListActivities(sessionName: string, pageSize: Option<int> := None, pageToken: Option<string> := None)
      returns (r: Request)
      requires Valid()
      ensures r == Request(GET, Urls.Join(baseUrl, Paged(sessionName + "/activities", pageSize, pageToken)),
                           AuthHeaders(apiKey), None)
    {
      var params: seq<string> := [];
      if SizeGiven(pageSize) {
        params := params + ["pageSize=" + Decimal(pageSize.value)];
      }
      if TextGiven(pageToken) {
        params := params + ["pageToken=" + pageToken.value];
      }
      var path := sessionName + "/activities";
      if params != [] {
        path := path + "?" + JoinWith('&', params);
      }
      r := Prepare(GET, path, None);
    }

    function GetActivity(activityName: string): (r: Request)
      requires Valid()
      ensures r == Request(GET, Urls.Join(baseUrl, activityName), AuthHeaders(apiKey), None)
    {
      Prepare(GET, activityName, None)
    }
  }
}
