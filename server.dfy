/** The tool bridge: a fixed registry of ten tools. Each invocation resolves the credential,
    fails with a configuration error when it is empty, and otherwise builds a fresh client and
    forwards its arguments unchanged to the same-named client operation, returning that
    operation's result as it is. */
module Server {
  import opened Messages
  import Urls
  import opened Query
  import opened Client

  const MissingKeyMessage := "Jules API key not found. Please ensure Secret Manager is configured or JULES_API_KEY is set."

  /** One invocation of a registered tool, with its arguments. Optional arguments carry the
      same defaults as the client operation they are forwarded to. */
  datatype ToolCall =
    | ListSources
    | GetSource(sourceName: string)
    | ListSessions(pageSize: Option<int> := None, pageToken: Option<string> := None)
    | CreateSession(source: string, instruction: string, branch: Option<string> := None,
                    requirePlanApproval: bool := false, autoPr: bool := false)
    | GetSession(sessionName: string)
    | DeleteSession(sessionName: string)
    | ApprovePlan(sessionName: string)
    | SendMessage(sessionName: string, prompt: string)
    | ListActivities(sessionName: string, pageSize: Option<int> := None, pageToken: Option<string> := None)
    | GetActivity(activityName: string)

  /** The names under which the tools are registered. */
  const Registry: seq<string> := [
    "list_sources", "get_source", "list_sessions", "create_session", "get_session",
    "delete_session", "approve_plan", "send_message", "list_activities", "get_activity"
  ]

  function ToolName(call: ToolCall): (name: string)
    ensures name in Registry
  {
    match call
    case ListSources => Registry[0]
    case GetSource(_) => Registry[1]
    case ListSessions(_, _) => Registry[2]
    case CreateSession(_, _, _, _, _) => Registry[3]
    case GetSession(_) => Registry[4]
    case DeleteSession(_) => Registry[5]
    case ApprovePlan(_) => Registry[6]
    case SendMessage(_, _) => Registry[7]
    case ListActivities(_, _, _) => Registry[8]
    case GetActivity(_) => Registry[9]
  }

  /** The registry holds exactly ten distinct tools, and each of them is reached by some call. */
  lemma RegistryIsFixed()
    ensures |Registry| == 10
    ensures forall i, j | 0 <= i < j < |Registry| :: Registry[i] != Registry[j]
    ensures forall name | name in Registry :: exists call :: ToolName(call) == name
  {
    RegistryIsDistinct();
    var calls := [ListSources, GetSource(""), ListSessions(), CreateSession("", ""), GetSession(""),
                  DeleteSession(""), ApprovePlan(""), SendMessage("", ""), ListActivities(""), GetActivity("")];
    forall name | name in Registry ensures exists call :: ToolName(call) == name {
      var i :| 0 <= i < |Registry| && Registry[i] == name;
      assert ToolName(calls[i]) == name;
    }
  }

  /** Used only by the proof of `RegistryIsDistinct`: the position of a registered name,
      read off its length and first letter. */
  function RegistryIndex(name: string): int {
    if |name| == 0 then -1
    else match (|name|, name[0])
      case (12, 'l') => 0
      case (10, _) => 1
      case (13, _) => 2
      case (14, 'c') => 3
      case (11, _) => 4
      case (14, 'd') => 5
      case (12, 'a') => 6
      case (12, 's') => 7
      case (15, _) => 8
      case (12, 'g') => 9
      case _ => -1
  }

  /** No name is registered twice: each name's position can be read back from the name. */
  lemma RegistryIsDistinct()
    ensures forall i, j | 0 <= i < j < |Registry| :: Registry[i] != Registry[j]
  {
    forall i | 0 <= i < |Registry| ensures RegistryIndex(Registry[i]) == i {
    }
  }

  /** `get_client`: an empty credential is a configuration error and no client is built;
      otherwise a fresh client bound to the credential and the default base URL. */
  method GetClient(credential: string) returns (r: Result<JulesClient>)
    ensures r.Err? <==> credential == ""
    ensures r.Err? ==> r.failure == ConfigurationError(MissingKeyMessage)
    ensures r.Ok? ==> fresh(r.value) && r.value.Valid()
    ensures r.Ok? ==> r.value.apiKey == credential && r.value.baseUrl == DefaultBaseUrl
  {
    if credential == "" {
      return Err(ConfigurationError(MissingKeyMessage));
    }
    var client := new JulesClient(credential);
    return Ok(client);
  }

  /** The verb, path and body the same-named client operation uses for the tool's arguments. */
  function ToolRoute(call: ToolCall): (Verb, string, Option<map<string, Json>>) {
    match call
    case ListSources => (GET, "sources", None)
    case GetSource(name) => (GET, name, None)
    case ListSessions(size, token) => (GET, Paged("sessions", size, token), None)
    case CreateSession(source, instruction, branch, approval, autoPr) =>
      (POST, "sessions", Some(SessionBody(source, instruction, branch, approval, autoPr)))
    case GetSession(name) => (GET, name, None)
    case DeleteSession(name) => (DELETE, name, None)
    case ApprovePlan(name) => (POST, name + ":approvePlan", Some(map[]))
    case SendMessage(name, prompt) => (POST, name + ":sendMessage", Some(map["prompt" := JString(prompt)]))
    case ListActivities(name, size, token) => (GET, Paged(name + "/activities", size, token), None)
    case GetActivity(name) => (GET, name, None)
  }

  /** Reference for forwarding: the request the same-named client operation builds for a client
      bound to `apiKey` and the default base URL, with the tool's arguments unchanged. */
  function ToolRequest(apiKey: string, call: ToolCall): Request {
    var (verb, path, body) := ToolRoute(call);
    Request(verb, Urls.Join(DefaultBaseUrl, path), AuthHeaders(apiKey), body)
  }

  lemma DefaultBaseUrlIsTrimmed()
    ensures Urls.RStripSlash(DefaultBaseUrl) == DefaultBaseUrl
  {
    assert DefaultBaseUrl[|DefaultBaseUrl| - 1] == 'a';
  }

  /** The body of each tool: the same-named client operation, called with the tool's
      arguments unchanged, on a client bound to the default base URL. */
  method Forward(client: JulesClient, call: ToolCall) returns (req: Request)
    requires client.Valid() && client.baseUrl == DefaultBaseUrl
    ensures req == ToolRequest(client.apiKey, call)
  {
    match call {
      case ListSources => req := client.ListSources();
      case GetSource(name) => req := client.GetSource(name);
      case ListSessions(size, token) => req := client.ListSessions(size, token);
      case CreateSession(source, instruction, branch, approval, autoPr) =>
        req := client.CreateSession(source, instruction, branch, approval, autoPr);
      case GetSession(name) => req := client.GetSession(name);
      case DeleteSession(name) => req := client.DeleteSession(name);
      case ApprovePlan(name) => req := client.ApprovePlan(name);
      case SendMessage(name, prompt) => req := client.SendMessage(name, prompt);
      case ListActivities(name, size, token) => req := client.ListActivities(name, size, token);
      case GetActivity(name) => req := client.GetActivity(name);
    }
  }

  /** One tool invocation. An empty credential fails with a configuration error before any
      request is built, and the transport is never asked. Otherwise the transport is asked
      exactly once, with the request the same-named client operation builds from the
      arguments, and the tool returns that request's normalised outcome as it is. */
  method Invoke(credential: string, call: ToolCall, transport: Transport) returns (r: Outcome)
    modifies transport
    ensures transport.log == old(transport.log) + (if credential == "" then [] else [ToolRequest(credential, call)])
    ensures credential == "" ==> r == Err(ConfigurationError(MissingKeyMessage))
    ensures credential != "" ==> r == Perform(ToolRequest(credential, call), transport)
  {
    var got := GetClient(credential);
    if got.Err? {
      return Err(got.failure);
    }
    var client := got.value;
    var req := Forward(client, call);
    r := client.Issue(req, transport);
  }

  /** Every request a tool issues goes to the default host under one slash and carries the
      credential and the JSON content type. */
  lemma ToolRequestsAreAuthenticated(apiKey: string, call: ToolCall)
    ensures var req := ToolRequest(apiKey, call);
      && |DefaultBaseUrl| < |req.url| && req.url[..|DefaultBaseUrl| + 1] == DefaultBaseUrl + "/"
      && req.headers.Keys == {ApiKeyHeader, "Content-Type"}
      && req.headers[ApiKeyHeader] == apiKey && req.headers["Content-Type"] == "application/json"
  {
    DefaultBaseUrlIsTrimmed();
    var (_, path, _) := ToolRoute(call);
    var url := DefaultBaseUrl + "/" + Urls.LStripSlash(path);
    assert url[..|DefaultBaseUrl| + 1] == DefaultBaseUrl + "/";
  }

  /** The name-addressed tools use the caller's resource name unchanged as the path: with no
      leading slash, the URL is the base, one slash, and the name. */
  lemma NameAddressedToolsUseNameAsPath(apiKey: string, call: ToolCall)
    requires call.GetSource? || call.GetSession? || call.DeleteSession? || call.GetActivity?
    ensures var name := match call
        case GetSource(n) => n
        case GetSession(n) => n
        case DeleteSession(n) => n
        case GetActivity(n) => n
        case _ => "";
      !Urls.StartsWithSlash(name) ==> ToolRequest(apiKey, call).url == DefaultBaseUrl + "/" + name
    ensures ToolRequest(apiKey, call).body == None
    ensures ToolRequest(apiKey, call).verb == if call.DeleteSession? then DELETE else GET
  {
    DefaultBaseUrlIsTrimmed();
  }

  /** `create_session` with only a source and an instruction POSTs to `.../v1alpha/sessions`
      a body with exactly those two fields. */
  lemma CreateSessionWithDefaults(apiKey: string, source: string, instruction: string)
    ensures var req := ToolRequest(apiKey, CreateSession(source, instruction));
      && req.verb == POST
      && req.url == "https://jules.googleapis.com/v1alpha/sessions"
      && req.body == Some(map["source" := JString(source), "instruction" := JString(instruction)])
  {
    var body := SessionBody(source, instruction, None, false, false);
    var expected := map["source" := JString(source), "instruction" := JString(instruction)];
    assert expected + map[] == expected;
    assert body == expected;
    var call := CreateSession(source, instruction);
    assert ToolRoute(call) == (POST, "sessions", Some(body));
    SessionsUrl();
  }

  /** The `sessions` collection lives at `.../v1alpha/sessions`. */
  lemma SessionsUrl()
    ensures Urls.Join(DefaultBaseUrl, "sessions") == "https://jules.googleapis.com/v1alpha/sessions"
  {
    DefaultBaseUrlIsTrimmed();
    assert Urls.LStripSlash("sessions") == "sessions";
  }

  /** `list_sources` GETs `.../v1alpha/sources`. */
  lemma ListSourcesUrl(apiKey: string)
    ensures ToolRequest(apiKey, ListSources).verb == GET
    ensures ToolRequest(apiKey, ListSources).url == "https://jules.googleapis.com/v1alpha/sources"
  {
    DefaultBaseUrlIsTrimmed();
    assert Urls.LStripSlash("sources") == "sources";
  }

  /** A 200 response to `list_sources` with a JSON body is handed back to the caller exactly
      as decoded. */
  lemma ListSourcesPassesJsonThrough(apiKey: string, transport: Transport, text: string, v: Json)
    requires transport.exchange(ToolRequest(apiKey, ListSources)) == Completed(200, text, Parsed(v))
    requires transport.successful(200) && text != ""
    ensures Perform(ToolRequest(apiKey, ListSources), transport) == Ok(v)
  {
  }

  /** `list_sessions` invoked without paging arguments sends the same request as the client's
      `list_sessions` called without them: the tool's defaults and the client's agree. */
  method ListSessionsDefaultsAgree(credential: string, exchange: Request -> Exchange, successful: int -> bool)
    returns (viaTool: seq<Request>, viaClient: Request)
    requires credential != ""
    ensures viaTool == [viaClient]
  {
    DefaultBaseUrlIsTrimmed();
    assert ToolRoute(ListSessions()) == (GET, "sessions", None);
    var client := new JulesClient(credential);
    var transport := new Transport(exchange, successful);
    var outcome := Invoke(credential, ListSessions(), transport);
    viaTool := transport.log;
    viaClient := client.ListSessions();
  }

  /** `create_session` invoked with only a source and an instruction sends the same request as
      the client's `create_session` called with only those. */
  method CreateSessionDefaultsAgree(credential: string, exchange: Request -> Exchange, successful: int -> bool,
                                    source: string, instruction: string)
    returns (viaTool: seq<Request>, viaClient: Request)
    requires credential != ""
    ensures viaTool == [viaClient]
  {
    DefaultBaseUrlIsTrimmed();
    var body := SessionBody(source, instruction, None, false, false);
    assert ToolRoute(CreateSession(source, instruction)) == (POST, "sessions", Some(body));
    var client := new JulesClient(credential);
    var transport := new Transport(exchange, successful);
    var outcome := Invoke(credential, CreateSession(source, instruction), transport);
    viaTool := transport.log;
    viaClient := client.CreateSession(source, instruction);
  }

  /** `list_activities` invoked with only a session name sends the same request as the client's
      `list_activities` called with only that. */
  method ListActivitiesDefaultsAgree(credential: string, exchange: Request -> Exchange, successful: int -> bool,
                                     sessionName: string)
    returns (viaTool: seq<Request>, viaClient: Request)
    requires credential != ""
    ensures viaTool == [viaClient]
  {
    DefaultBaseUrlIsTrimmed();
    var activities := sessionName + "/activities";
    assert Paged(activities, None, None) == activities;
    assert ToolRoute(ListActivities(sessionName)) == (GET, activities, None);
    var client := new JulesClient(credential);
    var transport := new Transport(exchange, successful);
    var outcome := Invoke(credential, ListActivities(sessionName), transport);
    viaTool := transport.log;
    viaClient := client.ListActivities(sessionName);
  }
}
