/** The single-server MCP client: the request and response records, the health check,
    and the request pipeline that screens the request, posts it, reads the reply and
    screens the result. */
module Client {
  import opened Common
  import opened Text
  import opened OrderedDict
  import opened Json
  import opened Errors
  import opened Lakera
  import opened Security
  import Url

  /** An MCP request as it is posted. */
  datatype McpRequest = McpRequest(methodName: string, params: Option<Dict<Json>>, id: Option<string>)

  /** An MCP response as it is read from the reply. */
  datatype McpResponse = McpResponse(result: Option<Dict<Json>>, error: Option<Dict<Json>>, id: Option<string>)

  /** A request with only a method: no parameters and no id. */
  function NewMcpRequest(methodName: string, params: Option<Dict<Json>> := None, id: Option<string> := None): (r: McpRequest)
    ensures r.methodName == methodName && r.params == params && r.id == id
  {
    McpRequest(methodName, params, id)
  }

  function OptionalString(s: Option<string>): Json {
    match s
    case None => JNull
    case Some(v) => JStr(v)
  }

  /** The request record as the JSON object posted: `method`, `params` and `id`, with
      absent values as null. */
  function RequestToJson(req: McpRequest): (r: Dict<Json>)
    ensures Keys(r) == ["method", "params", "id"]
    ensures Get(r, "method") == Some(JStr(req.methodName))
    ensures Get(r, "params") == Some(FromOptionalDict(req.params))
    ensures Get(r, "id") == Some(OptionalString(req.id))
  {
    var r := [Entry("method", JStr(req.methodName)), Entry("params", FromOptionalDict(req.params)),
              Entry("id", OptionalString(req.id))];
    GetFirst(r, 0);
    GetFirst(r, 1);
    GetFirst(r, 2);
    r
  }

  /** An optional object member of a reply: absent and null are `None`. */
  function OptionalObject(d: Dict<Json>, key: string): (r: Outcome<Option<Dict<Json>>>)
    ensures r.Returned? <==> Get(d, key) in {None, Some(JNull)} || Get(d, key).value.JObj?
    ensures r.Returned? && r.value.Some? ==> Get(d, key) == Some(JObj(r.value.value))
    ensures r.Returned? && r.value.None? ==> Get(d, key) in {None, Some(JNull)}
  {
    match Get(d, key)
    case None => Returned(None)
    case Some(v) =>
      if v.JNull? then Returned(None)
      else if v.JObj? then Returned(Some(v.fields))
      else Raised(ValidationError)
  }

  /** The reply body loaded into a response record; other members are ignored. */
  function ParseMcpResponse(body: Json): (r: Outcome<McpResponse>)
    ensures !body.JObj? ==> r == Raised(TypeError)
    ensures r.Returned? ==> body.JObj?
    ensures r.Returned? && r.value.result.Some? ==> Get(body.fields, "result") == Some(JObj(r.value.result.value))
    ensures r.Returned? && r.value.error.Some? ==> Get(body.fields, "error") == Some(JObj(r.value.error.value))
    ensures r.Returned? && r.value.id.Some? ==> Get(body.fields, "id") == Some(JStr(r.value.id.value))
    ensures r.Raised? ==> r.exc in {TypeError, ValidationError}
    ensures body.JObj? ==>
              (r.Returned? <==> OptionalObject(body.fields, "result").Returned?
                                && OptionalObject(body.fields, "error").Returned?
                                && (Get(body.fields, "id") in {None, Some(JNull)} || Get(body.fields, "id").value.JStr?))
    ensures r.Returned? ==> r.value.result == OptionalObject(body.fields, "result").value
                            && r.value.error == OptionalObject(body.fields, "error").value
    ensures r.Returned? && Get(body.fields, "id").Some? && Get(body.fields, "id").value.JStr? ==>
              r.value.id == Some(Get(body.fields, "id").value.s)
    ensures r.Returned? && Get(body.fields, "id") in {None, Some(JNull)} ==> r.value.id.None?
  {
    if !body.JObj? then Raised(TypeError)
    else
      var d := body.fields;
      var result := OptionalObject(d, "result");
      var error := OptionalObject(d, "error");
      var id := match Get(d, "id")
        case None => Returned(None)
        case Some(v) => if v.JNull? then Returned(None) else if v.JStr? then Returned(Some(v.s)) else Raised(ValidationError);
      if result.Raised? || error.Raised? || id.Raised? then Raised(ValidationError)
      else Returned(McpResponse(result.value, error.value, id.value))
  }

  /** The answer to a health probe: an HTTP status, or no answer at all. */
  datatype HealthReply = Status(code: int) | Unreachable

  /** The health probe: the answer a GET of a URL gets. */
  type Health = string -> HealthReply

  /** The server transport: the reply a JSON body posted to a URL gets. */
  type Post = (string, Dict<Json>) -> Reply

  /** `urljoin(server_url, "/health")`. */
  function HealthUrl(serverUrl: string): string {
    assert Url.IsPlainAbsolutePath("/health") by {
      var p := "/health";
      assert p[1] == 'h' && p[2] == 'e' && p[3] == 'a' && p[4] == 'l' && p[5] == 't' && p[6] == 'h';
    }
    Url.JoinAbsolutePath(serverUrl, "/health")
  }

  /** `connect()`: the server is up exactly when its health URL answers 200. */
  function ConnectsTo(serverUrl: string, health: Health): (r: bool)
    ensures r <==> health(HealthUrl(serverUrl)) == Status(200)
    ensures health(HealthUrl(serverUrl)).Unreachable? ==> !r
  {
    match health(HealthUrl(serverUrl))
    case Unreachable => false
    case Status(code) => code == 200
  }

  /** The screening a client applies: the manager's screening client and switches. */
  datatype Screening = Screening(lakera: LakeraClient, settings: Settings)

  /** The body `send_request(method, params)` posts: missing parameters become `{}`
      and the id is always "1". */
  function RequestBody(methodName: string, params: Option<Dict<Json>>): (r: Dict<Json>)
    ensures Get(r, "method") == Some(JStr(methodName))
    ensures Get(r, "params") == Some(JObj(params.GetOr([])))
    ensures Get(r, "id") == Some(JStr("1"))
  {
    RequestToJson(NewMcpRequest(methodName, Some(params.GetOr([])), Some("1")))
  }

  /** A non-empty result dict. */
  predicate HasResult(response: McpResponse) {
    response.result.Some? && response.result.value != []
  }

  /** The screening of the request before it is sent: none without a manager. */
  function PreScreen(screening: Option<Screening>, stats: ScreeningStats, methodName: string,
                     params: Option<Dict<Json>>, guard: Guard): (Outcome<bool>, ScreeningStats)
  {
    if screening.None? then (Returned(true), stats)
    else
      var verdicts := InteractionVerdicts(screening.value.lakera, methodName, FromOptionalDict(params), JNull, guard);
      InteractionStep(stats, screening.value.settings, verdicts.0, verdicts.1)
  }

  /** Without a manager nothing is screened; a screening that raises raises a security
      violation; the counters never go down. */
  lemma PreScreenFacts(screening: Option<Screening>, stats: ScreeningStats, methodName: string,
                       params: Option<Dict<Json>>, guard: Guard)
    ensures var r := PreScreen(screening, stats, methodName, params, guard);
            && (screening.None? ==> r == (Returned(true), stats))
            && (r.0.Raised? ==> r.0.exc.SecurityViolation?)
            && StatsLe(stats, r.1)
  {
    if screening.Some? {
      var verdicts := InteractionVerdicts(screening.value.lakera, methodName, FromOptionalDict(params), JNull, guard);
      InteractionStepMonotone(stats, screening.value.settings, verdicts.0, verdicts.1);
    }
  }

  /** The screening of a parsed reply: only a non-empty result is screened, with the
      request's method and parameters, and a violation replaces the response. */
  function PostScreen(screening: Option<Screening>, stats: ScreeningStats, methodName: string,
                      params: Option<Dict<Json>>, response: Outcome<McpResponse>, guard: Guard)
    : (Outcome<McpResponse>, ScreeningStats)
  {
    if response.Raised? || screening.None? || !HasResult(response.value) then (response, stats)
    else
      var verdicts := InteractionVerdicts(screening.value.lakera, methodName, FromOptionalDict(params),
                                          JObj(response.value.result.value), guard);
      var (checked, after) := InteractionStep(stats, screening.value.settings, verdicts.0, verdicts.1);
      (if checked.Raised? then Raised(checked.exc) else response, after)
  }

  /** Screening a reply either passes the response through unchanged or raises; it
      changes nothing without a manager, and the counters never go down. */
  lemma PostScreenFacts(screening: Option<Screening>, stats: ScreeningStats, methodName: string,
                        params: Option<Dict<Json>>, response: Outcome<McpResponse>, guard: Guard)
    ensures var r := PostScreen(screening, stats, methodName, params, response, guard);
            && (screening.None? ==> r == (response, stats))
            && (r.0.Returned? ==> r.0 == response)
            && StatsLe(stats, r.1)
  {
    if response.Returned? && screening.Some? && HasResult(response.value) {
      var verdicts := InteractionVerdicts(screening.value.lakera, methodName, FromOptionalDict(params),
                                          JObj(response.value.result.value), guard);
      InteractionStepMonotone(stats, screening.value.settings, verdicts.0, verdicts.1);
    }
  }

  /** `send_request(method, params)` end to end: what it returns or raises, the body it
      posted (`None` when it posted nothing) and the screening counters afterwards. */
  function SendOutcome(screening: Option<Screening>, stats: ScreeningStats, serverUrl: string, methodName: string,
                       params: Option<Dict<Json>>, guard: Guard, post: Post)
    : (Outcome<McpResponse>, Option<Dict<Json>>, ScreeningStats)
  {
    var (screened, afterRequest) := PreScreen(screening, stats, methodName, params, guard);
    if screened.Raised? then (Raised(screened.exc), None, afterRequest)
    else
      var body := RequestBody(methodName, params);
      match post(serverUrl, body)
      case TransportFailure => (Raised(RequestException), Some(body), afterRequest)
      case Body(data) =>
        var (checked, afterResponse) := PostScreen(screening, afterRequest, methodName, params, ParseMcpResponse(data), guard);
        (checked, Some(body), afterResponse)
  }

  /** What `send_request` promises: without a manager the request is always posted
      and no counter moves; when nothing is posted it is because the request screening
      raised a security violation; what is posted is the request body; a transport
      failure raises `RequestException`; a returned response is the parse of the reply;
      and the counters never go down. */
  lemma SendOutcomeFacts(screening: Option<Screening>, stats: ScreeningStats, serverUrl: string, methodName: string,
                         params: Option<Dict<Json>>, guard: Guard, post: Post)
    ensures var r := SendOutcome(screening, stats, serverUrl, methodName, params, guard, post);
      && (screening.None? ==> r.1 == Some(RequestBody(methodName, params)) && r.2 == stats)
      && (r.1.None? ==> r.0.Raised? && r.0.exc.SecurityViolation?)
      && (r.1.Some? ==> r.1.value == RequestBody(methodName, params))
      && (r.1.Some? && post(serverUrl, r.1.value).TransportFailure? ==> r.0 == Raised(RequestException))
      && (r.0.Returned? ==> r.1.Some? && post(serverUrl, r.1.value).Body?
                            && r.0 == ParseMcpResponse(post(serverUrl, r.1.value).data))
      && StatsLe(stats, r.2)
  {
    PreScreenFacts(screening, stats, methodName, params, guard);
    var afterRequest := PreScreen(screening, stats, methodName, params, guard).1;
    var body := RequestBody(methodName, params);
    match post(serverUrl, body)
    case TransportFailure =>
    case Body(data) =>
      PostScreenFacts(screening, afterRequest, methodName, params, ParseMcpResponse(data), guard);
  }

  /** A request screening that raises stops the request before anything is posted. */
  lemma RequestViolationPostsNothing(screening: Screening, stats: ScreeningStats, serverUrl: string, methodName: string,
                                     params: Option<Dict<Json>>, guard: Guard, post: Post)
    requires var (req, resp) := InteractionVerdicts(screening.lakera, methodName, FromOptionalDict(params), JNull, guard);
             InteractionStep(stats, screening.settings, req, resp).0.Raised?
    ensures SendOutcome(Some(screening), stats, serverUrl, methodName, params, guard, post).1.None?
    ensures SendOutcome(Some(screening), stats, serverUrl, methodName, params, guard, post).0.Raised?
  {
  }

  /** A flagged request that does not raise (the manager only warns) is still sent. */
  lemma FlaggedRequestStillSent(screening: Screening, stats: ScreeningStats, serverUrl: string, methodName: string,
                                params: Option<Dict<Json>>, guard: Guard, post: Post)
    requires screening.settings.interactionScreening && !screening.settings.failOnViolation
    ensures SendOutcome(Some(screening), stats, serverUrl, methodName, params, guard, post).1
            == Some(RequestBody(methodName, params))
  {
  }

  /** A reply without a result (or with an empty one) is not screened: the counters
      move only for the request. */
  lemma EmptyResultNotScreened(screening: Screening, stats: ScreeningStats, serverUrl: string, methodName: string,
                               params: Option<Dict<Json>>, guard: Guard, post: Post)
    requires post(serverUrl, RequestBody(methodName, params)).Body?
    requires var parsed := ParseMcpResponse(post(serverUrl, RequestBody(methodName, params)).data);
             parsed.Returned? && !HasResult(parsed.value)
    ensures var (req, resp) := InteractionVerdicts(screening.lakera, methodName, FromOptionalDict(params), JNull, guard);
            var (screened, afterRequest) := InteractionStep(stats, screening.settings, req, resp);
            SendOutcome(Some(screening), stats, serverUrl, methodName, params, guard, post).2 == afterRequest
  {
  }

  /** The parameters of `call_tool(tool_name, arguments)`: exactly `name` and
      `arguments`. */
  function CallToolParams(toolName: string, arguments: Dict<Json>): (p: Dict<Json>)
    ensures Keys(p) == ["name", "arguments"]
    ensures Get(p, "name") == Some(JStr(toolName)) && Get(p, "arguments") == Some(JObj(arguments))
  {
    var p := [Entry("name", JStr(toolName)), Entry("arguments", JObj(arguments))];
    GetFirst(p, 0);
    GetFirst(p, 1);
    p
  }

  /** `list_tools()` end to end: the `tools/list` response with its tool list filtered
      when a manager screens a non-empty result, and the counters afterwards. */
  function ListToolsOutcome(screening: Option<Screening>, stats: ScreeningStats, serverUrl: string, guard: Guard, post: Post)
    : (Outcome<McpResponse>, ScreeningStats)
  {
    var (sent, _, afterSend) := SendOutcome(screening, stats, serverUrl, "tools/list", None, guard, post);
    ScreenListing(screening, afterSend, sent, guard)
  }

  /** The second half of `list_tools()`: the `tools` member of a screened, non-empty
      result goes through the tool-list filter. */
  function ScreenListing(screening: Option<Screening>, stats: ScreeningStats, sent: Outcome<McpResponse>, guard: Guard)
    : (Outcome<McpResponse>, ScreeningStats)
  {
    if sent.Raised? || screening.None? || !HasResult(sent.value) then (sent, stats)
    else
      var result := sent.value.result.value;
      var listed := ToolsListOutcome(screening.value.lakera, screening.value.settings, stats,
                                     GetOr(result, "tools", JArr([])), guard);
      (if listed.0.Raised? then Raised(listed.0.exc)
       else Returned(sent.value.(result := Some(Set(result, "tools", listed.0.value)))), listed.1)
  }

  /** What `list_tools()` promises: a failed or unscreened request is returned as it
      came back; a screened non-empty result has its `tools` member replaced by the
      filtered list and keeps its error and id; the counters never go down. */
  lemma ListToolsOutcomeFacts(screening: Option<Screening>, stats: ScreeningStats, serverUrl: string, guard: Guard, post: Post)
    ensures var r := ListToolsOutcome(screening, stats, serverUrl, guard, post);
            var (sent, _, afterSend) := SendOutcome(screening, stats, serverUrl, "tools/list", None, guard, post);
            && (sent.Raised? ==> r == (sent, afterSend))
            && (sent.Returned? && (screening.None? || !HasResult(sent.value)) ==> r == (sent, afterSend))
            && (sent.Returned? && screening.Some? && HasResult(sent.value) && r.0.Returned? ==>
                  var result := sent.value.result.value;
                  var filtered := ToolsListOutcome(screening.value.lakera, screening.value.settings, afterSend,
                                                   GetOr(result, "tools", JArr([])), guard);
                  && filtered.0.Returned?
                  && r.0.value.result == Some(Set(result, "tools", filtered.0.value))
                  && r.0.value.error == sent.value.error && r.0.value.id == sent.value.id)
            && StatsLe(stats, r.1)
  {
    SendOutcomeFacts(screening, stats, serverUrl, "tools/list", None, guard, post);
  }

  /** Filtering replaces the tool list and no other member of the result, and keeps
      the members in their order. */
  lemma ListToolsKeepsOtherMembers(result: Dict<Json>, tools: Json, key: string)
    requires key != "tools"
    ensures Get(Set(result, "tools", tools), key) == Get(result, key)
    ensures Get(Set(result, "tools", tools), "tools") == Some(tools)
    ensures "tools" in Keys(result) ==> Keys(Set(result, "tools", tools)) == Keys(result)
  {
  }

  /** The screening of a parsed reply in `send_request`, run by the client's manager. */
  method ScreenReply(manager: SecurityManager, methodName: string, params: Option<Dict<Json>>,
                     response: Outcome<McpResponse>, guard: Guard) returns (r: Outcome<McpResponse>)
    modifies manager
    ensures (r, manager.stats)
            == PostScreen(Some(Screening(manager.lakera, manager.settings)), old(manager.stats), methodName, params, response, guard)
  {
    r := response;
    if response.Returned? && HasResult(response.value) {
      var checked := manager.ScreenServerInteraction(methodName, FromOptionalDict(params),
                                                     JObj(response.value.result.value), guard);
      if checked.Raised? {
        r := Raised(checked.exc);
      }
    }
  }

  /** The filtering half of `list_tools()`, run by the client's manager. */
  method ScreenListed(manager: SecurityManager, sent: Outcome<McpResponse>, guard: Guard) returns (r: Outcome<McpResponse>)
    modifies manager
    ensures (r, manager.stats) == ScreenListing(Some(Screening(manager.lakera, manager.settings)), old(manager.stats), sent, guard)
  {
    r := sent;
    if sent.Returned? && HasResult(sent.value) {
      var result := sent.value.result.value;
      var filtered := manager.ScreenToolsList(GetOr(result, "tools", JArr([])), guard);
      if filtered.Raised? {
        r := Raised(filtered.exc);
      } else {
        r := Returned(sent.value.(result := Some(Set(result, "tools", filtered.value))));
      }
    }
  }

  /** A client of one MCP server. */
  class McpClient {
    const serverUrl: string
    const timeout: int
    const enableSecurity: bool
    const securityManager: SecurityManager?

    /** The manager this client screens with, as a frame. */
    function Managers(): set<object> {
      if securityManager == null then {} else {securityManager}
    }

    /** The screening this client applies, if any. */
    function ScreeningOf(): (s: Option<Screening>)
      ensures s.None? <==> securityManager == null
    {
      if securityManager == null then None else Some(Screening(securityManager.lakera, securityManager.settings))
    }

    /** `MCPClient(server_url, timeout, security_manager, enable_security)` once the
        manager, if security is on, is at hand. */
    constructor(serverUrl: string, timeout: int, manager: SecurityManager?, enableSecurity: bool)
      ensures this.serverUrl == RStrip(serverUrl, '/') && this.timeout == timeout && this.enableSecurity == enableSecurity
      ensures securityManager == if enableSecurity then manager else null
    {
      this.serverUrl := RStrip(serverUrl, '/');
      this.timeout := timeout;
      this.enableSecurity := enableSecurity;
      securityManager := if enableSecurity then manager else null;
    }

    /** `MCPClient(...)`: with security on and no manager given, a default manager is
        built, which fails without an API key in the environment. */
    static method Create(serverUrl: string, envKey: Option<string>, timeout: int := 30,
                         given: SecurityManager? := null, enableSecurity: bool := true)
      returns (r: Outcome<McpClient>)
      ensures r.Raised? <==> enableSecurity && given == null && (envKey.None? || envKey.value == "")
      ensures r.Raised? ==> r.exc == ValueError(MissingKeyMessage)
      ensures r.Returned? ==> fresh(r.value) && r.value.serverUrl == RStrip(serverUrl, '/')
      ensures r.Returned? ==> (r.value.securityManager == null <==> !enableSecurity)
      ensures r.Returned? && enableSecurity && given != null ==> r.value.securityManager == given
      ensures r.Returned? && enableSecurity && given == null ==>
                fresh(r.value.securityManager) && r.value.securityManager.stats == ZeroStats
      ensures r.Returned? && enableSecurity && given == null ==>
                && r.value.securityManager.settings == Settings(true, true, true)
                && r.value.securityManager.lakera == NewLakeraClient(None, envKey).value
    {
      var manager := given;
      if enableSecurity && given == null {
        var created := SecurityManager.Create(None, envKey);
        if created.Raised? {
          return Raised(created.exc);
        }
        manager := created.value;
      }
      var c := new McpClient(serverUrl, timeout, manager, enableSecurity);
      return Returned(c);
    }

    /** `connect()`: true exactly when this client's health URL answers 200. */
    function Connect(health: Health): (r: bool)
      ensures r <==> health(HealthUrl(serverUrl)) == Status(200)
    {
      ConnectsTo(serverUrl, health)
    }

    /** `send_request(method, params)`; `sent` is the body posted, if any. */
    method SendRequest(methodName: string, params: Option<Dict<Json>>, guard: Guard, post: Post)
      returns (r: Outcome<McpResponse>, sent: Option<Dict<Json>>)
      modifies Managers()
      ensures sent.Some? ==> sent.value == RequestBody(methodName, params)
      ensures securityManager == null ==>
                (r, sent) == (SendOutcome(None, ZeroStats, serverUrl, methodName, params, guard, post).0,
                              SendOutcome(None, ZeroStats, serverUrl, methodName, params, guard, post).1)
      ensures securityManager != null ==>
                (r, sent, securityManager.stats)
                == SendOutcome(ScreeningOf(), old(securityManager.stats), serverUrl, methodName, params, guard, post)
    {
      if securityManager != null {
        var screened := securityManager.ScreenServerInteraction(methodName, FromOptionalDict(params), JNull, guard);
        if screened.Raised? {
          return Raised(screened.exc), None;
        }
      }
      var body := RequestBody(methodName, params);
      sent := Some(body);
      var reply := post(serverUrl, body);
      if reply.TransportFailure? {
        return Raised(RequestException), sent;
      }
      r := ParseMcpResponse(reply.data);
      if securityManager != null {
        r := ScreenReply(securityManager, methodName, params, r, guard);
      }
    }

    /** `list_tools()`. */
    method ListTools(guard: Guard, post: Post) returns (r: Outcome<McpResponse>)
      modifies Managers()
      ensures securityManager == null ==> r == ListToolsOutcome(None, ZeroStats, serverUrl, guard, post).0
      ensures securityManager != null ==>
                (r, securityManager.stats) == ListToolsOutcome(ScreeningOf(), old(securityManager.stats), serverUrl, guard, post)
    {
      ghost var screening := ScreeningOf();
      ghost var before := if securityManager == null then ZeroStats else securityManager.stats;
      var sent, _ := SendRequest("tools/list", None, guard, post);
      ghost var spec := SendOutcome(screening, before, serverUrl, "tools/list", None, guard, post);
      assert sent == spec.0 && (securityManager != null ==> securityManager.stats == spec.2);
      if securityManager == null {
        r := sent;
      } else {
        r := ScreenListed(securityManager, sent, guard);
      }
    }

    /** `call_tool(tool_name, arguments)`. */
    method CallTool(toolName: string, arguments: Dict<Json>, guard: Guard, post: Post)
      returns (r: Outcome<McpResponse>, sent: Option<Dict<Json>>)
      modifies Managers()
      ensures sent.Some? ==> sent.value == RequestBody("tools/call", Some(CallToolParams(toolName, arguments)))
      ensures securityManager == null ==>
                (r, sent) == (SendOutcome(None, ZeroStats, serverUrl, "tools/call",
                                          Some(CallToolParams(toolName, arguments)), guard, post).0,
                              SendOutcome(None, ZeroStats, serverUrl, "tools/call",
                                          Some(CallToolParams(toolName, arguments)), guard, post).1)
      ensures securityManager != null ==>
                (r, sent, securityManager.stats)
                == SendOutcome(ScreeningOf(), old(securityManager.stats), serverUrl, "tools/call",
                               Some(CallToolParams(toolName, arguments)), guard, post)
    {
      r, sent := SendRequest("tools/call", Some(CallToolParams(toolName, arguments)), guard, post);
    }

    /** `get_security_stats()`: the manager's counters, or `None` without a manager. */
    function GetSecurityStats(): (r: Option<Dict<int>>)
      reads Managers()
      ensures r.None? <==> securityManager == null
      ensures r.Some? ==> r.value == securityManager.GetScreeningStats()
    {
      if securityManager == null then None else Some(securityManager.GetScreeningStats())
    }
  }
}
