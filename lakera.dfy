/** The client of the Lakera Guard screening service: how it is configured, what it
    sends for a piece of content and how it reads the verdict. The HTTP exchange is a
    function from the endpoint and the request to the reply. */
module Lakera {
  import opened Common
  import opened Text
  import opened OrderedDict
  import opened Json
  import opened Errors
  import Url

  /** A chat message sent for screening, such as `{"role": "user", "content": s}`. */
  type Message = Dict<string>

  /** The request body: the messages and whether developer information is wanted. */
  datatype GuardRequest = GuardRequest(messages: seq<Message>, devInfo: bool)

  /** The verdict of the service. Category scores are carried as they arrive. */
  datatype GuardResponse = GuardResponse(
    flagged: bool,
    categories: Dict<bool>,
    categoryScores: Dict<Json>,
    devInfo: Option<Dict<Json>>)

  /** What the transport hands back: the decoded body of a 2xx reply, or a failure
      (no connection, a timeout, an error status or a body that is not JSON), which
      surfaces as `requests.RequestException`. */
  datatype Reply = Body(data: Json) | TransportFailure

  /** The screening service: the reply to a request posted to an endpoint. */
  type Guard = (string, GuardRequest) -> Reply

  /** What can be screened: one text, or a list of messages. */
  datatype Content = Text(text: string) | Messages(messages: seq<Message>)

  const DefaultBaseUrl := "https://api.lakera.ai/v2"
  const MissingKeyMessage := "Lakera API key is required. Set LAKERA_GUARD_API_KEY environment variable or pass api_key parameter."

  /** A configured client. Its fields are set once, by `NewLakeraClient`. */
  datatype LakeraClient = LakeraClient(apiKey: string, baseUrl: string, timeout: int, headers: Dict<string>)

  /** A request whose `dev_info` is not given asks for no developer information. */
  function NewGuardRequest(messages: seq<Message>, devInfo: bool := false): (r: GuardRequest)
    ensures r.messages == messages && r.devInfo == devInfo
  {
    GuardRequest(messages, devInfo)
  }

  /** The categories of a verdict: an object whose members are all booleans. */
  function BoolFields(fields: Dict<Json>): Option<Dict<bool>> {
    if fields == [] then Some([])
    else if !fields[0].value.JBool? then None
    else
      match BoolFields(fields[1..])
      case None => None
      case Some(rest) => Some([Entry(fields[0].key, fields[0].value.b)] + rest)
  }

  /** The categories are read exactly when every member is a boolean, and then keep
      the keys, their order and the truth values. */
  lemma {:induction false} BoolFieldsFacts(fields: Dict<Json>)
    ensures var r := BoolFields(fields);
            && (r.Some? <==> forall i :: 0 <= i < |fields| ==> fields[i].value.JBool?)
            && (r.Some? ==> Keys(r.value) == Keys(fields)
                            && forall i :: 0 <= i < |fields| ==> r.value[i].value == fields[i].value.b)
  {
    if fields != [] {
      var tail := fields[1..];
      BoolFieldsFacts(tail);
      assert fields == [fields[0]] + tail;
      assert forall i :: 1 <= i < |fields| ==> fields[i] == tail[i - 1];
      if fields[0].value.JBool? && BoolFields(tail).Some? {
        var rest := BoolFields(tail).value;
        var r := [Entry(fields[0].key, fields[0].value.b)] + rest;
        KeysCons(fields[0], tail);
        KeysCons(Entry(fields[0].key, fields[0].value.b), rest);
        assert forall i :: 1 <= i < |fields| ==> r[i] == rest[i - 1];
      }
    }
  }

  predicate IsNumber(j: Json) {
    j.JNum? || j.JFloat?
  }

  /** `categories` is absent, or an object of booleans. */
  predicate CategoriesAccepted(d: Dict<Json>) {
    Get(d, "categories").None?
    || (Get(d, "categories").value.JObj? && BoolFields(Get(d, "categories").value.fields).Some?)
  }

  /** `category_scores` is absent, or an object of numbers. */
  predicate ScoresAccepted(d: Dict<Json>) {
    Get(d, "category_scores").None?
    || (var s := Get(d, "category_scores").value;
        s.JObj? && forall i :: 0 <= i < |s.fields| ==> IsNumber(s.fields[i].value))
  }

  /** `dev_info` is absent, null or an object. */
  predicate DevInfoAccepted(d: Dict<Json>) {
    Get(d, "dev_info") in {None, Some(JNull)} || Get(d, "dev_info").value.JObj?
  }

  /** The reply body as a verdict, with the model's defaults for absent members:
      `flagged` must be a boolean, `categories` an object of booleans, `category_scores`
      an object of numbers and `dev_info` an object or null; anything else is a
      validation error. A body that is not an object cannot be unpacked at all. */
  function ParseGuardResponse(body: Json): (r: Outcome<GuardResponse>)
    ensures !body.JObj? ==> r == Raised(TypeError)
    ensures body.JObj? && (Get(body.fields, "flagged").None? || !Get(body.fields, "flagged").value.JBool?)
            ==> r == Raised(ValidationError)
    ensures r.Returned? ==> body.JObj? && Get(body.fields, "flagged") == Some(JBool(r.value.flagged))
    ensures r.Returned? && Get(body.fields, "categories").None? ==> r.value.categories == []
    ensures r.Returned? && Get(body.fields, "category_scores").None? ==> r.value.categoryScores == []
    ensures r.Returned? ==> (r.value.devInfo.None? <==> Get(body.fields, "dev_info") in {None, Some(JNull)})
    ensures body.JObj? ==>
              (r.Returned? <==> Get(body.fields, "flagged").Some? && Get(body.fields, "flagged").value.JBool?
                                && CategoriesAccepted(body.fields) && ScoresAccepted(body.fields)
                                && DevInfoAccepted(body.fields))
    ensures r.Returned? && Get(body.fields, "categories").Some? ==>
              Get(body.fields, "categories").value.JObj?
              && BoolFields(Get(body.fields, "categories").value.fields) == Some(r.value.categories)
    ensures r.Returned? && Get(body.fields, "category_scores").Some? ==>
              Get(body.fields, "category_scores") == Some(JObj(r.value.categoryScores))
    ensures r.Returned? && r.value.devInfo.Some? ==> Get(body.fields, "dev_info") == Some(JObj(r.value.devInfo.value))
  {
    if !body.JObj? then Raised(TypeError)
    else
      var d := body.fields;
      var categories := match Get(d, "categories")
        case None => Some([])
        case Some(c) => if c.JObj? then BoolFields(c.fields) else None;
      var scores := match Get(d, "category_scores")
        case None => Some([])
        case Some(s) =>
          if s.JObj? && forall i :: 0 <= i < |s.fields| ==> IsNumber(s.fields[i].value) then Some(s.fields)
          else None;
      var devInfo := match Get(d, "dev_info")
        case None => Some(None)
        case Some(v) => if v.JNull? then Some(None) else if v.JObj? then Some(Some(v.fields)) else None;
      var flagged := Get(d, "flagged");
      if flagged.None? || !flagged.value.JBool? || categories.None? || scores.None? || devInfo.None? then
        Raised(ValidationError)
      else Returned(GuardResponse(flagged.value.b, categories.value, scores.value, devInfo.value))
  }

  /** A reply carrying only `flagged` gets empty categories, empty scores and no
      developer information. */
  lemma ParseGuardResponseDefaults(flagged: bool)
    ensures ParseGuardResponse(JObj([Entry("flagged", JBool(flagged))]))
         == Returned(GuardResponse(flagged, [], [], None))
  {
    var d := [Entry("flagged", JBool(flagged))];
    GetFirst(d, 0);
    assert Keys(d) == ["flagged"];
  }

  /** `LakeraClient(api_key, base_url, region, timeout)`, with the environment variable
      `LAKERA_GUARD_API_KEY` passed in as `envKey`. */
  function NewLakeraClient(apiKey: Option<string>, envKey: Option<string>, baseUrl: string := DefaultBaseUrl,
                           region: Option<string> := None, timeout: int := 30): (r: Outcome<LakeraClient>)
    ensures r.Raised? <==> (apiKey.None? || apiKey.value == "") && (envKey.None? || envKey.value == "")
    ensures r.Raised? ==> r.exc == ValueError(MissingKeyMessage)
    ensures r.Returned? ==> r.value.apiKey != ""
    ensures r.Returned? && apiKey.Some? && apiKey.value != "" ==> r.value.apiKey == apiKey.value
    ensures r.Returned? && (apiKey.None? || apiKey.value == "") ==> r.value.apiKey == envKey.value
    ensures r.Returned? && region.Some? && region.value != "" ==>
              r.value.baseUrl == "https://" + region.value + ".api.lakera.ai/v2"
    ensures r.Returned? && (region.None? || region.value == "") ==> r.value.baseUrl == baseUrl
    ensures r.Returned? ==> Get(r.value.headers, "Authorization") == Some("Bearer " + r.value.apiKey)
    ensures r.Returned? ==> Get(r.value.headers, "Content-Type") == Some("application/json")
    ensures r.Returned? ==> r.value.timeout == timeout
  {
    var key := if apiKey.Some? && apiKey.value != "" then apiKey else envKey;
    if key.None? || key.value == "" then Raised(ValueError(MissingKeyMessage))
    else
      var url := if region.Some? && region.value != "" then "https://" + region.value + ".api.lakera.ai/v2" else baseUrl;
      var headers := [Entry("Authorization", "Bearer " + key.value), Entry("Content-Type", "application/json")];
      GetFirst(headers, 0);
      GetFirst(headers, 1);
      Returned(LakeraClient(key.value, url, timeout, headers))
  }

  /** The endpoint verdicts are requested from, as the client computes it:
      `urljoin(base_url, "/guard")`. */
  function GuardEndpointAsWritten(baseUrl: string): string {
    assert Url.IsPlainAbsolutePath("/guard") by {
      var p := "/guard";
      assert p[1] == 'g' && p[2] == 'u' && p[3] == 'a' && p[4] == 'r' && p[5] == 'd';
    }
    Url.JoinAbsolutePath(baseUrl, "/guard")
  }

  lemma HttpsIsLowerScheme()
    ensures Url.IsAsciiLetter("https"[0]) && Lower("https") == "https"
    ensures forall k :: 0 <= k < |"https"| ==> Url.IsSchemeChar("https"[k])
  {
  }

  /** The default base URL is an https URL whose host, `api.lakera.ai`, is followed by
      the path `/v2`. */
  lemma DefaultBaseUrlShape()
    ensures DefaultBaseUrl == "https" + "://" + "api.lakera.ai" + "/v2"
    ensures forall c :: c in "api.lakera.ai" ==> !Url.IsNetlocDelimiter(c)
  {
  }

  /** The joined endpoint drops the path of an https base URL: for the default base
      URL (host `api.lakera.ai`, path `/v2`) it is `https://api.lakera.ai/guard`, not
      `https://api.lakera.ai/v2/guard`, and the same holds for every regional URL. */
  lemma GuardEndpointDropsVersion(host: string, path: string)
    requires forall c :: c in host ==> !Url.IsNetlocDelimiter(c)
    requires |path| > 0 && path[0] == '/'
    ensures GuardEndpointAsWritten("https" + "://" + host + path) == "https" + "://" + host + "/guard"
    ensures GuardEndpointAsWritten("https" + "://" + host + path) != "https" + "://" + host + path + "/guard"
  {
    HttpsIsLowerScheme();
    Url.OriginParts("https", host, path);
    Url.JoinAbsolutePathKeepsOnlyOrigin("https" + "://" + host + path, "/guard");
  }

  /** The endpoint the base URL evidently names: its path extended by `/guard`. */
  function GuardEndpoint(baseUrl: string): (r: string)
    ensures RStrip(baseUrl, '/') <= r
    ensures r[|RStrip(baseUrl, '/')|..] == "/guard"
  {
    RStrip(baseUrl, '/') + "/guard"
  }

  /** Every base URL keeps its path in the endpoint; for the default one it is the
      versioned `/v2/guard`, and the stripping makes a trailing `/` of the base URL
      immaterial. */
  lemma GuardEndpointKeepsVersion(baseUrl: string)
    ensures GuardEndpoint(DefaultBaseUrl) == "https://api.lakera.ai/v2/guard"
    ensures GuardEndpoint(baseUrl + "/") == GuardEndpoint(baseUrl)
  {
    assert RStrip(DefaultBaseUrl, '/') == DefaultBaseUrl;
    assert RStrip(baseUrl + "/", '/') == RStrip(baseUrl, '/') by {
      assert (baseUrl + "/")[..|baseUrl + "/"| - 1] == baseUrl;
    }
  }

  /** The message `{"role": "user", "content": text}`. */
  function UserMessage(text: string): (m: Message)
    ensures Keys(m) == ["role", "content"]
    ensures Get(m, "role") == Some("user") && Get(m, "content") == Some(text)
  {
    var m := [Entry("role", "user"), Entry("content", text)];
    GetFirst(m, 0);
    GetFirst(m, 1);
    m
  }

  /** What `screen_content` sends for its content: a text becomes a single user
      message, a list of messages is sent as it is. */
  function ToMessages(content: Content): (r: seq<Message>)
    ensures content.Text? ==> |r| == 1 && Get(r[0], "role") == Some("user")
                              && Get(r[0], "content") == Some(content.text)
    ensures content.Messages? ==> r == content.messages
  {
    match content
    case Text(s) => [UserMessage(s)]
    case Messages(ms) => ms
  }

  /** `screen_content(content, include_dev_info)`: the verdict for the content, or the
      failure the call raises. */
  function ScreenContent(client: LakeraClient, content: Content, guard: Guard, includeDevInfo: bool := false): (r: Outcome<GuardResponse>)
    ensures guard(GuardEndpoint(client.baseUrl), NewGuardRequest(ToMessages(content), includeDevInfo)).TransportFailure?
            ==> r == Raised(RequestException)
    ensures var reply := guard(GuardEndpoint(client.baseUrl), NewGuardRequest(ToMessages(content), includeDevInfo));
            reply.Body? ==> r == ParseGuardResponse(reply.data)
  {
    var request := NewGuardRequest(ToMessages(content), includeDevInfo);
    match guard(GuardEndpoint(client.baseUrl), request)
    case TransportFailure => Raised(RequestException)
    case Body(data) => ParseGuardResponse(data)
  }

  /** `screen_tool_description(description)`. */
  function ScreenToolDescription(client: LakeraClient, description: string, guard: Guard): Outcome<GuardResponse> {
    ScreenContent(client, Text(description), guard)
  }

  /** The text screened for a call: `Method: <m>`, then `\nParameters: <params>` when
      the parameters are present and non-empty. */
  function InteractionText(methodName: string, params: Json): (r: string)
    ensures "Method: " + methodName <= r
    ensures Truthy(params) ==> r[|"Method: " + methodName|..] == "\nParameters: " + Str(params)
    ensures !Truthy(params) ==> r == "Method: " + methodName
  {
    var text := "Method: " + methodName;
    if Truthy(params) then text + ("\nParameters: " + Str(params)) else text
  }

  /** `screen_server_interaction(method, params)`. */
  function ScreenServerInteraction(client: LakeraClient, methodName: string, params: Json, guard: Guard): Outcome<GuardResponse> {
    ScreenContent(client, Text(InteractionText(methodName, params)), guard)
  }

  /** `is_content_safe(content)`: fails closed. Content is safe only when a verdict
      arrives and does not flag it. */
  function IsContentSafe(client: LakeraClient, content: Content, guard: Guard): (r: bool)
    ensures r <==> ScreenContent(client, content, guard).Returned? && !ScreenContent(client, content, guard).value.flagged
  {
    match ScreenContent(client, content, guard)
    case Raised(_) => false
    case Returned(response) => !response.flagged
  }

  /** `get_threat_categories(content)`: the categories of the verdict, or none when
      screening fails. */
  function GetThreatCategories(client: LakeraClient, content: Content, guard: Guard): (r: Dict<bool>)
    ensures ScreenContent(client, content, guard).Raised? ==> r == []
    ensures ScreenContent(client, content, guard).Returned? ==> r == ScreenContent(client, content, guard).value.categories
  {
    match ScreenContent(client, content, guard)
    case Raised(_) => []
    case Returned(response) => response.categories
  }

  /** When the service cannot be reached, or replies with something that is not a
      verdict, nothing is judged safe and no category is reported. */
  lemma FailClosed(client: LakeraClient, content: Content, guard: Guard)
    requires var reply := guard(GuardEndpoint(client.baseUrl), NewGuardRequest(ToMessages(content)));
             reply.TransportFailure? || !reply.data.JObj?
    ensures !IsContentSafe(client, content, guard)
    ensures GetThreatCategories(client, content, guard) == []
  {
  }
}
