/** JSON-RPC envelope helpers: building a request object (section 4 "Request object" of
    the JSON-RPC 2.0 specification), reading a response object (section 5 "Response
    object" and section 5.1 "Error object"), and a prefix check on server URLs. */
module Helpers {
  import opened Common
  import opened Text
  import opened OrderedDict
  import opened Json
  import opened Errors
  import Url

  const InvalidFormatMessage := "Invalid JSON-RPC response format"

  /** A JSON-RPC 2.0 request object: `jsonrpc` is exactly "2.0", `method` is a string,
      `params`, when present, is structured (an array or an object), and `id`, when
      present, is a string, a number or null. */
  ghost predicate IsRequestObject(d: Dict<Json>) {
    && DistinctKeys(d)
    && Get(d, "jsonrpc") == Some(JStr("2.0"))
    && Get(d, "method").Some? && Get(d, "method").value.JStr?
    && (Get(d, "params").Some? ==> Get(d, "params").value.JArr? || Get(d, "params").value.JObj?)
    && (Get(d, "id").Some? ==> Get(d, "id").value.JStr? || Get(d, "id").value.JNum? || Get(d, "id").value.JNull?)
  }

  /** `format_request(method, params, request_id)`: `params` is included only when it
      is a non-empty dict. */
  function FormatRequest(methodName: string, params: Option<Dict<Json>>, requestId: string := "1"): Dict<Json> {
    var base := [Entry("jsonrpc", JStr("2.0")), Entry("method", JStr(methodName)), Entry("id", JStr(requestId))];
    if params.Some? && params.value != [] then base + [Entry("params", JObj(params.value))] else base
  }

  /** Every request built is a JSON-RPC 2.0 request object carrying the given method,
      id and (non-empty) parameters. */
  lemma FormatRequestIsRequestObject(methodName: string, params: Option<Dict<Json>>, requestId: string)
    ensures IsRequestObject(FormatRequest(methodName, params, requestId))
    ensures Get(FormatRequest(methodName, params, requestId), "method") == Some(JStr(methodName))
    ensures Get(FormatRequest(methodName, params, requestId), "id") == Some(JStr(requestId))
    ensures Get(FormatRequest(methodName, params, requestId), "params")
         == if params.Some? && params.value != [] then Some(JObj(params.value)) else None
  {
    var base := [Entry("jsonrpc", JStr("2.0")), Entry("method", JStr(methodName)), Entry("id", JStr(requestId))];
    if params.Some? && params.value != [] {
      RequestEnvelope(base + [Entry("params", JObj(params.value))], methodName, requestId);
      GetFirst(base + [Entry("params", JObj(params.value))], 3);
    } else {
      RequestEnvelope(base, methodName, requestId);
    }
  }

  /** The three members every request starts with, followed by at most a `params`
      member, make a request object whose `params` is that member's value, if any. */
  lemma RequestEnvelope(r: Dict<Json>, methodName: string, requestId: string)
    requires 3 <= |r| <= 4
    requires r[0] == Entry("jsonrpc", JStr("2.0")) && r[1] == Entry("method", JStr(methodName))
    requires r[2] == Entry("id", JStr(requestId))
    requires |r| == 4 ==> r[3].key == "params" && r[3].value.JObj?
    ensures DistinctKeys(r)
    ensures Get(r, "jsonrpc") == Some(JStr("2.0")) && Get(r, "method") == Some(JStr(methodName))
    ensures Get(r, "id") == Some(JStr(requestId))
    ensures |r| == 3 ==> Get(r, "params").None?
    ensures |r| == 4 ==> Get(r, "params") == Some(r[3].value)
    ensures IsRequestObject(r)
  {
    EnvelopeKeys(r);
    GetEntry(r, 0);
    GetEntry(r, 1);
    GetEntry(r, 2);
    if |r| == 4 {
      GetEntry(r, 3);
    } else {
      assert Keys(r) == ["jsonrpc", "method", "id"];
    }
  }

  /** The members of a request have distinct names. */
  lemma EnvelopeKeys(r: Dict<Json>)
    requires 3 <= |r| <= 4
    requires r[0].key == "jsonrpc" && r[1].key == "method" && r[2].key == "id"
    requires |r| == 4 ==> r[3].key == "params"
    ensures DistinctKeys(r)
  {
    var keys := if |r| == 4 then ["jsonrpc", "method", "id", "params"] else ["jsonrpc", "method", "id"];
    forall i, j | 0 <= i < j < |r| ensures r[i].key != r[j].key {
      assert r[i].key == keys[i] && r[j].key == keys[j];
    }
  }

  /** `parse_response(response_data)`: the `result` member of a well-formed success
      response, or the ValueError `parse_response` raises. */
  function ParseResponse(data: Dict<Json>): (r: Outcome<Json>)
    ensures Get(data, "jsonrpc") != Some(JStr("2.0")) ==> r == Raised(ValueError(InvalidFormatMessage))
    ensures r.Returned? <==> Get(data, "jsonrpc") == Some(JStr("2.0")) && Get(data, "error").None?
    ensures r.Returned? ==> r.value == GetOr(data, "result", JObj([]))
  {
    if Get(data, "jsonrpc") != Some(JStr("2.0")) then Raised(ValueError(InvalidFormatMessage))
    else match Get(data, "error")
      case Some(err) =>
        if err.JObj? then
          Raised(ValueError("MCP Error " + Str(GetOr(err.fields, "code", JStr("unknown"))) + ": "
                            + Str(GetOr(err.fields, "message", JStr("Unknown error")))))
        else Raised(AttributeError)
      case None => Returned(GetOr(data, "result", JObj([])))
  }

  /** A success response object as section 5 of JSON-RPC 2.0 lays it out. */
  function SuccessResponse(result: Json, id: Json): Dict<Json> {
    [Entry("jsonrpc", JStr("2.0")), Entry("result", result), Entry("id", id)]
  }

  /** An error response object with an error object as section 5.1 lays it out. */
  function ErrorResponse(code: int, message: string, id: Json): Dict<Json> {
    [Entry("jsonrpc", JStr("2.0")),
     Entry("error", JObj([Entry("code", JNum(code)), Entry("message", JStr(message))])),
     Entry("id", id)]
  }

  /** A success response yields exactly its result. */
  lemma ParseSuccessResponse(result: Json, id: Json)
    ensures ParseResponse(SuccessResponse(result, id)) == Returned(result)
  {
    var d := SuccessResponse(result, id);
    GetFirst(d, 0);
    GetFirst(d, 1);
    assert Keys(d) == ["jsonrpc", "result", "id"];
  }

  /** An error response is rejected with "MCP Error <code>: <message>". */
  lemma ParseErrorResponse(code: int, message: string, id: Json)
    ensures ParseResponse(ErrorResponse(code, message, id))
         == Raised(ValueError("MCP Error " + IntToString(code) + ": " + message))
  {
    var d := ErrorResponse(code, message, id);
    GetFirst(d, 0);
    GetFirst(d, 1);
    var err := d[1].value.fields;
    GetFirst(err, 0);
    GetFirst(err, 1);
  }

  /** An error object without `code` or `message` is reported with the defaults. */
  lemma ParseBareErrorObject(id: Json)
    ensures ParseResponse([Entry("jsonrpc", JStr("2.0")), Entry("error", JObj([])), Entry("id", id)])
         == Raised(ValueError("MCP Error unknown: Unknown error"))
  {
    var d := [Entry("jsonrpc", JStr("2.0")), Entry("error", JObj([])), Entry("id", id)];
    GetFirst(d, 0);
    GetFirst(d, 1);
    assert Str(JStr("unknown")) == "unknown" && Str(JStr("Unknown error")) == "Unknown error";
    assert "MCP Error " + "unknown" + ": " + "Unknown error" == "MCP Error unknown: Unknown error";
  }

  /** `validate_url(url)`. */
  function ValidateUrl(url: string): (r: bool)
    ensures r <==> url != [] && ("http://" <= url || "https://" <= url)
    ensures r ==> Url.HasScheme(url) && Url.SplitScheme(url).0 in {"http", "https"}
  {
    if url == [] then false
    else if !("http://" <= url || "https://" <= url) then false
    else
      var prefix := if "http://" <= url then "http://" else "https://";
      HttpPrefixScheme(url, prefix);
      true
  }

  /** A URL that starts with `http://` or `https://` parses with that scheme. */
  lemma HttpPrefixScheme(url: string, prefix: string)
    requires prefix == "http://" || prefix == "https://"
    requires prefix <= url
    ensures Url.HasScheme(url) && Url.SplitScheme(url).0 in {"http", "https"}
  {
    var n := |prefix| - 3;
    PrefixChars(prefix, url);
    assert url[..n] == prefix[..n];
    SchemeOfPrefix(url, prefix[..n]);
  }

  /** A prefix of a string agrees with it index by index. */
  lemma PrefixChars(prefix: string, s: string)
    requires prefix <= s
    ensures forall k :: 0 <= k < |prefix| ==> s[k] == prefix[k]
  {
    assert s[..|prefix|] == prefix;
    forall k | 0 <= k < |prefix| ensures s[k] == prefix[k] {
      assert s[k] == s[..|prefix|][k];
    }
  }

  /** A URL made of `http` or `https` and then a colon has that scheme. */
  lemma SchemeOfPrefix(url: string, scheme: string)
    requires scheme == "http" || scheme == "https"
    requires |scheme| < |url| && url[..|scheme|] == scheme && url[|scheme|] == ':'
    ensures Url.HasScheme(url) && Url.SplitScheme(url).0 == scheme
  {
    var i := |scheme|;
    forall k | 0 <= k < i ensures 'a' <= url[k] <= 'z' {
      assert url[k] == url[..i][k];
      assert k == 0 || k == 1 || k == 2 || k == 3 || k == 4;
    }
    Url.IndexOfColonAt(url, i);
    LowerKeepsLowercase(url[..i]);
  }

  /** The check is case-sensitive while the parser lower-cases schemes: an upper-case
      scheme is refused even though it parses as http. */
  lemma ValidateUrlIsCaseSensitive()
    ensures !ValidateUrl("HTTP://host") && Url.SplitScheme("HTTP://host").0 == "http"
  {
    var u := "HTTP://host";
    assert u[0] == 'H';
    Url.IndexOfColonAt(u, 4);
    assert u[..4] == "HTTP";
    var low := Lower("HTTP");
    assert low[0] == 'h' && low[1] == 't' && low[2] == 't' && low[3] == 'p';
    assert low == "http";
  }
}
