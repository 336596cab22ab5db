/**
  The webhook executor (also used by the Zapier, Make.com and Pabbly
  Connect blocks): block options override the stored webhook, a Basic-Auth
  header becomes credentials, variables are substituted, and the request is
  either handed to the client or sent, its outcome giving exactly one log.
 */
module Webhook {
  import opened Types
  import opened Text

  /** A stored webhook record. */
  datatype Webhook = Webhook(
    url: Option<string>,
    httpMethod: Option<HttpMethod>,
    headers: seq<KeyValue>,
    queryParams: seq<KeyValue>,
    body: Option<string>)

  /** The body template that stands for the whole result snapshot. */
  const StateTemplate: string := "{{state}}"

  /**
    `defaultWebhookAttributes` (its definition is not part of this model):
    method POST, no headers, no query parameters.
   */
  function WithDefaultAttributes(webhook: Webhook): Webhook
  {
    webhook.(httpMethod := Some(POST), headers := [], queryParams := [])
  }

  // ---------------------------------------------------------------- prepareWebhookAttributes

  /**
    `prepareWebhookAttributes`: with the advanced configuration turned off,
    the body is the result snapshot and the default attributes replace the
    stored ones; with only the custom body turned off, just the body is
    replaced; otherwise the webhook is used as stored. The url is never
    changed.
   */
  function PrepareWebhookAttributes(webhook: Webhook, options: WebhookOptions): (r: Webhook)
    ensures r.url == webhook.url
    ensures options.isAdvancedConfig == Some(false) ==>
      r.body == Some(StateTemplate) && r.httpMethod == Some(POST) && r.headers == [] && r.queryParams == []
    ensures options.isAdvancedConfig != Some(false) && options.isCustomBody == Some(false) ==>
      r.body == Some(StateTemplate) && r.(body := webhook.body) == webhook
    ensures options.isAdvancedConfig != Some(false) && options.isCustomBody != Some(false) ==> r == webhook
  {
    if options.isAdvancedConfig == Some(false) then WithDefaultAttributes(webhook.(body := Some(StateTemplate)))
    else if options.isCustomBody == Some(false) then webhook.(body := Some(StateTemplate))
    else webhook
  }

  /** Preparing twice with the same options is preparing once. */
  lemma PrepareIsIdempotent(webhook: Webhook, options: WebhookOptions)
    ensures PrepareWebhookAttributes(PrepareWebhookAttributes(webhook, options), options)
         == PrepareWebhookAttributes(webhook, options)
  {
  }

  // ---------------------------------------------------------------- checkIfBodyIsAVariable

  /** The characters a regular expression's `.` does not match. */
  predicate IsLineTerminator(ch: char)
  {
    ch == '\n' || ch == '\r' || ch == '\U{2028}' || ch == '\U{2029}'
  }

  /** Matching `.+}}$` on `s`, having already matched `seen` characters with `.`. */
  function MatchDotsThenClose(s: string, seen: bool): (r: bool)
    ensures r <==> (|s| >= 2 && s[|s| - 2..] == "}}" && (seen || |s| >= 3) &&
                    forall i :: 0 <= i < |s| - 2 ==> !IsLineTerminator(s[i]))
    decreases |s|
  {
    (seen && s == "}}") || (s != [] && !IsLineTerminator(s[0]) && MatchDotsThenClose(s[1..], true))
  }

  /**
    `checkIfBodyIsAVariable`, the test `/^{{.+}}$/`: the body is `{{`, at
    least one character other than a line terminator, and `}}`.
   */
  function CheckIfBodyIsAVariable(body: string): (r: bool)
    ensures r <==> (|body| >= 5 && body[..2] == "{{" && body[|body| - 2..] == "}}" &&
                    forall i :: 2 <= i < |body| - 2 ==> !IsLineTerminator(body[i]))
  {
    var r := StartsWith(body, "{{") && MatchDotsThenClose(body[2..], false);
    if |body| < 2 then r
    else
      AfterOpening(body);
      r
  }

  /** What `.+}}$` asks of the text after the opening `{{`, restated on the whole body. */
  lemma AfterOpening(body: string)
    requires |body| >= 2
    ensures var s := body[2..];
      (|s| >= 3 && s[|s| - 2..] == "}}" && forall i :: 0 <= i < |s| - 2 ==> !IsLineTerminator(s[i])) <==>
      (|body| >= 5 && body[|body| - 2..] == "}}" && forall i :: 2 <= i < |body| - 2 ==> !IsLineTerminator(body[i]))
  {
    var s := body[2..];
    if |body| >= 4 {
      assert s[|s| - 2..] == body[|body| - 2..];
    }
    assert forall i :: 0 <= i < |s| ==> s[i] == body[i + 2];
  }

  // ---------------------------------------------------------------- key-value tables

  /** One step of the `reduce` in `convertKeyValueTableToObject`: a row without key empties the object. */
  function AddRow(c: Collaborators, variables: seq<Variable>, acc: map<string, string>, item: KeyValue): map<string, string>
  {
    if !Truthy(item.key) then map[]
    else acc[item.key.value := c.parseVariables(variables, if item.value.Some? then item.value.value else "", false)]
  }

  function ReduceRows(c: Collaborators, variables: seq<Variable>, items: seq<KeyValue>): map<string, string>
    decreases |items|
  {
    if items == [] then map[]
    else AddRow(c, variables, ReduceRows(c, variables, items[..|items| - 1]), items[|items| - 1])
  }

  /** `convertKeyValueTableToObject` */
  function ConvertKeyValueTableToObject(c: Collaborators, keyValues: Option<seq<KeyValue>>, variables: seq<Variable>)
    : (r: Option<map<string, string>>)
    ensures r.None? <==> keyValues.None?
  {
    if keyValues.None? then None else Some(ReduceRows(c, variables, keyValues.value))
  }

  /** The substituted value of a row. */
  function RowValue(c: Collaborators, variables: seq<Variable>, item: KeyValue): string
  {
    c.parseVariables(variables, if item.value.Some? then item.value.value else "", false)
  }

  /** Every row has a key. */
  predicate AllKeyed(items: seq<KeyValue>)
  {
    forall i :: 0 <= i < |items| ==> Truthy(items[i].key)
  }

  /** Row `i` has a key and no later row has the same key. */
  predicate LastWithKey(items: seq<KeyValue>, i: int)
  {
    0 <= i < |items| && items[i].key.Some? && forall j :: i < j < |items| ==> items[j].key != items[i].key
  }

  /** When every row has a key, the object has exactly the rows' keys. */
  lemma {:induction false} KeyedRowsKeys(c: Collaborators, variables: seq<Variable>, items: seq<KeyValue>)
    requires AllKeyed(items)
    ensures forall k :: k in ReduceRows(c, variables, items) <==> exists i :: 0 <= i < |items| && items[i].key == Some(k)
    decreases |items|
  {
    if items != [] {
      var n := |items| - 1;
      var pre := items[..n];
      assert AllKeyed(pre) by {
        forall i | 0 <= i < |pre| ensures Truthy(pre[i].key) { assert pre[i] == items[i]; }
      }
      KeyedRowsKeys(c, variables, pre);
      assert Truthy(items[n].key);
      forall k ensures k in ReduceRows(c, variables, items) <==> exists i :: 0 <= i < |items| && items[i].key == Some(k) {
        if k in ReduceRows(c, variables, pre) {
          var i :| 0 <= i < |pre| && pre[i].key == Some(k);
          assert items[i].key == Some(k);
        }
        if exists i :: 0 <= i < |items| && items[i].key == Some(k) {
          var i :| 0 <= i < |items| && items[i].key == Some(k);
          if i < n { assert pre[i].key == Some(k); }
        }
      }
    }
  }

  /**
    When every row has a key, each key holds the substituted value of the
    last row with that key.
   */
  lemma {:induction false} KeyedRowsLastWins(c: Collaborators, variables: seq<Variable>, items: seq<KeyValue>, i: int)
    requires AllKeyed(items) && LastWithKey(items, i)
    ensures items[i].key.value in ReduceRows(c, variables, items)
    ensures ReduceRows(c, variables, items)[items[i].key.value] == RowValue(c, variables, items[i])
    decreases |items|
  {
    var n := |items| - 1;
    var pre := items[..n];
    assert Truthy(items[n].key);
    if i < n {
      assert AllKeyed(pre) by {
        forall j | 0 <= j < |pre| ensures Truthy(pre[j].key) { assert pre[j] == items[j]; }
      }
      assert LastWithKey(pre, i) by {
        forall j | i < j < |pre| ensures pre[j].key != pre[i].key { assert pre[j] == items[j]; }
      }
      KeyedRowsLastWins(c, variables, pre, i);
      assert items[n].key != items[i].key;
    }
  }

  /** A row without a key discards every row before it. */
  lemma {:induction false} KeylessRowResets(c: Collaborators, variables: seq<Variable>, pre: seq<KeyValue>,
                                            keyless: KeyValue, post: seq<KeyValue>)
    requires !Truthy(keyless.key)
    ensures ReduceRows(c, variables, pre + [keyless] + post) == ReduceRows(c, variables, post)
    decreases |post|
  {
    var all := pre + [keyless] + post;
    if post == [] {
      assert all[..|all| - 1] == pre;
    } else {
      var n := |post| - 1;
      KeylessRowResets(c, variables, pre, keyless, post[..n]);
      assert all[..|all| - 1] == pre + [keyless] + post[..n];
    }
  }

  // ---------------------------------------------------------------- basic auth

  /** A header `authorization: … basic …` (names and values compared in lower case). */
  predicate IsBasicAuthHeader(h: KeyValue)
  {
    h.key.Some? && Lower(h.key.value) == "authorization" &&
    h.value.Some? && Includes(Lower(h.value.value), "basic")
  }

  /** `headers.findIndex(IsBasicAuthHeader)` */
  function FindBasicAuthIndex(headers: seq<KeyValue>): (r: int)
    ensures -1 <= r < |headers|
    ensures r == -1 <==> forall j :: 0 <= j < |headers| ==> !IsBasicAuthHeader(headers[j])
    ensures r >= 0 ==> IsBasicAuthHeader(headers[r]) && forall j :: 0 <= j < r ==> !IsBasicAuthHeader(headers[j])
  {
    FindIndex(headers, IsBasicAuthHeader)
  }

  /** The header value after its first six characters, split on `:`: user name and password. */
  function Credentials(value: string): (r: BasicAuth)
    ensures r.username.Some?
  {
    var parts := Split(value[if |value| < 6 then |value| else 6..], ':');
    BasicAuth(Some(parts[0]), if |parts| > 1 then Some(parts[1]) else None)
  }

  /**
    `<scheme>user:pass`, for any six-character scheme (`Basic `, `basic `,
    `BASIC `, ...), gives back `user` and `pass` when neither holds a colon.
   */
  lemma CredentialsRoundTrip(scheme: string, user: string, pass: string)
    requires |scheme| == 6 && ':' !in user && ':' !in pass
    ensures Credentials(scheme + user + ":" + pass) == BasicAuth(Some(user), Some(pass))
  {
    var v := scheme + user + ":" + pass;
    assert v[6..] == user + [':'] + pass;
    SplitAtFirst(user, pass, ':');
  }

  /** A password holding a colon is cut at that colon. */
  lemma PasswordStopsAtColon(scheme: string, user: string, p1: string, p2: string)
    requires |scheme| == 6 && ':' !in user && ':' !in p1
    ensures Credentials(scheme + user + ":" + p1 + ":" + p2).password == Some(p1)
  {
    var v := scheme + user + ":" + p1 + ":" + p2;
    var rest := p1 + ":" + p2;
    assert v[6..] == user + [':'] + rest;
    SplitAtFirst(user, rest, ':');
    assert rest == p1 + [':'] + p2;
    SplitAtFirst(p1, p2, ':');
  }

  // ---------------------------------------------------------------- body

  /**
    `getBodyContent`: no body gives nothing; the `{{state}}` template gives
    the result's answers (or a sample result) as JSON; any other body is
    kept as written.
   */
  function GetBodyContent(c: Collaborators, typebot: Typebot, body: Option<string>, result: Option<ResultInSession>,
                          groupId: string, variables: seq<Variable>): (r: Option<string>)
    ensures r.None? <==> !Truthy(body)
    ensures Truthy(body) && body.value != StateTemplate ==> r == body
    ensures body == Some(StateTemplate) && result.Some? ==> r == Some(c.answersJson(typebot, result.value))
    ensures body == Some(StateTemplate) && result.None? ==> r == Some(c.sampleResultJson(typebot, groupId, variables))
  {
    if !Truthy(body) then None
    else if body.value == StateTemplate then
      Some(if result.Some? then c.answersJson(typebot, result.value) else c.sampleResultJson(typebot, groupId, variables))
    else body
  }

  datatype JsonParseResult = JsonParseResult(data: JsonData, isJson: bool)

  /** `safeJsonParse`: the parsed value, or the text itself when it does not parse. */
  function SafeJsonParse(c: Collaborators, text: string): (r: JsonParseResult)
    ensures r.isJson <==> c.jsonParse(text).Some?
    ensures r.isJson ==> r.data == Parsed(c.jsonParse(text).value)
    ensures !r.isJson ==> r.data == Raw(text)
  {
    match c.jsonParse(text)
    case Some(j) => JsonParseResult(Parsed(j), true)
    case None => JsonParseResult(Raw(text), false)
  }

  /**
    The request body: nothing for GET or an empty body; otherwise the body
    with variables substituted, JSON-escaped unless the whole body is one
    `{{variable}}`, then parsed as JSON when it parses.
   */
  function RequestBody(c: Collaborators, variables: seq<Variable>, bodyContent: Option<string>, httpMethod: HttpMethod)
    : (r: Option<JsonParseResult>)
    ensures r.None? <==> httpMethod == GET || !Truthy(bodyContent)
    ensures r.Some? ==>
      r.value == SafeJsonParse(c, c.parseVariables(variables, bodyContent.value, !CheckIfBodyIsAVariable(bodyContent.value)))
    ensures r.Some? ==> r.value.isJson || r.value.data == Raw(c.parseVariables(variables, bodyContent.value, !CheckIfBodyIsAVariable(bodyContent.value)))
  {
    if Truthy(bodyContent) && httpMethod != GET then
      Some(SafeJsonParse(c, c.parseVariables(variables, bodyContent.value, !CheckIfBodyIsAVariable(bodyContent.value))))
    else None
  }

  // ---------------------------------------------------------------- parseWebhookAttributes

  /** The first Basic-Auth header exists and its value holds a `:`. */
  predicate IsUsernamePasswordAuth(headers: seq<KeyValue>)
  {
    var i := FindBasicAuthIndex(headers);
    i != -1 && ':' in headers[i].value.value
  }

  /** The credentials taken from the headers, or none. */
  function BasicAuthOf(headers: seq<KeyValue>): (r: BasicAuth)
    ensures !IsUsernamePasswordAuth(headers) ==> r == BasicAuth(None, None)
    ensures IsUsernamePasswordAuth(headers) ==> r == Credentials(headers[FindBasicAuthIndex(headers)].value.value)
    ensures IsUsernamePasswordAuth(headers) ==> r.username.Some?
  {
    if IsUsernamePasswordAuth(headers) then Credentials(headers[FindBasicAuthIndex(headers)].value.value)
    else BasicAuth(None, None)
  }

  /** `headers.splice(i, 1)` */
  function RemoveAt(headers: seq<KeyValue>, i: int): (r: seq<KeyValue>)
    requires 0 <= i < |headers|
    ensures |r| == |headers| - 1
  {
    headers[..i] + headers[i + 1..]
  }

  /** The header list once the username/password Basic-Auth header is spliced out. */
  function WithoutBasicAuthHeader(headers: seq<KeyValue>): (r: seq<KeyValue>)
    ensures !IsUsernamePasswordAuth(headers) ==> r == headers
    ensures IsUsernamePasswordAuth(headers) ==> r == RemoveAt(headers, FindBasicAuthIndex(headers))
  {
    if IsUsernamePasswordAuth(headers) then RemoveAt(headers, FindBasicAuthIndex(headers)) else headers
  }

  /**
    Splicing out one header removes that header only: the headers before it
    and after it stay, in order.
   */
  lemma RemoveAtKeepsOthers(headers: seq<KeyValue>, i: int)
    requires 0 <= i < |headers|
    ensures forall j :: 0 <= j < i ==> RemoveAt(headers, i)[j] == headers[j]
    ensures forall j :: i < j < |headers| ==> RemoveAt(headers, i)[j - 1] == headers[j]
    ensures multiset(RemoveAt(headers, i)) + multiset{headers[i]} == multiset(headers)
  {
    assert headers == headers[..i] + ([headers[i]] + headers[i + 1..]);
  }

  /** The query string to append to the url: empty, or `?` and the parameters. */
  function QuerySuffix(c: Collaborators, webhook: Webhook, variables: seq<Variable>): (r: string)
    ensures var query := c.stringifyQuery(ReduceRows(c, variables, webhook.queryParams));
      (r == [] <==> query == []) && (r != [] ==> r == "?" + query)
  {
    var queryParams := c.stringifyQuery(ReduceRows(c, variables, webhook.queryParams));
    if queryParams != "" then "?" + queryParams else ""
  }

  /**
    What `parseWebhookAttributes` yields: nothing without a url or a method;
    otherwise the url with its query string and variables substituted, the
    Basic-Auth credentials, the remaining headers as an object, and the body.
   */
  function ParsedAttributes(c: Collaborators, typebot: Typebot, groupId: string, result: Option<ResultInSession>,
                            webhook: Webhook): (r: Option<ParsedWebhook>)
    ensures r.None? <==> !Truthy(webhook.url) || webhook.httpMethod.None?
    ensures r.Some? ==> r.value.httpMethod == webhook.httpMethod.value
    ensures r.Some? && (webhook.httpMethod == Some(GET) || !Truthy(webhook.body)) ==>
      r.value.body.None? && !r.value.isJson
    ensures r.Some? ==> r.value.basicAuth == BasicAuthOf(webhook.headers)
    ensures r.Some? && r.value.isJson ==> r.value.body.Some? && r.value.body.value.Parsed?
  {
    if !Truthy(webhook.url) || webhook.httpMethod.None? then None
    else
      var variables := typebot.variables;
      var bodyContent := GetBodyContent(c, typebot, webhook.body, result, groupId, variables);
      var body := RequestBody(c, variables, bodyContent, webhook.httpMethod.value);
      Some(ParsedWebhook(
        c.parseVariables(variables, webhook.url.value + QuerySuffix(c, webhook, variables), false),
        BasicAuthOf(webhook.headers),
        webhook.httpMethod.value,
        ConvertKeyValueTableToObject(c, Some(WithoutBasicAuthHeader(webhook.headers)), variables),
        if body.Some? then Some(body.value.data) else None,
        body.Some? && body.value.isJson))
  }

  /**
    `parseWebhookAttributes`, step by step. Besides the parsed webhook it
    returns the webhook's header list as the splice leaves it.
   */
  method ParseWebhookAttributes(c: Collaborators, typebot: Typebot, groupId: string, result: Option<ResultInSession>,
                                webhook: Webhook)
    returns (parsed: Option<ParsedWebhook>, headers: seq<KeyValue>)
    ensures parsed == ParsedAttributes(c, typebot, groupId, result, webhook)
    ensures headers == if parsed.Some? then WithoutBasicAuthHeader(webhook.headers) else webhook.headers
  {
    headers := webhook.headers;
    if !Truthy(webhook.url) || webhook.httpMethod.None? {
      return None, headers;
    }
    var variables := typebot.variables;
    var basicAuth := BasicAuth(None, None);
    var basicAuthHeaderIdx := FindBasicAuthIndex(headers);
    var isUsernamePasswordBasicAuth := basicAuthHeaderIdx != -1 && ':' in headers[basicAuthHeaderIdx].value.value;
    if isUsernamePasswordBasicAuth {
      var parts := Credentials(headers[basicAuthHeaderIdx].value.value);
      basicAuth := basicAuth.(username := parts.username, password := parts.password);
      headers := headers[..basicAuthHeaderIdx] + headers[basicAuthHeaderIdx + 1..];
    }
    assert isUsernamePasswordBasicAuth == IsUsernamePasswordAuth(webhook.headers);
    assert basicAuth == BasicAuthOf(webhook.headers);
    assert headers == WithoutBasicAuthHeader(webhook.headers);
    var headerObject := ConvertKeyValueTableToObject(c, Some(headers), variables);
    var queryParams := c.stringifyQuery(ReduceRows(c, variables, webhook.queryParams));
    var bodyContent := GetBodyContent(c, typebot, webhook.body, result, groupId, variables);
    var body: Option<JsonData> := None;
    var isJson := false;
    if Truthy(bodyContent) && webhook.httpMethod.value != GET {
      var parsedBody := SafeJsonParse(c, c.parseVariables(variables, bodyContent.value, !CheckIfBodyIsAVariable(bodyContent.value)));
      body, isJson := Some(parsedBody.data), parsedBody.isJson;
    }
    ghost var expected := RequestBody(c, variables, bodyContent, webhook.httpMethod.value);
    assert body == (if expected.Some? then Some(expected.value.data) else None);
    assert isJson == (expected.Some? && expected.value.isJson);
    assert (if queryParams != "" then "?" + queryParams else "") == QuerySuffix(c, webhook, variables);
    var url := c.parseVariables(variables, webhook.url.value + (if queryParams != "" then "?" + queryParams else ""), false);
    parsed := Some(ParsedWebhook(url, basicAuth, webhook.httpMethod.value, headerObject, body, isJson));
  }

  // ---------------------------------------------------------------- executeWebhook

  /** JavaScript truthiness of a request body. */
  predicate BodyTruthy(body: Option<JsonData>)
  {
    match body
    case None => false
    case Some(Raw(text)) => text != ""
    case Some(Parsed(j)) => !(j.JNull? || j == JBool(false) || j == JNumber(0) || j == JString(""))
  }

  /** The `Content-Type` header asks for a form-encoded body. */
  predicate IsFormEncoded(headers: Option<map<string, string>>)
  {
    headers.Some? && "Content-Type" in headers.value && Includes(headers.value["Content-Type"], "x-www-form-urlencoded")
  }

  /**
    The request handed to the HTTP client: JSON bodies go in `json` unless
    the content type is form-encoded, where they go in `form`; a body that
    is not JSON goes in `body`.
   */
  function BuildRequest(webhook: ParsedWebhook): (r: HttpRequest)
    ensures r.url == webhook.url && r.httpMethod == webhook.httpMethod && r.headers == webhook.headers
    ensures r.username == webhook.basicAuth.username && r.password == webhook.basicAuth.password
    ensures r.json.Some? <==> BodyTruthy(webhook.body) && webhook.isJson && !IsFormEncoded(webhook.headers)
    ensures r.form.Some? <==> BodyTruthy(webhook.body) && IsFormEncoded(webhook.headers)
    ensures r.body.Some? <==> BodyTruthy(webhook.body) && !webhook.isJson
    ensures r.json.Some? ==> r.json == webhook.body
    ensures r.form.Some? ==> r.form == webhook.body
    ensures r.body.Some? ==> r.body == webhook.body
  {
    var truthy := BodyTruthy(webhook.body);
    var isForm := IsFormEncoded(webhook.headers);
    HttpRequest(
      webhook.url, webhook.httpMethod, webhook.headers,
      webhook.basicAuth.username, webhook.basicAuth.password,
      if !isForm && truthy && webhook.isJson then webhook.body else None,
      if isForm && truthy then webhook.body else None,
      if truthy && !webhook.isJson then webhook.body else None)
  }

  /**
    A non-empty body is always sent in some field, and never both as JSON
    and in another field.
   */
  lemma RequestCarriesBody(webhook: ParsedWebhook)
    ensures var r := BuildRequest(webhook);
      (BodyTruthy(webhook.body) <==> r.json.Some? || r.form.Some? || r.body.Some?) &&
      !(r.json.Some? && r.form.Some?) && !(r.json.Some? && r.body.Some?)
  {
  }

  /** What the HTTP client did: answered, answered with an error status, or failed otherwise. */
  datatype HttpOutcome =
    | Responded(statusCode: int, responseBody: string)
    | HttpFailure(statusCode: int, responseBody: string)
    | Thrown(error: string)

  datatype WebhookResult = WebhookResult(response: WebhookResponse, logs: seq<Log>)

  /**
    The outcome of sending the request: exactly one log, a success only when
    the server answered without an error status; the response keeps the
    server's status, or 500 when no answer came.
   */
  function Classify(c: Collaborators, webhook: ParsedWebhook, outcome: HttpOutcome): (r: WebhookResult)
    ensures |r.logs| == 1 && r.logs[0].details.Some?
    ensures r.logs[0].details.value.request == BuildRequest(webhook)
    ensures r.logs[0].status == Success <==> outcome.Responded?
    ensures !outcome.Thrown? ==> (r.response.statusCode == outcome.statusCode &&
                                  r.response.data == SafeJsonParse(c, outcome.responseBody).data &&
                                  r.logs[0].details.value.statusCode == Some(outcome.statusCode))
    ensures outcome.Thrown? ==> r.response.statusCode == 500 && r.logs[0].details.value.statusCode.None?
  {
    var request := BuildRequest(webhook);
    match outcome
    case Responded(statusCode, responseBody) =>
      var data := SafeJsonParse(c, responseBody).data;
      WebhookResult(WebhookResponse(statusCode, data),
        [Log(Success, "Webhook successfuly executed.", Some(LogDetails(Some(statusCode), request, BodyOnly(data))))])
    case HttpFailure(statusCode, responseBody) =>
      var response := WebhookResponse(statusCode, SafeJsonParse(c, responseBody).data);
      WebhookResult(response,
        [Log(Error, "Webhook returned an error.", Some(LogDetails(Some(statusCode), request, WithStatus(response))))])
    case Thrown(error) =>
      var response := WebhookResponse(500, Parsed(JObject(map["message" := JString("Error from Typebot server: " + error)])));
      WebhookResult(response,
        [Log(Error, "Webhook failed to execute.", Some(LogDetails(None, request, WithStatus(response))))])
  }

  /** `executeWebhook`: builds the request, sends it (its outcome is a parameter) and logs what happened. */
  method ExecuteWebhook(c: Collaborators, webhook: ParsedWebhook, outcome: HttpOutcome) returns (r: WebhookResult)
    ensures r == Classify(c, webhook, outcome)
  {
    var logs: seq<Log> := [];
    var request := BuildRequest(webhook);
    var response: WebhookResponse;
    match outcome {
      case Responded(statusCode, responseBody) =>
        response := WebhookResponse(statusCode, SafeJsonParse(c, responseBody).data);
        logs := logs + [Log(Success, "Webhook successfuly executed.",
                            Some(LogDetails(Some(statusCode), request, BodyOnly(SafeJsonParse(c, responseBody).data))))];
      case HttpFailure(statusCode, responseBody) =>
        response := WebhookResponse(statusCode, SafeJsonParse(c, responseBody).data);
        logs := logs + [Log(Error, "Webhook returned an error.", Some(LogDetails(Some(statusCode), request, WithStatus(response))))];
      case Thrown(error) =>
        response := WebhookResponse(500, Parsed(JObject(map["message" := JString("Error from Typebot server: " + error)])));
        logs := logs + [Log(Error, "Webhook failed to execute.", Some(LogDetails(None, request, WithStatus(response))))];
    }
    r := WebhookResult(response, logs);
  }

  // ---------------------------------------------------------------- executeWebhookBlock

  /** A single error log, without details. */
  predicate IsSingleError(logs: Option<seq<Log>>, description: string)
  {
    logs.Some? && |logs.value| == 1 && logs.value[0].status == Error &&
    logs.value[0].description == description && logs.value[0].details.None?
  }

  /**
    `executeWebhookBlock`: `stored` is the webhook record found by the block's
    webhook id, and `outcome` what the HTTP client does with the request.
   */
  method ExecuteWebhookBlock(c: Collaborators, state: SessionState, block: Block, stored: Option<Webhook>,
                             outcome: HttpOutcome) returns (r: ExecResponse)
    requires block.kind.Integration? && block.kind.integration.WebhookIntegration?
    ensures var options := block.kind.integration.webhookOptions;
      var parsed := if stored.Some?
        then ParsedAttributes(c, state.typebot, block.groupId, state.result,
                              PrepareWebhookAttributes(stored.value, options))
        else None;
      (stored.None? ==>
        r.outgoingEdgeId == block.outgoingEdgeId && r.clientSideActions.None? && r.newSessionState.None? &&
        IsSingleError(r.logs, "Couldn't find webhook with id " + block.kind.integration.webhookId)) &&
      (stored.Some? && parsed.None? ==>
        r.outgoingEdgeId == block.outgoingEdgeId && r.clientSideActions.None? && r.newSessionState.None? &&
        IsSingleError(r.logs, "Couldn't parse webhook attributes")) &&
      (parsed.Some? && options.isExecutedOnClient ==>
        r == ExecResponse(block.outgoingEdgeId, None, None, Some([Action(WebhookToExecute(parsed.value), None)]))) &&
      (parsed.Some? && !options.isExecutedOnClient ==>
        var sent := Classify(c, parsed.value, outcome);
        r == c.resumeWebhookExecution(state, block, sent.logs, sent.response))
  {
    var logs: seq<Log> := [];
    var options := block.kind.integration.webhookOptions;
    if stored.None? {
      logs := logs + [Log(Error, "Couldn't find webhook with id " + block.kind.integration.webhookId, None)];
      return ExecResponse(block.outgoingEdgeId, Some(logs), None, None);
    }
    var preparedWebhook := PrepareWebhookAttributes(stored.value, options);
    var parsedWebhook, _ := ParseWebhookAttributes(c, state.typebot, block.groupId, state.result, preparedWebhook);
    if parsedWebhook.None? {
      logs := logs + [Log(Error, "Couldn't parse webhook attributes", None)];
      return ExecResponse(block.outgoingEdgeId, Some(logs), None, None);
    }
    if options.isExecutedOnClient {
      return ExecResponse(block.outgoingEdgeId, None, None, Some([Action(WebhookToExecute(parsedWebhook.value), None)]));
    }
    var sent := ExecuteWebhook(c, parsedWebhook.value, outcome);
    r := c.resumeWebhookExecution(state, block, sent.logs, sent.response);
  }
}
