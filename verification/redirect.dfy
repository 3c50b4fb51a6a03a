/** The forwarding route: which methods reach the handler, the order in which
    the handler checks, converts and forwards a request, and how the outbound
    request is assembled. */
module Redirect {
  import opened Results
  import opened Http
  import Errors
  import Webhook
  import Converter

  /** The methods `get_config` routes to the handler, on every path. */
  const RoutedMethods: set<Method> := {Get, Post, Put, Patch, Delete}

  /** The methods whose outbound request carries the body. */
  const BodyMethods: set<Method> := {Post, Put, Patch}

  /** The credential header names, in the lower-case form header maps store. */
  const AccessIdHeader: string := "cf-access-client-id"
  const AccessSecretHeader: string := "cf-access-client-secret"

  /** The size hint the handler passes for the two credential headers. */
  const CredentialHeaderCount: nat := 2

  /** The request the upstream client sends. `body` and `query` are absent
      when the builder does not attach them. */
  datatype OutboundRequest = OutboundRequest(
    verb: Method,
    url: Url,
    headers: seq<Header>,
    body: Option<Bytes>,
    query: Option<map<string, string>>)

  /** What came back from upstream; its conversion into the reply is not modelled. */
  datatype UpstreamResponse = UpstreamResponse(status: nat, headers: seq<Header>, body: Bytes)

  /** `ReqwestBuilder`: the parts of the outbound request and whether body
      and query parameters are to be attached. */
  datatype ReqwestBuilder = ReqwestBuilder(
    url: Url,
    body: Bytes,
    headers: seq<Header>,
    params: map<string, string>,
    verb: Method,
    includeBody: bool,
    includeParams: bool)

  /** `ReqwestBuilder::new`: both flags start off, so the request built from
      a fresh builder is decided by its verb alone. */
  function NewBuilder(url: Url, body: Bytes, headers: seq<Header>, params: map<string, string>, verb: Method): (b: ReqwestBuilder)
    ensures Build(b).Ok? ==>
              Build(b).value == OutboundRequest(verb, url, headers, if verb in BodyMethods then Some(body) else None, Some(params))
  {
    ReqwestBuilder(url, body, headers, params, verb, false, false)
  }

  /** Picks the client verb for the method, raising the flags that verb needs,
      then attaches headers always, the body and the query when flagged. */
  function Build(b: ReqwestBuilder): (r: Result<OutboundRequest, Errors.Error>)
    ensures r.Ok? <==> b.verb in RoutedMethods
    ensures r.Err? ==> r.error == Errors.InvalidRoute(MethodName(b.verb))
    ensures r.Ok? ==> r.value.verb == b.verb && r.value.url == b.url && r.value.headers == b.headers
    ensures r.Ok? ==> (r.value.body.Some? <==> b.includeBody || b.verb in BodyMethods)
    ensures r.Ok? && r.value.body.Some? ==> r.value.body.value == b.body
    ensures r.Ok? ==> r.value.query == Some(b.params)
  {
    match b.verb
    case Get => Ok(Attach(b, b.includeBody, true))
    case Post => Ok(Attach(b, true, true))
    case Put => Ok(Attach(b, true, true))
    case Patch => Ok(Attach(b, true, true))
    case Delete => Ok(Attach(b, b.includeBody, true))
    case _ => Err(Errors.InvalidRoute(MethodName(b.verb)))
  }

  function Attach(b: ReqwestBuilder, includeBody: bool, includeParams: bool): OutboundRequest {
    OutboundRequest(
      b.verb, b.url, b.headers,
      if includeBody then Some(b.body) else None,
      if includeParams then Some(b.params) else None)
  }

  /** A freshly made builder sends the body exactly for POST, PUT and PATCH,
      always sends the query parameters, and refuses every unrouted method. */
  lemma FreshBuilderPolicy(url: Url, body: Bytes, headers: seq<Header>, params: map<string, string>, verb: Method)
    ensures Build(NewBuilder(url, body, headers, params, verb)).Ok? <==> verb in RoutedMethods
    ensures var r := Build(NewBuilder(url, body, headers, params, verb));
            r.Ok? ==> r.value.body == (if verb in BodyMethods then Some(body) else None) && r.value.query == Some(params)
  {
    var r := Build(NewBuilder(url, body, headers, params, verb));
    if r.Ok? && r.value.body.Some? {
      assert verb in BodyMethods;
    }
  }

  /** The collaborators the handler calls: the regex engine, URL joining,
      header-value validity, query-string decoding and the upstream call. */
  datatype Environment = Environment(
    regex: Webhook.RegexEngine,
    join: (Url, string) -> Result<Url, string>,
    isValidValue: Bytes -> bool,
    parseQuery: string -> Option<map<string, string>>,
    send: OutboundRequest -> Result<UpstreamResponse, string>)

  /** An inbound request: method, the matched path, headers in iteration
      order, the raw query string and the body stream. */
  datatype InboundRequest = InboundRequest(
    verb: Method,
    path: string,
    headers: seq<Header>,
    queryString: string,
    payload: seq<Converter.Chunk>)

  /** The handler's steps, in the order it takes them. */
  datatype Step = Authorize | JoinUrl | ReadBody | TranslateHeaders | ParseQuery | BuildRequest | Send

  const Pipeline: seq<Step> := [Authorize, JoinUrl, ReadBody, TranslateHeaders, ParseQuery, BuildRequest, Send]

  datatype Outcome =
    | NotFound                                                    // the path/method pair is not allowed
    | Relayed(request: OutboundRequest, response: UpstreamResponse) // forwarded and answered
    | Failed(error: ErrorResponse)                                // a step failed

  /** The outcome together with the steps taken, the last one being where it stopped. */
  datatype Handled = Handled(outcome: Outcome, trace: seq<Step>)

  /** The credential headers appended after the translated inbound headers. */
  function Credentials(data: Webhook.WebHookData): seq<Header> {
    [Header(AccessIdHeader, data.accessId), Header(AccessSecretHeader, data.accessSecret)]
  }

  /** `post_redirect`: a request whose path and method are not allowed gets
      404 before anything else is looked at; otherwise the URL is joined, the
      body read, the headers translated and the credentials appended, the
      query decoded, the request built and sent. Each failure is a 400. */
  function PostRedirect(env: Environment, data: Webhook.WebHookData, request: InboundRequest): (h: Handled)
    ensures h.outcome.NotFound? <==> !data.IsAllowedPath(env.regex, request.path, request.verb)
    ensures h.outcome.NotFound? ==> h.trace == [Authorize]
    ensures 1 <= |h.trace| <= |Pipeline| && h.trace == Pipeline[..|h.trace|]
    ensures h.outcome.Failed? ==> h.outcome.error.status == BadRequestStatus
    ensures h.outcome.Relayed? ==> h.trace == Pipeline
  {
    if !data.IsAllowedPath(env.regex, request.path, request.verb) then Handled(NotFound, [Authorize])
    else
      match data.GetTargetUrl(request.path, env.join)
      case Err(e) => Handled(Failed(BadRequest(Crate(e))), Pipeline[..2])
      case Ok(url) =>
        match Converter.ConvertBody(request.payload)
        case Err(e) => Handled(Failed(Converter.ToErrorResponse(e)), Pipeline[..3])
        case Ok(body) =>
          var translated := Converter.ConvertHeaders(request.headers, CredentialHeaderCount, env.isValidValue).value;
          var headers := translated + Credentials(data);
          match env.parseQuery(request.queryString)
          case None => Handled(Failed(BadRequest(QueryRejected)), Pipeline[..5])
          case Some(params) =>
            match Build(NewBuilder(url, body, headers, params, request.verb))
            case Err(e) => Handled(Failed(BadRequest(Crate(e))), Pipeline[..6])
            case Ok(outbound) =>
              match env.send(outbound)
              case Err(message) => Handled(Failed(BadRequest(UpstreamFailed(message))), Pipeline)
              case Ok(response) => Handled(Relayed(outbound, response), Pipeline)
  }

  /** What a relayed request looks like: same method, the joined URL, the
      whole body for POST/PUT/PATCH only, the decoded query, and the
      translated inbound headers followed by the two credentials. */
  lemma RelayedRequestShape(env: Environment, data: Webhook.WebHookData, request: InboundRequest)
    requires PostRedirect(env, data, request).outcome.Relayed?
    ensures var h := PostRedirect(env, data, request);
            var out := h.outcome.request;
            && data.IsAllowedPath(env.regex, request.path, request.verb)
            && out.verb == request.verb && request.verb in RoutedMethods
            && data.GetTargetUrl(request.path, env.join) == Ok(out.url)
            && Converter.AllData(request.payload)
            && out.body == (if request.verb in BodyMethods then Some(Converter.Concat(request.payload)) else None)
            && out.query == env.parseQuery(request.queryString)
            && out.headers == Converter.ConvertHeaders(request.headers, CredentialHeaderCount, env.isValidValue).value + Credentials(data)
            && env.send(out) == Ok(h.outcome.response)
  {
    var url := data.GetTargetUrl(request.path, env.join).value;
    var body := Converter.ConvertBody(request.payload).value;
    var headers := Converter.ConvertHeaders(request.headers, CredentialHeaderCount, env.isValidValue).value + Credentials(data);
    var params := env.parseQuery(request.queryString).value;
    FreshBuilderPolicy(url, body, headers, params, request.verb);
  }

  /** The steps run in the order of `Pipeline`, and a call gets past a step
      only when that step succeeded: the path is allowed, then the URL joins,
      then the body reads, then the query decodes, then the method is routed. */
  lemma StepsRunInOrder(env: Environment, data: Webhook.WebHookData, request: InboundRequest)
    ensures var h := PostRedirect(env, data, request);
            && (|h.trace| > 1 ==> data.IsAllowedPath(env.regex, request.path, request.verb))
            && (|h.trace| > 2 ==> env.join(data.targetHost, request.path).Ok?)
            && (|h.trace| > 3 ==> Converter.AllData(request.payload))
            && (|h.trace| > 5 ==> env.parseQuery(request.queryString).Some?)
            && (|h.trace| > 6 ==> request.verb in RoutedMethods)
  {
    var url := data.GetTargetUrl(request.path, env.join);
    if url.Ok? && Converter.ConvertBody(request.payload).Ok? && env.parseQuery(request.queryString).Some? {
      var headers := Converter.ConvertHeaders(request.headers, CredentialHeaderCount, env.isValidValue).value + Credentials(data);
      FreshBuilderPolicy(url.value, Converter.ConvertBody(request.payload).value, headers, env.parseQuery(request.queryString).value, request.verb);
    }
  }

  /** Nothing the client sent can remove the credentials: they are appended
      after the translated headers, no `host` header is forwarded, and a
      client-sent header with a credential's name is forwarded alongside, not
      replaced. */
  lemma CredentialsAlwaysAttached(env: Environment, data: Webhook.WebHookData, request: InboundRequest)
    requires PostRedirect(env, data, request).outcome.Relayed?
    ensures var out := PostRedirect(env, data, request).outcome.request;
            && |out.headers| >= 2
            && out.headers[|out.headers| - 2..] == Credentials(data)
            && (forall i :: 0 <= i < |out.headers| ==> out.headers[i].name != "host")
            && (forall h: Header :: h.name == AccessIdHeader && env.isValidValue(h.value) ==>
                  multiset(out.headers)[h] >= multiset(request.headers)[h])
  {
    RelayedRequestShape(env, data, request);
    var translated := Converter.ConvertHeaders(request.headers, CredentialHeaderCount, env.isValidValue).value;
    KeptAlongside(request.headers, translated, Credentials(data), env.isValidValue);
  }

  /** Appending the credentials after the translated headers removes none of
      them and brings in no `host` header. */
  lemma KeptAlongside(headers: seq<Header>, translated: seq<Header>, extra: seq<Header>, isValidValue: Bytes -> bool)
    requires translated == Converter.ConvertHeaders(headers, CredentialHeaderCount, isValidValue).value
    requires forall i :: 0 <= i < |extra| ==> extra[i].name != "host"
    ensures forall i :: 0 <= i < |translated + extra| ==> (translated + extra)[i].name != "host"
    ensures forall h: Header :: h.name == AccessIdHeader && isValidValue(h.value) ==>
              multiset(translated + extra)[h] >= multiset(headers)[h]
  {
    Converter.ConvertHeadersKeepsForwarded(headers, CredentialHeaderCount, isValidValue);
    assert multiset(translated + extra) == multiset(translated) + multiset(extra);
    forall i | 0 <= i < |translated + extra|
      ensures (translated + extra)[i].name != "host"
    {
      if i < |translated| {
        assert translated[i] in translated;
      } else {
        assert (translated + extra)[i] == extra[i - |translated|];
      }
    }
  }

  /** The step a failed request stopped at determines the error it gets. */
  lemma FailureNamesItsStep(env: Environment, data: Webhook.WebHookData, request: InboundRequest)
    requires PostRedirect(env, data, request).outcome.Failed?
    ensures var h := PostRedirect(env, data, request);
            var cause := h.outcome.error.cause;
            var step := h.trace[|h.trace| - 1];
            && step != Authorize && step != TranslateHeaders
            && (step == JoinUrl ==>
                  && env.join(data.targetHost, request.path).Err?
                  && cause == Crate(Errors.Custom("Failed to join URL: " + env.join(data.targetHost, request.path).error)))
            && (step == ReadBody ==>
                  && !Converter.AllData(request.payload)
                  && cause == PayloadFailed(Converter.ConvertBody(request.payload).error.error))
            && (step == ParseQuery ==> env.parseQuery(request.queryString).None? && cause == QueryRejected)
            && (step == BuildRequest ==>
                  && request.verb !in RoutedMethods
                  && cause == Crate(Errors.InvalidRoute(MethodName(request.verb))))
            && (step == Send ==>
                  && env.join(data.targetHost, request.path).Ok?
                  && Converter.AllData(request.payload)
                  && env.parseQuery(request.queryString).Some?
                  && cause.UpstreamFailed?
                  && env.send(OutboundRequest(
                       request.verb,
                       env.join(data.targetHost, request.path).value,
                       Converter.ConvertHeaders(request.headers, CredentialHeaderCount, env.isValidValue).value + Credentials(data),
                       if request.verb in BodyMethods then Some(Converter.Concat(request.payload)) else None,
                       Some(env.parseQuery(request.queryString).value)))
                     == Err(cause.message))
  {
    assert data.IsAllowedPath(env.regex, request.path, request.verb);
    var url := data.GetTargetUrl(request.path, env.join);
    if url.Ok? {
      var body := Converter.ConvertBody(request.payload);
      if body.Ok? {
        var headers := Converter.ConvertHeaders(request.headers, CredentialHeaderCount, env.isValidValue).value + Credentials(data);
        var params := env.parseQuery(request.queryString);
        if params.Some? {
          FreshBuilderPolicy(url.value, body.value, headers, params.value, request.verb);
          var built := Build(NewBuilder(url.value, body.value, headers, params.value, request.verb));
          if built.Ok? {
            assert built.value == OutboundRequest(request.verb, url.value, headers,
              if request.verb in BodyMethods then Some(body.value) else None, Some(params.value));
          }
        }
      }
    }
  }

  /** `get_config`: every path is served, for the routed methods only; the
      framework answers any other method itself. */
  function Serve(env: Environment, data: Webhook.WebHookData, request: InboundRequest): (r: Option<Handled>)
    ensures r.Some? <==> request.verb in RoutedMethods
    ensures r.Some? && r.value.outcome.Failed? ==> r.value.outcome.error.cause != Crate(Errors.InvalidRoute(MethodName(request.verb)))
    ensures r.Some? ==> !(r.value.outcome.Failed? && r.value.trace == Pipeline[..6])
  {
    if request.verb in RoutedMethods then
      var h := PostRedirect(env, data, request);
      assert !(h.outcome.Failed? && h.trace == Pipeline[..6]) by {
        if h.outcome.Failed? {
          FailureNamesItsStep(env, data, request);
        }
      }
      Some(h)
    else None
  }
}
