/** The request dispatcher of the fast HTTP client (fast_client.go): one request
    descriptor runs through URL construction, query merging, body marshalling,
    the transport, status classification and response decoding, and each stage
    may stop the call with its own error.

    `Execute` states the whole call as a function of its inputs;
    `FastHttpClient.ExecuteRequest` is the imperative dispatcher, which fills
    the diagnostic error record field by field, and is proved to compute it. */
module Dispatch {

  import opened Common
  import opened Types

  // ---------------------------------------------------------------------------
  // Vocabulary

  /** The request methods the client uses (section 9.3 of RFC 9110). */
  datatype Method = GET | POST | PUT | DELETE

  function MethodName(m: Method): string
  {
    match m
    case GET => "GET"
    case POST => "POST"
    case PUT => "PUT"
    case DELETE => "DELETE"
  }

  /** The success codes the client accepts (section 15.3 of RFC 9110). */
  const StatusOK: int := 200
  const StatusCreated: int := 201
  const StatusAccepted: int := 202
  const StatusNoContent: int := 204

  /** Host and API key of the server (client.go). */
  datatype Config = Config(host: string, apiKey: string)

  /** One call: `withResponse` is the response target, given by the value it
      holds when the call starts; `None` stands for Go's nil for the optional
      parts, so a present but empty list of accepted codes is `Some([])`. */
  datatype InternalRawRequest<P, T> = InternalRawRequest(
    endpoint: string,
    httpMethod: Method,
    withRequest: Option<P>,
    withResponse: Option<T>,
    withQueryParams: Option<map<string, string>>,
    acceptedStatusCodes: Option<seq<int>>,
    functionName: string,
    apiName: string)

  datatype ErrCode =
    | ErrCodeMarshalRequest
    | ErrCodeRequestExecution
    | ErrCodeResponseStatusCode
    | ErrCodeResponseUnmarshalBody

  /** The diagnostic error record (`Error`), as a value. */
  datatype ErrorRecord = ErrorRecord(
    endpoint: string,
    httpMethod: string,
    functionName: string,
    apiName: string,
    requestToString: string,
    responseToString: string,
    meilisearchMessage: string,
    statusCode: int,
    statusCodeExpected: Option<seq<int>>,
    errCode: Option<ErrCode>,
    cause: Option<Cause>)

  /** What a dispatch can fail with: a URL the parser rejects (wrapped as
      "unable to parse url", without a record), or the filled-in record with
      its error code. */
  datatype DispatchError = UrlError(cause: Cause) | ApiError(record: ErrorRecord)

  /** A parsed URL: everything but the query, the decoded query, the raw query. */
  datatype Url = Url(withoutQuery: string, query: map<string, seq<string>>, rawQuery: string)

  datatype HttpRequest = HttpRequest(uri: Url, httpMethod: string, headers: map<string, string>, body: Option<bytes>)

  datatype TransportReply = TransportFailed(cause: Cause) | Response(statusCode: int, body: bytes)

  /** The foreign collaborators of one call: the URL parser, the query
      encoder, the body's marshaller, the best-effort server-message extractor
      used on rejected bodies, and the target's unmarshaller. */
  datatype Env<!P, !T> = Env(
    parseUrl: string -> Result<Url>,
    encodeQuery: map<string, seq<string>> -> string,
    marshal: P -> Marshalled,
    serverMessage: bytes -> Option<string>,
    unmarshal: (T, bytes) -> Decoded<T>)

  /** The external calls a dispatch makes, in order. */
  datatype Step = ParseUrl | Marshal | Send | Unmarshal

  datatype Outcome<T> = Outcome(
    err: Option<DispatchError>,
    record: ErrorRecord,
    sent: Option<HttpRequest>,
    response: Option<T>,
    steps: seq<Step>)

  // ---------------------------------------------------------------------------
  // The stages as functions

  /** The record executeRequest starts from (fast_client.go:84-93). */
  function InitialRecord<P, T>(req: InternalRawRequest<P, T>): (rec: ErrorRecord)
  {
    ErrorRecord(req.endpoint, MethodName(req.httpMethod), req.functionName, req.apiName,
                "empty request", "empty response", "empty meilisearch message",
                0, req.acceptedStatusCodes, None, None)
  }

  /** `query.Set(key, value)` for every descriptor parameter. */
  function Merged(query: map<string, seq<string>>, params: map<string, string>): (m: map<string, seq<string>>)
    ensures m.Keys == query.Keys + params.Keys
    ensures forall k :: k in params ==> m[k] == [params[k]]
    ensures forall k :: k in query && k !in params ==> m[k] == query[k]
  {
    map k | k in query.Keys + params.Keys :: if k in params then [params[k]] else query[k]
  }

  /** The request headers: the JSON content type always, the API key exactly
      when one is configured. */
  function Headers(config: Config): (h: map<string, string>)
    ensures "Content-Type" in h && h["Content-Type"] == "application/json"
    ensures "X-Meili-API-Key" in h <==> config.apiKey != ""
    ensures "X-Meili-API-Key" in h ==> h["X-Meili-API-Key"] == config.apiKey
    ensures h.Keys <= {"Content-Type", "X-Meili-API-Key"}
  {
    var h := map["Content-Type" := "application/json"];
    if config.apiKey != "" then h["X-Meili-API-Key" := config.apiKey] else h
  }

  /** `Error.ErrorBody` is not part of this model; it is taken to keep the raw
      body as diagnostic text and the server's message when one can be read. */
  function WithErrorBody(rec: ErrorRecord, body: bytes, message: Option<string>): (r: ErrorRecord)
  {
    rec.(responseToString := BytesToString(body),
         meilisearchMessage := if message.Some? then message.value else rec.meilisearchMessage)
  }

  function WithCode(rec: ErrorRecord, code: ErrCode, cause: Option<Cause>): (r: ErrorRecord)
  {
    rec.(errCode := Some(code), cause := cause)
  }

  /** Where sendRequest stops: the record so far, the transport's reply when the
      request was sent, the error otherwise, and the request handed over. */
  datatype Sent = Sent(record: ErrorRecord, reply: Option<(int, bytes)>, err: Option<DispatchError>, sent: Option<HttpRequest>, steps: seq<Step>)

  /** The URL after query merging: untouched without parameters, otherwise the
      merged query, re-encoded. */
  function WithQuery(u: Url, params: Option<map<string, string>>, encodeQuery: map<string, seq<string>> -> string): Url
  {
    if params.None? then u
    else
      var q := Merged(u.query, params.value);
      u.(query := q, rawQuery := encodeQuery(q))
  }

  /** sendRequest (fast_client.go:118-178). */
  function SendSpec<P, T>(config: Config, transport: HttpRequest -> TransportReply, env: Env<P, T>, req: InternalRawRequest<P, T>, rec: ErrorRecord): Sent
  {
    match env.parseUrl(config.host + req.endpoint)
    case Err(c) => Sent(rec, None, Some(UrlError(c)), None, [ParseUrl])
    case Ok(u0) =>
      var u := WithQuery(u0, req.withQueryParams, env.encodeQuery);
      if req.withRequest.Some? && env.marshal(req.withRequest.value).err.Some? then
        var m := env.marshal(req.withRequest.value);
        var rec1 := WithCode(rec.(requestToString := BytesToString(m.data)), ErrCodeMarshalRequest, m.err);
        Sent(rec1, None, Some(ApiError(rec1)), None, [ParseUrl, Marshal])
      else
        var rec1 := if req.withRequest.Some? then rec.(requestToString := BytesToString(env.marshal(req.withRequest.value).data)) else rec;
        var body := if req.withRequest.Some? then Some(env.marshal(req.withRequest.value).data) else None;
        var steps := if req.withRequest.Some? then [ParseUrl, Marshal, Send] else [ParseUrl, Send];
        var request := HttpRequest(u, MethodName(req.httpMethod), Headers(config), body);
        match transport(request)
        case TransportFailed(c) =>
          var rec2 := WithCode(rec1, ErrCodeRequestExecution, Some(c));
          Sent(rec2, None, Some(ApiError(rec2)), Some(request), steps)
        case Response(status, respBody) => Sent(rec1, Some((status, respBody)), None, Some(request), steps)
  }

  /** executeRequest (fast_client.go:83-116), with handleStatusCode
      (fast_client.go:180-200) and handleResponse (fast_client.go:202-213). */
  function Execute<P, T>(config: Config, transport: HttpRequest -> TransportReply, env: Env<P, T>, req: InternalRawRequest<P, T>): (o: Outcome<T>)
  {
    var s := SendSpec(config, transport, env, req, InitialRecord(req));
    if s.err.Some? || s.reply.None? then Outcome(s.err, s.record, s.sent, req.withResponse, s.steps)
    else
      var (status, body) := s.reply.value;
      var rec := s.record.(statusCode := status);
      if req.acceptedStatusCodes.Some? && status !in req.acceptedStatusCodes.value then
        var rec1 := WithCode(WithErrorBody(rec, body, env.serverMessage(body)), ErrCodeResponseStatusCode, None);
        Outcome(Some(ApiError(rec1)), rec1, s.sent, req.withResponse, s.steps)
      else if req.withResponse.None? then Outcome(None, rec, s.sent, None, s.steps)
      else
        var rec1 := rec.(responseToString := BytesToString(body));
        var d := env.unmarshal(req.withResponse.value, body);
        if d.err.Some? then
          var rec2 := WithCode(rec1, ErrCodeResponseUnmarshalBody, d.err);
          Outcome(Some(ApiError(rec2)), rec2, s.sent, Some(d.value), s.steps + [Unmarshal])
        else Outcome(None, rec1, s.sent, Some(d.value), s.steps + [Unmarshal])
  }

  // ---------------------------------------------------------------------------
  // What a dispatch promises

  /** The external calls of a dispatch that runs to the end: the URL is parsed,
      the body marshalled when there is one, the request sent, and the body
      decoded when there is a target. */
  function Pipeline<P, T>(req: InternalRawRequest<P, T>): (steps: seq<Step>)
    ensures |steps| >= 2 && steps[0] == ParseUrl && Send in steps
    ensures Marshal in steps <==> req.withRequest.Some?
    ensures Unmarshal in steps <==> req.withResponse.Some?
  {
    [ParseUrl] + (if req.withRequest.Some? then [Marshal] else []) + [Send]
      + (if req.withResponse.Some? then [Unmarshal] else [])
  }

  /** Every dispatch makes its external calls in pipeline order and stops at the
      first failure; one that succeeds makes all of them. */
  lemma StepsFollowPipeline<P, T>(config: Config, transport: HttpRequest -> TransportReply, env: Env<P, T>, req: InternalRawRequest<P, T>)
    ensures var o := Execute(config, transport, env, req);
      && 1 <= |o.steps| && o.steps <= Pipeline(req)
      && (o.err.None? ==> o.steps == Pipeline(req))
  {
  }

  /** A URL the parser rejects ends the call before anything is marshalled or
      sent, without an error record. */
  lemma UrlFailureSendsNothing<P, T>(config: Config, transport: HttpRequest -> TransportReply, env: Env<P, T>, req: InternalRawRequest<P, T>)
    requires env.parseUrl(config.host + req.endpoint).Err?
    ensures var o := Execute(config, transport, env, req);
      && o.err == Some(UrlError(env.parseUrl(config.host + req.endpoint).cause))
      && o.sent.None? && o.steps == [ParseUrl]
      && o.response == req.withResponse
  {
  }

  /** The request that goes out carries the parsed URL with the descriptor's
      query parameters merged in (each overriding a key of the same name, the
      other keys kept), the descriptor's method, the client's headers, and the
      marshalled body exactly when there is a request value. */
  lemma SentRequestShape<P, T>(config: Config, transport: HttpRequest -> TransportReply, env: Env<P, T>, req: InternalRawRequest<P, T>)
    ensures var o := Execute(config, transport, env, req);
      o.sent.Some? ==>
        && env.parseUrl(config.host + req.endpoint).Ok?
        && var u := env.parseUrl(config.host + req.endpoint).value;
        && o.sent.value.uri == WithQuery(u, req.withQueryParams, env.encodeQuery)
        && o.sent.value.httpMethod == MethodName(req.httpMethod)
        && o.sent.value.headers == Headers(config)
        && o.sent.value.body == (if req.withRequest.Some? then Some(env.marshal(req.withRequest.value).data) else None)
  {
  }

  /** Without query parameters the parsed URL goes out unchanged. */
  lemma NoQueryParamsKeepsUrl(u: Url, encodeQuery: map<string, seq<string>> -> string)
    ensures WithQuery(u, None, encodeQuery) == u
  {
  }

  /** A body that does not marshal is reported with the marshalled text as the
      request's diagnostic, and no request is sent. */
  lemma MarshalFailureSendsNothing<P, T>(config: Config, transport: HttpRequest -> TransportReply, env: Env<P, T>, req: InternalRawRequest<P, T>)
    requires env.parseUrl(config.host + req.endpoint).Ok?
    requires req.withRequest.Some? && env.marshal(req.withRequest.value).err.Some?
    ensures var o := Execute(config, transport, env, req);
      var m := env.marshal(req.withRequest.value);
      && o.err == Some(ApiError(o.record))
      && o.record.errCode == Some(ErrCodeMarshalRequest) && o.record.cause == m.err
      && o.record.requestToString == BytesToString(m.data)
      && o.record.responseToString == "empty response" && o.record.statusCode == 0
      && o.sent.None? && Send !in o.steps
  {
  }

  /** A transport failure is reported as a request-execution error; no status
      code was received, so the record keeps status 0 and nothing is decoded. */
  lemma TransportFailureReported<P, T>(config: Config, transport: HttpRequest -> TransportReply, env: Env<P, T>, req: InternalRawRequest<P, T>)
    requires var o := Execute(config, transport, env, req);
      o.sent.Some? && transport(o.sent.value).TransportFailed?
    ensures var o := Execute(config, transport, env, req);
      && o.err == Some(ApiError(o.record))
      && o.record.errCode == Some(ErrCodeRequestExecution)
      && o.record.cause == Some(transport(o.sent.value).cause)
      && o.record.statusCode == 0 && o.record.responseToString == "empty response"
      && Unmarshal !in o.steps && o.response == req.withResponse
  {
  }

  /** The status check: with no list of accepted codes every status passes;
      with a list, exactly the listed statuses pass, so an empty list rejects
      every response. A rejected response is never decoded, and the record
      keeps its status and body. */
  lemma StatusCodeChecked<P, T>(config: Config, transport: HttpRequest -> TransportReply, env: Env<P, T>, req: InternalRawRequest<P, T>)
    requires var o := Execute(config, transport, env, req);
      o.sent.Some? && transport(o.sent.value).Response?
    ensures var o := Execute(config, transport, env, req);
      var reply := transport(o.sent.value);
      var rejected := o.err.Some? && o.record.errCode == Some(ErrCodeResponseStatusCode);
      && o.record.statusCode == reply.statusCode
      && (rejected <==> req.acceptedStatusCodes.Some? && reply.statusCode !in req.acceptedStatusCodes.value)
      && (req.acceptedStatusCodes == Some([]) ==> rejected)
      && (rejected ==>
            && o.err == Some(ApiError(o.record)) && o.record.cause.None?
            && o.record.responseToString == BytesToString(reply.body)
            && Unmarshal !in o.steps && o.response == req.withResponse)
  {
  }

  /** An accepted response with no target succeeds without reading the body. */
  lemma NoTargetIgnoresBody<P, T>(config: Config, transport: HttpRequest -> TransportReply, env: Env<P, T>, req: InternalRawRequest<P, T>)
    requires req.withResponse.None?
    requires var o := Execute(config, transport, env, req);
      && o.sent.Some? && transport(o.sent.value).Response?
      && (req.acceptedStatusCodes.Some? ==> transport(o.sent.value).statusCode in req.acceptedStatusCodes.value)
    ensures var o := Execute(config, transport, env, req);
      && o.err.None? && o.response.None? && Unmarshal !in o.steps
      && o.record.responseToString == "empty response"
  {
  }

  /** An accepted response is decoded into the target; a body that does not
      decode is reported with the raw body as diagnostic text. */
  lemma ResponseDecoded<P, T>(config: Config, transport: HttpRequest -> TransportReply, env: Env<P, T>, req: InternalRawRequest<P, T>)
    requires req.withResponse.Some?
    requires var o := Execute(config, transport, env, req);
      && o.sent.Some? && transport(o.sent.value).Response?
      && (req.acceptedStatusCodes.Some? ==> transport(o.sent.value).statusCode in req.acceptedStatusCodes.value)
    ensures var o := Execute(config, transport, env, req);
      var body := transport(o.sent.value).body;
      var d := env.unmarshal(req.withResponse.value, body);
      && o.response == Some(d.value)
      && o.record.responseToString == BytesToString(body)
      && (o.err.None? <==> d.err.None?)
      && (d.err.Some? ==> o.err == Some(ApiError(o.record))
                          && o.record.errCode == Some(ErrCodeResponseUnmarshalBody) && o.record.cause == d.err)
  {
  }

  /** A dispatch succeeds exactly when every stage does. */
  lemma SuccessCharacterised<P, T>(config: Config, transport: HttpRequest -> TransportReply, env: Env<P, T>, req: InternalRawRequest<P, T>)
    ensures var o := Execute(config, transport, env, req);
      o.err.None? <==>
        && env.parseUrl(config.host + req.endpoint).Ok?
        && (req.withRequest.Some? ==> env.marshal(req.withRequest.value).err.None?)
        && o.sent.Some? && transport(o.sent.value).Response?
        && (req.acceptedStatusCodes.Some? ==> transport(o.sent.value).statusCode in req.acceptedStatusCodes.value)
        && (req.withResponse.Some? ==> env.unmarshal(req.withResponse.value, transport(o.sent.value).body).err.None?)
  {
  }

  /** Every error but a URL error carries the record, with an error code; the
      record names the call, and keeps its placeholder texts where no body was
      sent and no rejection was explained by the server. */
  lemma ErrorsCarryRecord<P, T>(config: Config, transport: HttpRequest -> TransportReply, env: Env<P, T>, req: InternalRawRequest<P, T>)
    ensures var o := Execute(config, transport, env, req);
      && (o.err.Some? && o.err.value.ApiError? ==> o.err.value.record == o.record && o.record.errCode.Some?)
      && (o.err.None? ==> o.record.errCode.None?)
      && o.record.endpoint == req.endpoint && o.record.functionName == req.functionName
      && o.record.apiName == req.apiName && o.record.statusCodeExpected == req.acceptedStatusCodes
      && o.record.httpMethod == MethodName(req.httpMethod)
      && (req.withRequest.None? ==> o.record.requestToString == "empty request")
      && (o.record.errCode != Some(ErrCodeResponseStatusCode) ==> o.record.meilisearchMessage == "empty meilisearch message")
  {
  }

  // ---------------------------------------------------------------------------
  // The reply as written: read after it was released

  /** sendRequest defers `fasthttp.ReleaseResponse(response)` and still returns
      the response (fast_client.go:141-177), so executeRequest reads the status
      and the body (fast_client.go:100-110, 186, 192, 206) of a response that
      has already been reset and handed back to the pool. A reset fasthttp
      response reads as status 200 with an empty body; a failed exchange is
      reported before any read and stays as it was. */
  function Released(reply: TransportReply): (r: TransportReply)
    ensures r.TransportFailed? <==> reply.TransportFailed?
    ensures r.TransportFailed? ==> r == reply
    ensures r.Response? ==> r.statusCode == StatusOK && r.body == []
  {
    if reply.Response? then Response(StatusOK, []) else reply
  }

  /** executeRequest as written: the same request goes out, but the status
      check and the decoder see the released reply. */
  function ExecuteAsWritten<P, T>(config: Config, transport: HttpRequest -> TransportReply, env: Env<P, T>, req: InternalRawRequest<P, T>): Outcome<T>
  {
    Execute(config, (h: HttpRequest) => Released(transport(h)), env, req)
  }

  /** As written, what the server answers does not matter beyond whether the
      exchange failed: a rejected status, an error body and a good body all
      read alike, and the recorded status is always 200. */
  lemma AsWrittenIgnoresReply<P, T>(config: Config, t1: HttpRequest -> TransportReply, t2: HttpRequest -> TransportReply, env: Env<P, T>, req: InternalRawRequest<P, T>)
    requires forall h :: t1(h).TransportFailed? <==> t2(h).TransportFailed?
    requires forall h :: t1(h).TransportFailed? ==> t1(h) == t2(h)
    ensures ExecuteAsWritten(config, t1, env, req) == ExecuteAsWritten(config, t2, env, req)
    ensures var o := ExecuteAsWritten(config, t1, env, req);
      o.sent == Execute(config, t1, env, req).sent
      && (o.sent.Some? && t1(o.sent.value).Response? ==> o.record.statusCode == StatusOK)
  {
  }

  // ---------------------------------------------------------------------------
  // What a resource method returns

  /** A resource method's `(resp, err)`: the error with a nil result, or the
      target it allocated, as the dispatch left it. */
  datatype CallResult<T> = CallFailed(error: DispatchError) | CallOk(value: T)

  function Call<P, T>(config: Config, transport: HttpRequest -> TransportReply, env: Env<P, T>, req: InternalRawRequest<P, T>): (r: CallResult<T>)
    requires req.withResponse.Some?
  {
    var o := Execute(config, transport, env, req);
    if o.err.Some? then CallFailed(o.err.value) else CallOk(o.response.value)
  }

  /** A resource method answers with a value exactly when the server replied
      with one of the accepted codes and the reply decoded into the target;
      the value is what the decoder made of the target's initial content. */
  lemma CallAnswers<P, T>(config: Config, transport: HttpRequest -> TransportReply, env: Env<P, T>, req: InternalRawRequest<P, T>)
    requires req.withResponse.Some?
    ensures var o := Execute(config, transport, env, req);
      var r := Call(config, transport, env, req);
      && (r.CallFailed? <==> o.err.Some?)
      && (r.CallFailed? ==> o.err == Some(r.error))
      && (r.CallOk? ==>
            && o.sent.Some? && transport(o.sent.value).Response?
            && var reply := transport(o.sent.value);
            && (req.acceptedStatusCodes.Some? ==> reply.statusCode in req.acceptedStatusCodes.value)
            && env.unmarshal(req.withResponse.value, reply.body) == Decoded(r.value, None))
  {
  }

  /** A resource method without a response target: `(true, nil)` exactly when
      the dispatch succeeds, `(false, err)` otherwise. */
  function Confirmed<P, T>(config: Config, transport: HttpRequest -> TransportReply, env: Env<P, T>, req: InternalRawRequest<P, T>): (r: (bool, Option<DispatchError>))
    requires req.withResponse.None?
    ensures r.0 <==> r.1.None?
    ensures r.1 == Execute(config, transport, env, req).err
    ensures r.0 ==> var o := Execute(config, transport, env, req);
      && o.sent.Some? && transport(o.sent.value).Response?
      && (req.acceptedStatusCodes.Some? ==> transport(o.sent.value).statusCode in req.acceptedStatusCodes.value)
      && Unmarshal !in o.steps
  {
    var o := Execute(config, transport, env, req);
    (o.err.None?, o.err)
  }

  /** The fixed part of a resource method's descriptor: its method, endpoint,
      whether it sends a body, its one accepted status code, and no query
      parameters. */
  predicate Shape<P, T>(req: InternalRawRequest<P, T>, m: Method, endpoint: string, hasBody: bool, accepted: int)
  {
    && req.httpMethod == m && req.endpoint == endpoint
    && req.withRequest.Some? == hasBody
    && req.withQueryParams.None?
    && req.acceptedStatusCodes == Some([accepted])
  }

  // ---------------------------------------------------------------------------
  // The imperative dispatcher

  /** The transport: answers each request by `respond` and keeps the list of
      requests it was handed. */
  class Transport {
    const respond: HttpRequest -> TransportReply
    var sent: seq<HttpRequest>

    constructor (respond: HttpRequest -> TransportReply)
      ensures this.respond == respond && sent == []
    {
      this.respond := respond;
      sent := [];
    }

    method Do(request: HttpRequest) returns (reply: TransportReply)
      modifies this
      ensures sent == old(sent) + [request]
      ensures reply == respond(request)
    {
      sent := sent + [request];
      reply := respond(request);
    }
  }

  /** The diagnostic error record, filled in as the call proceeds. */
  class Error {
    var endpoint: string
    var httpMethod: string
    var functionName: string
    var apiName: string
    var requestToString: string
    var responseToString: string
    var meilisearchMessage: string
    var statusCode: int
    var statusCodeExpected: Option<seq<int>>
    var errCode: Option<ErrCode>
    var cause: Option<Cause>

    function Record(): ErrorRecord
      reads this
    {
      ErrorRecord(endpoint, httpMethod, functionName, apiName, requestToString, responseToString,
                  meilisearchMessage, statusCode, statusCodeExpected, errCode, cause)
    }

    constructor (rec: ErrorRecord)
      ensures Record() == rec
    {
      endpoint, httpMethod, functionName, apiName := rec.endpoint, rec.httpMethod, rec.functionName, rec.apiName;
      requestToString, responseToString, meilisearchMessage := rec.requestToString, rec.responseToString, rec.meilisearchMessage;
      statusCode, statusCodeExpected, errCode, cause := rec.statusCode, rec.statusCodeExpected, rec.errCode, rec.cause;
    }

    method WithErrCode(code: ErrCode, c: Option<Cause>) returns (e: DispatchError)
      modifies this
      ensures Record() == WithCode(old(Record()), code, c)
      ensures e == ApiError(Record())
    {
      errCode, cause := Some(code), c;
      e := ApiError(Record());
    }

    method ErrorBody(body: bytes, message: Option<string>)
      modifies this
      ensures Record() == WithErrorBody(old(Record()), body, message)
    {
      responseToString := BytesToString(body);
      if message.Some? {
        meilisearchMessage := message.value;
      }
    }
  }

  /** `query.Set` for every parameter, one key at a time. */
  method MergeQuery(query: map<string, seq<string>>, params: map<string, string>) returns (merged: map<string, seq<string>>)
    ensures merged.Keys == query.Keys + params.Keys
    ensures forall k :: k in params ==> merged[k] == [params[k]]
    ensures forall k :: k in query && k !in params ==> merged[k] == query[k]
  {
    merged := query;
    var keys := params.Keys;
    while keys != {}
      invariant keys <= params.Keys
      invariant merged.Keys == query.Keys + (params.Keys - keys)
      invariant forall k :: k in params && k !in keys ==> merged[k] == [params[k]]
      invariant forall k :: k in query && (k !in params || k in keys) ==> merged[k] == query[k]
      decreases keys
    {
      var key :| key in keys;
      merged := merged[key := [params[key]]];
      keys := keys - {key};
    }
  }

  /** The membership loop of handleStatusCode. */
  method IsAccepted(acceptedStatusCodes: seq<int>, status: int) returns (accepted: bool)
    ensures accepted <==> status in acceptedStatusCodes
  {
    for i := 0 to |acceptedStatusCodes|
      invariant status !in acceptedStatusCodes[..i]
    {
      if status == acceptedStatusCodes[i] {
        return true;
      }
    }
    return false;
  }

  class FastHttpClient {
    const config: Config
    const httpClient: Transport

    constructor (config: Config, httpClient: Transport)
      ensures this.config == config && this.httpClient == httpClient
    {
      this.config := config;
      this.httpClient := httpClient;
    }

    method SendRequest<P, T>(req: InternalRawRequest<P, T>, internalError: Error, env: Env<P, T>)
      returns (reply: Option<(int, bytes)>, err: Option<DispatchError>)
      modifies internalError, httpClient
      ensures var s := SendSpec(config, httpClient.respond, env, req, old(internalError.Record()));
        && internalError.Record() == s.record && reply == s.reply && err == s.err
        && httpClient.sent == old(httpClient.sent) + (if s.sent.Some? then [s.sent.value] else [])
    {
      var parsed := env.parseUrl(config.host + req.endpoint);
      if parsed.Err? {
        return None, Some(UrlError(parsed.cause));
      }
      var requestURL := parsed.value;
      if req.withQueryParams.Some? {
        var query := MergeQuery(requestURL.query, req.withQueryParams.value);
        assert query == Merged(requestURL.query, req.withQueryParams.value);
        requestURL := requestURL.(query := query, rawQuery := env.encodeQuery(query));
      }
      var body: Option<bytes> := None;
      if req.withRequest.Some? {
        var m := env.marshal(req.withRequest.value);
        internalError.requestToString := BytesToString(m.data);
        if m.err.Some? {
          var e := internalError.WithErrCode(ErrCodeMarshalRequest, m.err);
          return None, Some(e);
        }
        body := Some(m.data);
      }
      var request := HttpRequest(requestURL, MethodName(req.httpMethod), Headers(config), body);
      var r := httpClient.Do(request);
      if r.TransportFailed? {
        var e := internalError.WithErrCode(ErrCodeRequestExecution, Some(r.cause));
        return None, Some(e);
      }
      return Some((r.statusCode, r.body)), None;
    }

    method HandleStatusCode<P, T>(req: InternalRawRequest<P, T>, status: int, body: bytes, internalError: Error, env: Env<P, T>)
      returns (err: Option<DispatchError>)
      modifies internalError
      ensures var rejected := req.acceptedStatusCodes.Some? && status !in req.acceptedStatusCodes.value;
        && (err.Some? <==> rejected)
        && internalError.Record() == (if rejected then WithCode(WithErrorBody(old(internalError.Record()), body, env.serverMessage(body)), ErrCodeResponseStatusCode, None) else old(internalError.Record()))
        && (err.Some? ==> err == Some(ApiError(internalError.Record())))
    {
      if req.acceptedStatusCodes.Some? {
        var ok := IsAccepted(req.acceptedStatusCodes.value, status);
        if ok {
          return None;
        }
        internalError.ErrorBody(body, env.serverMessage(body));
        var e := internalError.WithErrCode(ErrCodeResponseStatusCode, None);
        return Some(e);
      }
      return None;
    }

    method HandleResponse<P, T>(req: InternalRawRequest<P, T>, body: bytes, internalError: Error, env: Env<P, T>)
      returns (err: Option<DispatchError>, response: Option<T>)
      modifies internalError
      ensures req.withResponse.None? ==>
        err == None && response == None && internalError.Record() == old(internalError.Record())
      ensures req.withResponse.Some? ==>
        var d := env.unmarshal(req.withResponse.value, body);
        var rec := old(internalError.Record()).(responseToString := BytesToString(body));
        && response == Some(d.value)
        && internalError.Record() == (if d.err.Some? then WithCode(rec, ErrCodeResponseUnmarshalBody, d.err) else rec)
        && err == (if d.err.Some? then Some(ApiError(internalError.Record())) else None)
    {
      if req.withResponse.None? {
        return None, None;
      }
      internalError.responseToString := BytesToString(body);
      var d := env.unmarshal(req.withResponse.value, body);
      response := Some(d.value);
      if d.err.Some? {
        var e := internalError.WithErrCode(ErrCodeResponseUnmarshalBody, d.err);
        return Some(e), response;
      }
      return None, response;
    }

    /** executeRequest: the dispatcher the resource facades call. */
    method ExecuteRequest<P, T>(req: InternalRawRequest<P, T>, env: Env<P, T>)
      returns (err: Option<DispatchError>, response: Option<T>)
      modifies httpClient
      ensures var o := Execute(config, httpClient.respond, env, req);
        && err == o.err && response == o.response
        && httpClient.sent == old(httpClient.sent) + (if o.sent.Some? then [o.sent.value] else [])
    {
      var internalError := new Error(InitialRecord(req));
      var reply;
      reply, err := SendRequest(req, internalError, env);
      response := req.withResponse;
      if err.Some? {
        return;
      }
      var (status, body) := reply.value;
      internalError.statusCode := status;
      err := HandleStatusCode(req, status, body, internalError, env);
      if err.Some? {
        return;
      }
      err, response := HandleResponse(req, body, internalError, env);
    }
  }
}
