/** The specification of one request attempt, `doHttpMethod`
    (AbstractHttpClient.java:180-215): open, prepare, log, write, read, and
    on any failure read the error stream and throw the first cause; finally
    log the response and disconnect. What the network does is a script of
    step outcomes; what the attempt does is a trace of events. The method
    that implements it is AbstractHttpClient.DoHttpMethod. */
module Lifecycle {
  import opened JavaLang
  import opened HttpMethods
  import opened HeaderTable
  import opened Failures
  import opened JavaNet
  import opened AbstractRequestHandler
  import opened Requests

  /** The outcome of a step that yields a value or throws. */
  datatype Step<T> = Ok(value: T) | Fail(exc: Exc)

  /** How the connection and the network behave during one attempt:
      - `open`: whether `requestHandler.openConnection` throws;
      - `prepare`: whether the handler's `prepareConnection` throws (a
        `ProtocolException` from `setRequestMethod`, say);
      - `write`: whether `writeOutputStream` throws;
      - `input`, `error`: `getInputStream` / `getErrorStream` throw, return
        null (`Ok(None)`), or return a stream holding these bytes;
      - `status`: the response code the connection reports. */
  datatype ConnectionScript = ConnectionScript(
    open: Option<Exc>,
    prepare: Option<Exc>,
    write: Option<Exc>,
    input: Step<Option<Bytes>>,
    error: Step<Option<Bytes>>,
    status: int)

  /** What an attempt is seen to do: open a connection, call the request
      logger, write the body, disconnect; and, in `execute`, call the
      handler's `onError`. */
  datatype Event =
    | Open(url: string)
    | LogRequest(connection: ConnectionState, content: Option<Bytes>)
    | Write(bytes: Bytes)
    | LogResponse(response: Option<HttpResponse>)
    | Disconnect
    | OnError(error: HttpRequestException)

  predicate IsOpen(e: Event) { e.Open? }
  predicate IsLogRequest(e: Event) { e.LogRequest? }
  predicate IsWrite(e: Event) { e.Write? }
  predicate IsLogResponse(e: Event) { e.LogResponse? }
  predicate IsDisconnect(e: Event) { e.Disconnect? }
  predicate IsOnError(e: Event) { e.OnError? }

  /** How many events of a trace satisfy `p`. */
  function Count(trace: seq<Event>, p: Event -> bool): (c: nat)
    ensures c <= |trace|
  {
    if trace == [] then 0 else (if p(trace[0]) then 1 else 0) + Count(trace[1..], p)
  }

  lemma {:induction false} CountConcat(a: seq<Event>, b: seq<Event>, p: Event -> bool)
    ensures Count(a + b, p) == Count(a, p) + Count(b, p)
  {
    if a == [] {
      assert a + b == b;
    } else {
      assert (a + b)[1..] == a[1..] + b;
      CountConcat(a[1..], b, p);
    }
  }

  /** The client settings an attempt reads. */
  datatype ClientConfig = ClientConfig(
    baseUrl: string,
    connectionTimeout: Int32,
    readTimeout: Int32,
    requestHeaders: seq<Header>,
    loggingEnabled: bool)

  /** The outcome of an attempt and the events it produced. */
  datatype Run = Run(result: AttemptResult, trace: seq<Event>)

  /** `baseUrl + path`, with a null path rendered as "null". */
  function RequestUrl(baseUrl: string, path: Option<string>): (url: string)
    ensures |url| == |baseUrl| + |Render(path)|
    ensures url[..|baseUrl|] == baseUrl && url[|baseUrl|..] == Render(path)
  {
    baseUrl + Render(path)
  }

  /** The connection as `logRequest` sees it: timeouts set, then the
      handler's settings, then the client's headers in key order. */
  function PreparedState(cfg: ClientConfig, url: string, httpMethod: HttpMethod, contentType: Option<string>): ConnectionState
  {
    ConnectionState(url, MethodName(httpMethod), DoOutput(httpMethod), cfg.connectionTimeout, cfg.readTimeout,
                    PrepareProperties(contentType) + cfg.requestHeaders)
  }

  /** `prepareConnection(uc, httpMethod, contentType)` fails when
      `setConnectTimeout` or `setReadTimeout` refuses a negative timeout, and
      otherwise when the handler's part throws. */
  function PrepareFailure(cfg: ClientConfig, s: ConnectionScript): Option<Exc>
  {
    if cfg.connectionTimeout < 0 || cfg.readTimeout < 0 then Some(NegativeTimeout()) else s.prepare
  }

  /** What the `try` block leaves behind: whether `uc` was assigned, the
      events so far, the exception that ended it early (if any), and the
      response it read (if it ran to the end). */
  datatype TryState = TryState(connected: bool, events: seq<Event>, failure: Option<Exc>, response: Option<HttpResponse>)

  function TryBlock(cfg: ClientConfig, url: string, httpMethod: HttpMethod, contentType: Option<string>,
                    content: Option<Bytes>, validUrl: string -> bool, s: ConnectionScript): (t: TryState)
    ensures t.failure.None? <==> t.response.Some?
  {
    if !validUrl(url) then TryState(false, [], Some(InvalidUrl(url)), None)
    else if s.open.Some? then TryState(false, [], s.open, None)
    else if PrepareFailure(cfg, s).Some? then TryState(true, [Open(url)], PrepareFailure(cfg, s), None)
    else AfterPrepare(cfg, url, httpMethod, contentType, content, s)
  }

  /** The rest of the `try` block once the connection is prepared: log the
      request, write the content when the connection does output and there
      is content, then read the response. */
  function AfterPrepare(cfg: ClientConfig, url: string, httpMethod: HttpMethod, contentType: Option<string>,
                        content: Option<Bytes>, s: ConnectionScript): TryState
  {
    var conn := PreparedState(cfg, url, httpMethod, contentType);
    var logged := [Open(url)] + (if cfg.loggingEnabled then [LogRequest(conn, content)] else []);
    var writes := conn.doOutput && content.Some?;
    if writes && s.write.Some? then TryState(true, logged, s.write, None)
    else
      var written := logged + (if writes then [Write(content.value)] else []);
      match s.input
      case Fail(e) => TryState(true, written, Some(e), None)
      case Ok(body) => TryState(true, written, None, Some(HttpResponse(url, s.status, body)))
  }

  /** `readErrorStream(uc)` in the `catch` block: with no connection it
      throws (a null `uc`), and any exception it throws is swallowed, leaving
      the response null. */
  function ErrorStreamResponse(connected: bool, url: string, s: ConnectionScript): (r: Option<HttpResponse>)
    ensures r.Some? ==> connected && s.error.Ok? && r.value.url == url && r.value.status == s.status
  {
    if connected && s.error.Ok? then Some(HttpResponse(url, s.status, s.error.value)) else None
  }

  /** The `finally` block: log the final response, then disconnect a connected
      connection. */
  function Finally(cfg: ClientConfig, response: Option<HttpResponse>, connected: bool): seq<Event>
  {
    (if cfg.loggingEnabled then [LogResponse(response)] else []) + (if connected then [Disconnect] else [])
  }

  /** One `doHttpMethod(path, httpMethod, contentType, content)` attempt. */
  function Attempt(cfg: ClientConfig, path: Option<string>, httpMethod: HttpMethod, contentType: Option<string>,
                   content: Option<Bytes>, validUrl: string -> bool, s: ConnectionScript): Run
  {
    var url := RequestUrl(cfg.baseUrl, path);
    var t := TryBlock(cfg, url, httpMethod, contentType, content, validUrl, s);
    if t.failure.Some? then
      var response := ErrorStreamResponse(t.connected, url, s);
      Run(Threw(HttpRequestException(t.failure.value, response)), t.events + Finally(cfg, response, t.connected))
    else
      Run(Returned(t.response.value), t.events + Finally(cfg, t.response, t.connected))
  }

  /** `execute(httpRequest)`: one attempt with the descriptor's fields; a
      thrown HttpRequestException is handed to `onError` and null is
      returned in place of a response. */
  function Execution(cfg: ClientConfig, request: HttpRequest, validUrl: string -> bool, s: ConnectionScript)
    : (Option<HttpResponse>, seq<Event>)
  {
    var run := Attempt(cfg, request.path, request.httpMethod, request.contentType, request.content, validUrl, s);
    match run.result
    case Returned(r) => (Some(r), run.trace)
    case Threw(e) => (None, run.trace + [OnError(e)])
  }

  /** `execute` never propagates the exception: it returns the response of a
      successful attempt; after a failed one it calls `onError` exactly once,
      as its last action, with the exception the attempt threw, and returns
      null. */
  lemma ExecuteNeverThrows(cfg: ClientConfig, request: HttpRequest, validUrl: string -> bool, s: ConnectionScript)
    ensures var run := Attempt(cfg, request.path, request.httpMethod, request.contentType, request.content, validUrl, s);
            var (response, trace) := Execution(cfg, request, validUrl, s);
            (response.Some? <==> run.result.Returned?) &&
            (response.Some? ==> response.value == run.result.response) &&
            Count(trace, IsOnError) == (if response.None? then 1 else 0) &&
            (response.None? ==> trace[|trace| - 1] == OnError(run.result.error))
  {
    var url := RequestUrl(cfg.baseUrl, request.path);
    var run := Attempt(cfg, request.path, request.httpMethod, request.contentType, request.content, validUrl, s);
    var t := TryBlock(cfg, url, request.httpMethod, request.contentType, request.content, validUrl, s);
    var response := if t.failure.Some? then ErrorStreamResponse(t.connected, url, s) else t.response;
    TryBlockShape(cfg, url, request.httpMethod, request.contentType, request.content, validUrl, s);
    FinallyCounts(cfg, response, t.connected);
    CountConcat(t.events, Finally(cfg, response, t.connected), IsOnError);
    if run.result.Threw? {
      CountConcat(run.trace, [OnError(run.result.error)], IsOnError);
    }
  }

  /** The first `Some` of a list of phase outcomes. */
  function First(phases: seq<Option<Exc>>): Option<Exc>
  {
    if phases == [] then None else if phases[0].Some? then phases[0] else First(phases[1..])
  }

  /** Reference definition of the failure an attempt reports: the phases in
      program order (URL check, open, prepare with its two timeouts first,
      write when the method writes and there is content, read), and the first
      of them that throws. */
  function FirstFailure(url: string, connectionTimeout: int, readTimeout: int, httpMethod: HttpMethod, content: Option<Bytes>,
                        validUrl: string -> bool, s: ConnectionScript): Option<Exc>
  {
    First([if validUrl(url) then None else Some(InvalidUrl(url)),
           s.open,
           if connectionTimeout < 0 || readTimeout < 0 then Some(NegativeTimeout()) else s.prepare,
           if DoOutput(httpMethod) && content.Some? then s.write else None,
           if s.input.Fail? then Some(s.input.exc) else None])
  }

  /** The first cause is what is reported: an attempt throws exactly when
      some phase fails, its cause is the first failure in program order, and
      the error-stream read can neither mask it nor turn a failure into a
      success. When the error-stream read fails, the attached response is
      null. */
  lemma FirstCauseIsReported(cfg: ClientConfig, path: Option<string>, httpMethod: HttpMethod, contentType: Option<string>,
                             content: Option<Bytes>, validUrl: string -> bool, s: ConnectionScript, other: Step<Option<Bytes>>)
    ensures var r := Attempt(cfg, path, httpMethod, contentType, content, validUrl, s).result;
            var f := FirstFailure(RequestUrl(cfg.baseUrl, path), cfg.connectionTimeout, cfg.readTimeout, httpMethod, content, validUrl, s);
            (r.Threw? <==> f.Some?) && (r.Threw? ==> r.error.cause == f.value)
    ensures var r := Attempt(cfg, path, httpMethod, contentType, content, validUrl, s).result;
            var r' := Attempt(cfg, path, httpMethod, contentType, content, validUrl, s.(error := other)).result;
            r.Threw? == r'.Threw? && (r.Threw? ==> r.error.cause == r'.error.cause) && (r.Returned? ==> r == r')
    ensures var r := Attempt(cfg, path, httpMethod, contentType, content, validUrl, s).result;
            r.Threw? && s.error.Fail? ==> r.error.httpResponse.None?
  {
    AttemptFailsWithFirst(cfg, path, httpMethod, contentType, content, validUrl, s);
    AttemptIgnoresErrorStream(cfg, path, httpMethod, contentType, content, validUrl, s, other);
  }

  lemma AttemptFailsWithFirst(cfg: ClientConfig, path: Option<string>, httpMethod: HttpMethod, contentType: Option<string>,
                              content: Option<Bytes>, validUrl: string -> bool, s: ConnectionScript)
    ensures var r := Attempt(cfg, path, httpMethod, contentType, content, validUrl, s).result;
            var f := FirstFailure(RequestUrl(cfg.baseUrl, path), cfg.connectionTimeout, cfg.readTimeout, httpMethod, content, validUrl, s);
            (r.Threw? <==> f.Some?) && (r.Threw? ==> r.error.cause == f.value)
  {
    var url := RequestUrl(cfg.baseUrl, path);
    TryBlockFailure(cfg, url, httpMethod, contentType, content, validUrl, s);
    FirstOfFive(if validUrl(url) then None else Some(InvalidUrl(url)), s.open, PrepareFailure(cfg, s),
                if DoOutput(httpMethod) && content.Some? then s.write else None,
                if s.input.Fail? then Some(s.input.exc) else None);
  }

  lemma AttemptIgnoresErrorStream(cfg: ClientConfig, path: Option<string>, httpMethod: HttpMethod, contentType: Option<string>,
                                  content: Option<Bytes>, validUrl: string -> bool, s: ConnectionScript, other: Step<Option<Bytes>>)
    ensures var r := Attempt(cfg, path, httpMethod, contentType, content, validUrl, s).result;
            var r' := Attempt(cfg, path, httpMethod, contentType, content, validUrl, s.(error := other)).result;
            r.Threw? == r'.Threw? && (r.Threw? ==> r.error.cause == r'.error.cause) && (r.Returned? ==> r == r')
    ensures var r := Attempt(cfg, path, httpMethod, contentType, content, validUrl, s).result;
            r.Threw? && s.error.Fail? ==> r.error.httpResponse.None?
  {
    var url := RequestUrl(cfg.baseUrl, path);
    TryBlockIgnoresErrorStream(cfg, url, httpMethod, contentType, content, validUrl, s, other);
  }

  /** The `try` block never looks at the error stream. */
  lemma TryBlockIgnoresErrorStream(cfg: ClientConfig, url: string, httpMethod: HttpMethod, contentType: Option<string>,
                                   content: Option<Bytes>, validUrl: string -> bool, s: ConnectionScript, other: Step<Option<Bytes>>)
    ensures TryBlock(cfg, url, httpMethod, contentType, content, validUrl, s.(error := other)) ==
            TryBlock(cfg, url, httpMethod, contentType, content, validUrl, s)
  {
  }

  /** The failure the `try` block ends with is the first failing phase. */
  lemma TryBlockFailure(cfg: ClientConfig, url: string, httpMethod: HttpMethod, contentType: Option<string>,
                        content: Option<Bytes>, validUrl: string -> bool, s: ConnectionScript)
    ensures TryBlock(cfg, url, httpMethod, contentType, content, validUrl, s).failure ==
            if !validUrl(url) then Some(InvalidUrl(url)) else if s.open.Some? then s.open
            else if cfg.connectionTimeout < 0 || cfg.readTimeout < 0 then Some(NegativeTimeout())
            else if s.prepare.Some? then s.prepare
            else if DoOutput(httpMethod) && content.Some? && s.write.Some? then s.write
            else if s.input.Fail? then Some(s.input.exc) else None
  {
  }

  lemma FirstOfFive(a: Option<Exc>, b: Option<Exc>, c: Option<Exc>, d: Option<Exc>, e: Option<Exc>)
    ensures First([a, b, c, d, e]) == if a.Some? then a else if b.Some? then b else if c.Some? then c else if d.Some? then d else e
  {
    var l := [a, b, c, d, e];
    assert l[1..] == [b, c, d, e];
    assert First(l) == if a.Some? then a else First([b, c, d, e]);
    assert [b, c, d, e][1..] == [c, d, e];
    assert First([b, c, d, e]) == if b.Some? then b else First([c, d, e]);
    assert [c, d, e][1..] == [d, e];
    assert First([c, d, e]) == if c.Some? then c else First([d, e]);
    assert [d, e][1..] == [e];
    assert First([d, e]) == if d.Some? then d else First([e]);
    assert [e][1..] == [];
    assert First([e]) == if e.Some? then e else First([]);
  }

  /** An attempt opens a connection exactly when the URL is valid and the
      handler's `openConnection` succeeds; it then disconnects it exactly
      once, as its last event, on success and on failure alike; otherwise it
      never disconnects. */
  lemma DisconnectOnceIffOpened(cfg: ClientConfig, path: Option<string>, httpMethod: HttpMethod, contentType: Option<string>,
                                content: Option<Bytes>, validUrl: string -> bool, s: ConnectionScript)
    ensures var run := Attempt(cfg, path, httpMethod, contentType, content, validUrl, s);
            var connected := validUrl(RequestUrl(cfg.baseUrl, path)) && s.open.None?;
            Count(run.trace, IsOpen) == (if connected then 1 else 0) &&
            Count(run.trace, IsDisconnect) == (if connected then 1 else 0) &&
            (connected ==> run.trace[|run.trace| - 1] == Disconnect)
  {
    var url := RequestUrl(cfg.baseUrl, path);
    var run := Attempt(cfg, path, httpMethod, contentType, content, validUrl, s);
    var t := TryBlock(cfg, url, httpMethod, contentType, content, validUrl, s);
    var response := if t.failure.Some? then ErrorStreamResponse(t.connected, url, s) else t.response;
    TryBlockShape(cfg, url, httpMethod, contentType, content, validUrl, s);
    FinallyCounts(cfg, response, t.connected);
    CountConcat(t.events, Finally(cfg, response, t.connected), IsOpen);
    CountConcat(t.events, Finally(cfg, response, t.connected), IsDisconnect);
  }

  /** With logging enabled, `logResponse` happens exactly once, with the
      final response: the one returned, or the one attached to the thrown
      exception (null when none was read). `logRequest` happens at most once,
      and only after the connection was prepared. With logging disabled the
      logger is never called. */
  lemma LoggingOnEveryPath(cfg: ClientConfig, path: Option<string>, httpMethod: HttpMethod, contentType: Option<string>,
                           content: Option<Bytes>, validUrl: string -> bool, s: ConnectionScript)
    ensures var run := Attempt(cfg, path, httpMethod, contentType, content, validUrl, s);
            var final := if run.result.Returned? then Some(run.result.response) else run.result.error.httpResponse;
            Count(run.trace, IsLogResponse) == (if cfg.loggingEnabled then 1 else 0) &&
            Count(run.trace, IsLogRequest) <= (if cfg.loggingEnabled then 1 else 0) &&
            (cfg.loggingEnabled ==> LogResponse(final) in run.trace)
  {
    var url := RequestUrl(cfg.baseUrl, path);
    var t := TryBlock(cfg, url, httpMethod, contentType, content, validUrl, s);
    var response := if t.failure.Some? then ErrorStreamResponse(t.connected, url, s) else t.response;
    TryBlockShape(cfg, url, httpMethod, contentType, content, validUrl, s);
    FinallyCounts(cfg, response, t.connected);
    CountConcat(t.events, Finally(cfg, response, t.connected), IsLogResponse);
    CountConcat(t.events, Finally(cfg, response, t.connected), IsLogRequest);
    if cfg.loggingEnabled {
      assert Finally(cfg, response, t.connected)[0] == LogResponse(response);
      assert (t.events + Finally(cfg, response, t.connected))[|t.events|] == LogResponse(response);
    }
  }

  /** The write phase runs exactly when the connection was prepared, the
      method writes (`doOutput`) and there is content, and the write itself
      does not throw. */
  lemma WritePhaseGated(cfg: ClientConfig, path: Option<string>, httpMethod: HttpMethod, contentType: Option<string>,
                        content: Option<Bytes>, validUrl: string -> bool, s: ConnectionScript)
    ensures var run := Attempt(cfg, path, httpMethod, contentType, content, validUrl, s);
            var reached := validUrl(RequestUrl(cfg.baseUrl, path)) && s.open.None? &&
                           cfg.connectionTimeout >= 0 && cfg.readTimeout >= 0 && s.prepare.None?;
            Count(run.trace, IsWrite) == (if reached && DoOutput(httpMethod) && content.Some? && s.write.None? then 1 else 0)
  {
    var url := RequestUrl(cfg.baseUrl, path);
    var t := TryBlock(cfg, url, httpMethod, contentType, content, validUrl, s);
    var response := if t.failure.Some? then ErrorStreamResponse(t.connected, url, s) else t.response;
    TryBlockShape(cfg, url, httpMethod, contentType, content, validUrl, s);
    FinallyCounts(cfg, response, t.connected);
    CountConcat(t.events, Finally(cfg, response, t.connected), IsWrite);
  }

  /** What is written is the content, unchanged, and a logged request comes
      before the write. */
  lemma WritePhaseContent(cfg: ClientConfig, path: Option<string>, httpMethod: HttpMethod, contentType: Option<string>,
                          content: Option<Bytes>, validUrl: string -> bool, s: ConnectionScript)
    ensures var run := Attempt(cfg, path, httpMethod, contentType, content, validUrl, s);
            forall i :: 0 <= i < |run.trace| && run.trace[i].Write? ==> content.Some? && run.trace[i].bytes == content.value
    ensures var run := Attempt(cfg, path, httpMethod, contentType, content, validUrl, s);
            forall i, j :: 0 <= i < |run.trace| && 0 <= j < |run.trace| && run.trace[i].LogRequest? && run.trace[j].Write? ==> i < j
  {
    var url := RequestUrl(cfg.baseUrl, path);
    var t := TryBlock(cfg, url, httpMethod, contentType, content, validUrl, s);
    var response := if t.failure.Some? then ErrorStreamResponse(t.connected, url, s) else t.response;
    TryBlockShape(cfg, url, httpMethod, contentType, content, validUrl, s);
    var trace := t.events + Finally(cfg, response, t.connected);
    assert Attempt(cfg, path, httpMethod, contentType, content, validUrl, s).trace == trace;
    FinallyEvents(cfg, response, t.connected);
    forall k | |t.events| <= k < |trace| ensures !trace[k].Write? && !trace[k].LogRequest? {
      assert trace[k] == Finally(cfg, response, t.connected)[k - |t.events|];
    }
    forall i | 0 <= i < |t.events| ensures trace[i] == t.events[i] {
    }
  }

  /** A URL that `new URL` rejects fails before any connection is opened:
      the cause is the IllegalArgumentException naming the URL, no response
      is attached, and nothing but the response log happens. */
  lemma InvalidUrlFailsBeforeOpen(cfg: ClientConfig, path: Option<string>, httpMethod: HttpMethod, contentType: Option<string>,
                                  content: Option<Bytes>, validUrl: string -> bool, s: ConnectionScript)
    requires !validUrl(RequestUrl(cfg.baseUrl, path))
    ensures var run := Attempt(cfg, path, httpMethod, contentType, content, validUrl, s);
            run.result == Threw(HttpRequestException(InvalidUrl(cfg.baseUrl + Render(path)), None)) &&
            run.trace == (if cfg.loggingEnabled then [LogResponse(None)] else [])
  {
    assert [] + Finally(cfg, None, false) == Finally(cfg, None, false);
  }

  /** The connection that is logged carries the client's timeouts, the
      method's name and output flag, and its request properties let the
      client's headers win, names compared ignoring case: a header that no
      later header matches is in force with its stored value, and every name
      no header matches keeps what the handler set. */
  lemma LoggedConnection(cfg: ClientConfig, path: Option<string>, httpMethod: HttpMethod, contentType: Option<string>,
                         content: Option<Bytes>, validUrl: string -> bool, s: ConnectionScript, i: nat)
    requires i < |Attempt(cfg, path, httpMethod, contentType, content, validUrl, s).trace|
    requires Attempt(cfg, path, httpMethod, contentType, content, validUrl, s).trace[i].LogRequest?
    ensures var e := Attempt(cfg, path, httpMethod, contentType, content, validUrl, s).trace[i];
            var props := InForce(e.connection.propertyCalls);
            var hs := cfg.requestHeaders;
            e.content == content &&
            e.connection.url == RequestUrl(cfg.baseUrl, path) &&
            e.connection.connectTimeout == cfg.connectionTimeout && e.connection.readTimeout == cfg.readTimeout &&
            e.connection.requestMethod == MethodName(httpMethod) && e.connection.doOutput == DoOutput(httpMethod) &&
            (forall j :: 0 <= j < |hs| && (forall j' :: j < j' < |hs| ==> !EqualsIgnoreCase(hs[j'].0, hs[j].0)) ==>
               FoldName(hs[j].0) in props && props[FoldName(hs[j].0)] == hs[j].1) &&
            (forall name :: (forall j :: 0 <= j < |hs| ==> !EqualsIgnoreCase(hs[j].0, name)) ==>
               (FoldName(name) in props <==> FoldName(name) in InForce(PrepareProperties(contentType))) &&
               (FoldName(name) in props ==> props[FoldName(name)] == InForce(PrepareProperties(contentType))[FoldName(name)]))
  {
    LoggedEvent(cfg, path, httpMethod, contentType, content, validUrl, s, i);
    AppliedHeadersWin(PrepareProperties(contentType), cfg.requestHeaders);
  }

  /** The one request log holds the prepared connection and the content. */
  lemma LoggedEvent(cfg: ClientConfig, path: Option<string>, httpMethod: HttpMethod, contentType: Option<string>,
                    content: Option<Bytes>, validUrl: string -> bool, s: ConnectionScript, i: nat)
    requires i < |Attempt(cfg, path, httpMethod, contentType, content, validUrl, s).trace|
    requires Attempt(cfg, path, httpMethod, contentType, content, validUrl, s).trace[i].LogRequest?
    ensures Attempt(cfg, path, httpMethod, contentType, content, validUrl, s).trace[i] ==
            LogRequest(PreparedState(cfg, RequestUrl(cfg.baseUrl, path), httpMethod, contentType), content)
  {
    var url := RequestUrl(cfg.baseUrl, path);
    var t := TryBlock(cfg, url, httpMethod, contentType, content, validUrl, s);
    var response := if t.failure.Some? then ErrorStreamResponse(t.connected, url, s) else t.response;
    TryBlockShape(cfg, url, httpMethod, contentType, content, validUrl, s);
    var trace := t.events + Finally(cfg, response, t.connected);
    assert Attempt(cfg, path, httpMethod, contentType, content, validUrl, s).trace == trace;
    FinallyEvents(cfg, response, t.connected);
    forall k | |t.events| <= k < |trace| ensures !trace[k].LogRequest? {
      assert trace[k] == Finally(cfg, response, t.connected)[k - |t.events|];
    }
    assert trace[i] == t.events[i];
  }

  /** A negative connection or read timeout makes `prepareConnection` fail
      once the connection is open: the attempt throws with the
      IllegalArgumentException as its cause, before anything is logged or
      written. */
  lemma NegativeTimeoutFailsAttempt(cfg: ClientConfig, path: Option<string>, httpMethod: HttpMethod, contentType: Option<string>,
                                    content: Option<Bytes>, validUrl: string -> bool, s: ConnectionScript)
    requires cfg.connectionTimeout < 0 || cfg.readTimeout < 0
    requires validUrl(RequestUrl(cfg.baseUrl, path)) && s.open.None?
    ensures var run := Attempt(cfg, path, httpMethod, contentType, content, validUrl, s);
            run.result.Threw? && run.result.error.cause == NegativeTimeout() &&
            Count(run.trace, IsLogRequest) == 0 && Count(run.trace, IsWrite) == 0
  {
    var url := RequestUrl(cfg.baseUrl, path);
    var t := TryBlock(cfg, url, httpMethod, contentType, content, validUrl, s);
    var response := ErrorStreamResponse(t.connected, url, s);
    TryBlockShape(cfg, url, httpMethod, contentType, content, validUrl, s);
    FinallyCounts(cfg, response, t.connected);
    CountConcat(t.events, Finally(cfg, response, t.connected), IsLogRequest);
    CountConcat(t.events, Finally(cfg, response, t.connected), IsWrite);
    assert t.events == [Open(url)];
  }

  /** The events of the `try` block: an Open exactly when `uc` was assigned,
      never a response log or a disconnect, at most one request log, and
      only the given content written, at most once and after any request
      log. */
  lemma TryBlockShape(cfg: ClientConfig, url: string, httpMethod: HttpMethod, contentType: Option<string>,
                      content: Option<Bytes>, validUrl: string -> bool, s: ConnectionScript)
    ensures var t := TryBlock(cfg, url, httpMethod, contentType, content, validUrl, s);
            t.connected == (validUrl(url) && s.open.None?) &&
            Count(t.events, IsOpen) == (if t.connected then 1 else 0) &&
            Count(t.events, IsDisconnect) == 0 && Count(t.events, IsLogResponse) == 0 &&
            Count(t.events, IsOnError) == 0 &&
            Count(t.events, IsLogRequest) <= (if cfg.loggingEnabled then 1 else 0) &&
            Count(t.events, IsWrite) ==
              (if t.connected && PrepareFailure(cfg, s).None? && DoOutput(httpMethod) && content.Some? && s.write.None? then 1 else 0)
    ensures var t := TryBlock(cfg, url, httpMethod, contentType, content, validUrl, s);
            (forall i :: 0 <= i < |t.events| && t.events[i].Write? ==> content.Some? && t.events[i].bytes == content.value) &&
            (forall i, j :: 0 <= i < |t.events| && 0 <= j < |t.events| && t.events[i].LogRequest? && t.events[j].Write? ==> i < j) &&
            (forall i :: 0 <= i < |t.events| && t.events[i].LogRequest? ==>
               t.events[i] == LogRequest(PreparedState(cfg, url, httpMethod, contentType), content))
  {
    var t := TryBlock(cfg, url, httpMethod, contentType, content, validUrl, s);
    if !validUrl(url) || s.open.Some? {
      assert t.events == [];
    } else if PrepareFailure(cfg, s).Some? {
      assert t.events == [Open(url)] + [] + [];
      PhaseEvents(url, PreparedState(cfg, url, httpMethod, contentType), content, [], []);
    } else {
      assert t == AfterPrepare(cfg, url, httpMethod, contentType, content, s);
      AfterPrepareShape(cfg, url, httpMethod, contentType, content, s);
    }
  }

  /** TryBlockShape once the connection is prepared. */
  lemma AfterPrepareShape(cfg: ClientConfig, url: string, httpMethod: HttpMethod, contentType: Option<string>,
                          content: Option<Bytes>, s: ConnectionScript)
    ensures var t := AfterPrepare(cfg, url, httpMethod, contentType, content, s);
            Count(t.events, IsOpen) == 1 &&
            Count(t.events, IsDisconnect) == 0 && Count(t.events, IsLogResponse) == 0 &&
            Count(t.events, IsOnError) == 0 &&
            Count(t.events, IsLogRequest) <= (if cfg.loggingEnabled then 1 else 0) &&
            Count(t.events, IsWrite) == (if DoOutput(httpMethod) && content.Some? && s.write.None? then 1 else 0)
    ensures var t := AfterPrepare(cfg, url, httpMethod, contentType, content, s);
            (forall i :: 0 <= i < |t.events| && t.events[i].Write? ==> content.Some? && t.events[i].bytes == content.value) &&
            (forall i, j :: 0 <= i < |t.events| && 0 <= j < |t.events| && t.events[i].LogRequest? && t.events[j].Write? ==> i < j) &&
            (forall i :: 0 <= i < |t.events| && t.events[i].LogRequest? ==>
               t.events[i] == LogRequest(PreparedState(cfg, url, httpMethod, contentType), content))
  {
    var t := AfterPrepare(cfg, url, httpMethod, contentType, content, s);
    var conn := PreparedState(cfg, url, httpMethod, contentType);
    var logs: seq<Event> := if cfg.loggingEnabled then [LogRequest(conn, content)] else [];
    var writes := conn.doOutput && content.Some?;
    var wr: seq<Event> := if writes && s.write.None? then [Write(content.value)] else [];
    assert t.events == [Open(url)] + logs + wr;
    PhaseEvents(url, conn, content, logs, wr);
  }

  /** Open, then at most one request log, then at most one write. */
  lemma PhaseEvents(url: string, conn: ConnectionState, content: Option<Bytes>, logs: seq<Event>, wr: seq<Event>)
    requires logs == [] || logs == [LogRequest(conn, content)]
    requires wr == [] || (content.Some? && wr == [Write(content.value)])
    ensures var ev := [Open(url)] + logs + wr;
            Count(ev, IsOpen) == 1 && Count(ev, IsDisconnect) == 0 && Count(ev, IsLogResponse) == 0 &&
            Count(ev, IsOnError) == 0 &&
            Count(ev, IsLogRequest) == |logs| && Count(ev, IsWrite) == |wr|
    ensures var ev := [Open(url)] + logs + wr;
            (forall i :: 0 <= i < |ev| && ev[i].Write? ==> content.Some? && ev[i].bytes == content.value) &&
            (forall i, j :: 0 <= i < |ev| && 0 <= j < |ev| && ev[i].LogRequest? && ev[j].Write? ==> i < j) &&
            (forall i :: 0 <= i < |ev| && ev[i].LogRequest? ==> ev[i] == LogRequest(conn, content))
  {
    var ev := [Open(url)] + logs + wr;
    CountConcat([Open(url)] + logs, wr, IsOpen);
    CountConcat([Open(url)], logs, IsOpen);
    CountConcat([Open(url)] + logs, wr, IsDisconnect);
    CountConcat([Open(url)], logs, IsDisconnect);
    CountConcat([Open(url)] + logs, wr, IsLogResponse);
    CountConcat([Open(url)], logs, IsLogResponse);
    CountConcat([Open(url)] + logs, wr, IsLogRequest);
    CountConcat([Open(url)], logs, IsLogRequest);
    CountConcat([Open(url)] + logs, wr, IsWrite);
    CountConcat([Open(url)], logs, IsWrite);
    CountConcat([Open(url)] + logs, wr, IsOnError);
    CountConcat([Open(url)], logs, IsOnError);
    forall i | 0 <= i < |ev| ensures ev[i] == if i == 0 then Open(url) else if i <= |logs| then logs[i - 1] else wr[i - 1 - |logs|] {
    }
  }

  /** The `finally` block only logs the response and disconnects. */
  lemma FinallyEvents(cfg: ClientConfig, response: Option<HttpResponse>, connected: bool)
    ensures var f := Finally(cfg, response, connected);
            forall k :: 0 <= k < |f| ==> f[k] == LogResponse(response) || f[k] == Disconnect
  {
  }

  lemma FinallyCounts(cfg: ClientConfig, response: Option<HttpResponse>, connected: bool)
    ensures var f := Finally(cfg, response, connected);
            Count(f, IsOpen) == 0 && Count(f, IsLogRequest) == 0 && Count(f, IsWrite) == 0 &&
            Count(f, IsOnError) == 0 &&
            Count(f, IsLogResponse) == (if cfg.loggingEnabled then 1 else 0) &&
            Count(f, IsDisconnect) == (if connected then 1 else 0) &&
            (connected ==> f[|f| - 1] == Disconnect) &&
            (cfg.loggingEnabled ==> f[0] == LogResponse(response))
  {
    var a: seq<Event> := if cfg.loggingEnabled then [LogResponse(response)] else [];
    var b: seq<Event> := if connected then [Disconnect] else [];
    CountConcat(a, b, IsOpen);
    CountConcat(a, b, IsLogRequest);
    CountConcat(a, b, IsWrite);
    CountConcat(a, b, IsLogResponse);
    CountConcat(a, b, IsDisconnect);
    CountConcat(a, b, IsOnError);
  }
}
