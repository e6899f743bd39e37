/** The client (AbstractHttpClient.java): its settings, its header table,
    one request attempt and the timeout classifier. The request handler is
    the default one (module AbstractRequestHandler); the request logger is
    represented by what the client asks of it, `isLoggingEnabled()`. */
module HttpClient {
  import opened JavaLang
  import opened HttpMethods
  import opened HeaderTable
  import opened Failures
  import opened JavaIo
  import opened JavaNet
  import opened AbstractRequestHandler
  import opened Requests
  import opened Lifecycle
  import opened TimeoutClassifier

  class AbstractHttpClient {
    var baseUrl: string
    /** The `TreeMap` of extra headers, in ascending key order. */
    var requestHeaders: seq<Header>
    var connectionTimeout: Int32
    var readTimeout: Int32
    /** `requestLogger.isLoggingEnabled()`. */
    var loggingEnabled: bool

    /** The header table is a proper sorted map. */
    ghost predicate Valid()
      reads this
    {
      StrictlySorted(requestHeaders)
    }

    /** The settings one attempt reads. */
    function Config(): ClientConfig
      reads this
    {
      ClientConfig(baseUrl, connectionTimeout, readTimeout, requestHeaders, loggingEnabled)
    }

    /** `new AbstractHttpClient(baseUrl, handler)` with the default handler
        and the console logger, which always logs: no extra headers, a 2 s
        connection timeout and an 8 s read timeout. */
    constructor (baseUrl: string)
      ensures Valid()
      ensures this.baseUrl == baseUrl && requestHeaders == [] && loggingEnabled
      ensures connectionTimeout == 2000 && readTimeout == 8000
    {
      this.baseUrl := baseUrl;
      requestHeaders := [];
      connectionTimeout := 2000;
      readTimeout := 8000;
      loggingEnabled := true;
    }

    /** `addHeader(name, value)`: the table maps `name` to `value` and every
        other name as before; it returns the client itself for chaining. */
    method AddHeader(name: string, value: string) returns (self: AbstractHttpClient)
      requires Valid()
      modifies this
      ensures Valid() && self == this
      ensures AsMap(requestHeaders) == old(AsMap(requestHeaders))[name := value]
      ensures Config() == old(Config()).(requestHeaders := requestHeaders)
    {
      PutCorrect(requestHeaders, name, value);
      requestHeaders := HeaderTable.Put(requestHeaders, name, value);
      self := this;
    }

    /** `clearHeaders()`: the table is empty; nothing else changes. */
    method ClearHeaders()
      modifies this
      ensures Valid() && requestHeaders == [] && AsMap(requestHeaders) == map[]
      ensures Config() == old(Config()).(requestHeaders := [])
    {
      requestHeaders := [];
    }

    /** `appendRequestHeaders(uc)`: one `setRequestProperty` per stored
        header, in ascending key order, each name once; nothing else about
        the connection changes. */
    method AppendRequestHeaders(uc: HttpURLConnection)
      requires Valid()
      modifies uc
      ensures uc.propertyCalls == old(uc.propertyCalls) + requestHeaders
      ensures StrictlySorted(uc.propertyCalls[|old(uc.propertyCalls)|..])
      ensures uc.requestMethod == old(uc.requestMethod) && uc.doOutput == old(uc.doOutput)
      ensures uc.connectTimeout == old(uc.connectTimeout) && uc.readTimeout == old(uc.readTimeout)
    {
      for i := 0 to |requestHeaders|
        invariant uc.propertyCalls == old(uc.propertyCalls) + requestHeaders[..i]
        invariant uc.requestMethod == old(uc.requestMethod) && uc.doOutput == old(uc.doOutput)
        invariant uc.connectTimeout == old(uc.connectTimeout) && uc.readTimeout == old(uc.readTimeout)
      {
        var (name, value) := requestHeaders[i];
        uc.SetRequestProperty(name, value);
        assert requestHeaders[..i + 1] == requestHeaders[..i] + [(name, value)];
      }
      assert requestHeaders[..|requestHeaders|] == requestHeaders;
      assert uc.propertyCalls[|old(uc.propertyCalls)|..] == requestHeaders;
    }

    /** `openConnection(path)`: the URL is `baseUrl + path`; a URL `new URL`
        rejects throws the IllegalArgumentException naming it, and otherwise
        the handler opens a fresh connection unless it throws `openFails`. */
    method OpenConnection(path: Option<string>, validUrl: string -> bool, openFails: Option<Exc>)
      returns (uc: HttpURLConnection?, thrown: Option<Exc>)
      ensures uc != null <==> thrown.None?
      ensures thrown == if !validUrl(RequestUrl(baseUrl, path)) then Some(InvalidUrl(RequestUrl(baseUrl, path))) else openFails
      ensures uc != null ==> fresh(uc) && uc.State() == ConnectionState(RequestUrl(baseUrl, path), "GET", false, 0, 0, [])
    {
      var requestUrl := baseUrl + Render(path);
      if !validUrl(requestUrl) {
        return null, Some(InvalidUrl(requestUrl));
      }
      if openFails.Some? {
        return null, openFails;
      }
      uc := new HttpURLConnection(requestUrl);
      thrown := None;
    }

    /** `prepareConnection(uc, httpMethod, contentType)`: the client's
        timeouts, then the handler's settings. A negative timeout is refused
        by the connection, which ends the step there; `handlerFails` is what
        the handler's part throws, if anything (it is then taken to throw
        before changing the connection). */
    method PrepareConnection(uc: HttpURLConnection, httpMethod: HttpMethod, contentType: Option<string>,
                             handlerFails: Option<Exc>) returns (thrown: Option<Exc>)
      modifies uc
      ensures thrown == if connectionTimeout < 0 || readTimeout < 0 then Some(NegativeTimeout()) else handlerFails
      ensures thrown.None? ==>
                uc.connectTimeout == connectionTimeout && uc.readTimeout == readTimeout &&
                uc.requestMethod == MethodName(httpMethod) && uc.doOutput == DoOutput(httpMethod) &&
                uc.propertyCalls == old(uc.propertyCalls) + PrepareProperties(contentType)
      ensures thrown.Some? ==>
                uc.requestMethod == old(uc.requestMethod) && uc.doOutput == old(uc.doOutput) &&
                uc.propertyCalls == old(uc.propertyCalls) &&
                uc.connectTimeout == (if connectionTimeout < 0 then old(uc.connectTimeout) else connectionTimeout) &&
                uc.readTimeout == (if connectionTimeout < 0 || readTimeout < 0 then old(uc.readTimeout) else readTimeout)
    {
      thrown := uc.SetConnectTimeout(connectionTimeout);
      if thrown.Some? {
        return;
      }
      thrown := uc.SetReadTimeout(readTimeout);
      if thrown.Some? {
        return;
      }
      if handlerFails.Some? {
        return handlerFails;
      }
      AbstractRequestHandler.PrepareConnection(uc, httpMethod, contentType);
    }

    /** `writeOutputStream(uc, content)`: the content goes to the
        connection's output stream unchanged; the response code it then
        returns is discarded by the caller, so it is not modelled. The
        stream `uc.getOutputStream()` would hand out is stood for by a fresh
        OutputStream, so `uc` itself is only kept to mirror the signature. */
    method WriteOutputStream(uc: HttpURLConnection, content: Bytes) returns (written: Bytes)
      ensures written == content
    {
      var out := new OutputStream();
      WriteStream(out, content);
      written := out.written;
    }

    /** `readInputStream(uc)` and `readErrorStream(uc)`: read the stream, if
        the connection gives one, into the response body. */
    method ReadResponse(uc: HttpURLConnection, stream: Option<Bytes>, status: int) returns (r: HttpResponse)
      ensures r == HttpResponse(uc.url, status, stream)
    {
      if stream.Some? {
        var input := new InputStream(stream.value);
        var body, _ := ReadStream(input);
        r := HttpResponse(uc.url, status, Some(body));
      } else {
        r := HttpResponse(uc.url, status, None);
      }
    }

    /** The `try` block of `doHttpMethod` once `openConnection` has
        returned `uc`: prepare, append the headers, log, write, read. It
        stops at the first exception and returns it with the events so far. */
    method Exchange(uc: HttpURLConnection, url: string, httpMethod: HttpMethod, contentType: Option<string>,
                    content: Option<Bytes>, validUrl: string -> bool, s: ConnectionScript)
      returns (events: seq<Event>, failure: Option<Exc>, httpResponse: Option<HttpResponse>)
      requires Valid() && validUrl(url) && s.open.None?
      requires uc.State() == ConnectionState(url, "GET", false, 0, 0, [])
      modifies uc
      ensures TryState(true, [Open(url)] + events, failure, httpResponse) ==
              TryBlock(Config(), url, httpMethod, contentType, content, validUrl, s)
    {
      events := [];
      httpResponse := None;
      failure := None;
      failure := PrepareConnection(uc, httpMethod, contentType, s.prepare);
      if failure.Some? {
        assert [Open(url)] + events == [Open(url)];
        return;
      }
      AppendRequestHeaders(uc);
      assert uc.propertyCalls == PrepareProperties(contentType) + requestHeaders;
      assert TryBlock(Config(), url, httpMethod, contentType, content, validUrl, s) ==
             AfterPrepare(Config(), url, httpMethod, contentType, content, s);
      events, failure, httpResponse := SendPrepared(uc, url, httpMethod, contentType, content, s);
    }

    /** The `try` block after `prepareConnection` and
        `appendRequestHeaders`: log the request, then write and read. */
    method SendPrepared(uc: HttpURLConnection, url: string, httpMethod: HttpMethod, contentType: Option<string>,
                        content: Option<Bytes>, s: ConnectionScript)
      returns (events: seq<Event>, failure: Option<Exc>, httpResponse: Option<HttpResponse>)
      requires uc.State() == PreparedState(Config(), url, httpMethod, contentType)
      ensures TryState(true, [Open(url)] + events, failure, httpResponse) ==
              AfterPrepare(Config(), url, httpMethod, contentType, content, s)
    {
      events := [];
      if loggingEnabled {
        events := [LogRequest(uc.State(), content)];
      }
      var more;
      more, failure, httpResponse := WriteAndRead(uc, content, s);
      events := events + more;
    }

    /** The rest of the `try` block: write the content when the connection
        does output and there is content, then read the response. */
    method WriteAndRead(uc: HttpURLConnection, content: Option<Bytes>, s: ConnectionScript)
      returns (events: seq<Event>, failure: Option<Exc>, httpResponse: Option<HttpResponse>)
      ensures var writes := uc.doOutput && content.Some?;
              if writes && s.write.Some? then events == [] && failure == s.write && httpResponse.None?
              else
                events == (if writes then [Write(content.value)] else []) &&
                match s.input
                case Fail(e) => failure == Some(e) && httpResponse.None?
                case Ok(body) => failure.None? && httpResponse == Some(HttpResponse(uc.url, s.status, body))
    {
      events := [];
      httpResponse := None;
      failure := None;
      var writes := uc.doOutput && content.Some?;
      if writes && s.write.Some? {
        failure := s.write;
        return;
      }
      if writes {
        var written := WriteOutputStream(uc, content.value);
        events := events + [Write(written)];
      }
      match s.input
      case Fail(e) =>
        failure := Some(e);
      case Ok(stream) =>
        var r := ReadResponse(uc, stream, s.status);
        httpResponse := Some(r);
    }

    /** `doHttpMethod(path, httpMethod, contentType, content)`: the attempt
        specified by Lifecycle.Attempt, whose lemmas give its properties. */
    method DoHttpMethod(path: Option<string>, httpMethod: HttpMethod, contentType: Option<string>, content: Option<Bytes>,
                        validUrl: string -> bool, s: ConnectionScript)
      returns (result: AttemptResult, trace: seq<Event>)
      requires Valid()
      ensures Run(result, trace) == Attempt(Config(), path, httpMethod, contentType, content, validUrl, s)
    {
      var url := RequestUrl(baseUrl, path);
      var httpResponse: Option<HttpResponse> := None;
      trace := [];
      // try
      var uc, failure := OpenConnection(path, validUrl, s.open);
      if uc != null {
        var events;
        events, failure, httpResponse := Exchange(uc, url, httpMethod, contentType, content, validUrl, s);
        trace := [Open(url)] + events;
      }
      ghost var t := TryBlock(Config(), url, httpMethod, contentType, content, validUrl, s);
      assert TryState(uc != null, trace, failure, httpResponse) == t;
      // catch
      if failure.Some? {
        if uc != null && s.error.Ok? {
          var r := ReadResponse(uc, s.error.value, s.status);
          httpResponse := Some(r);
        }
        assert httpResponse == ErrorStreamResponse(t.connected, url, s);
        result := Threw(HttpRequestException(failure.value, httpResponse));
      } else {
        result := Returned(httpResponse.value);
      }
      // finally
      if loggingEnabled {
        trace := trace + [LogResponse(httpResponse)];
      }
      if uc != null {
        trace := trace + [Disconnect];
      }
      assert trace == t.events + Finally(Config(), httpResponse, t.connected);
    }

    /** `execute(httpRequest)`: specified by Lifecycle.Execution; see
        Lifecycle.ExecuteNeverThrows. */
    method Execute(request: HttpRequest, validUrl: string -> bool, s: ConnectionScript)
      returns (response: Option<HttpResponse>, trace: seq<Event>)
      requires Valid()
      ensures (response, trace) == Execution(Config(), request, validUrl, s)
    {
      var result;
      result, trace := DoHttpMethod(request.path, request.httpMethod, request.contentType, request.content, validUrl, s);
      match result
      case Returned(r) =>
        response := Some(r);
      case Threw(hre) =>
        response := None;
        trace := trace + [OnError(hre)];
    }

    /** `get(path, params)`. */
    method Get(path: Option<string>, params: Option<ParameterMap>, urlEncode: ParameterMap -> string,
               validUrl: string -> bool, s: ConnectionScript)
      returns (response: Option<HttpResponse>, trace: seq<Event>)
      requires Valid()
      ensures (response, trace) == Execution(Config(), HttpGetRequest(path, params, urlEncode), validUrl, s)
    {
      response, trace := Execute(HttpGetRequest(path, params, urlEncode), validUrl, s);
    }

    /** `post(path, params)`. */
    method PostParams(path: Option<string>, params: Option<ParameterMap>, urlEncodedBytes: ParameterMap -> Bytes,
                      validUrl: string -> bool, s: ConnectionScript)
      returns (response: Option<HttpResponse>, trace: seq<Event>)
      requires Valid()
      ensures (response, trace) == Execution(Config(), HttpPostRequestWithParams(path, params, urlEncodedBytes), validUrl, s)
    {
      response, trace := Execute(HttpPostRequestWithParams(path, params, urlEncodedBytes), validUrl, s);
    }

    /** `post(path, contentType, data)`. */
    method PostData(path: Option<string>, contentType: Option<string>, data: Option<Bytes>,
                    validUrl: string -> bool, s: ConnectionScript)
      returns (response: Option<HttpResponse>, trace: seq<Event>)
      requires Valid()
      ensures (response, trace) == Execution(Config(), HttpPostRequestWithData(path, contentType, data), validUrl, s)
    {
      response, trace := Execute(HttpPostRequestWithData(path, contentType, data), validUrl, s);
    }

    /** `put(path, contentType, data)`. */
    method Put(path: Option<string>, contentType: Option<string>, data: Option<Bytes>,
               validUrl: string -> bool, s: ConnectionScript)
      returns (response: Option<HttpResponse>, trace: seq<Event>)
      requires Valid()
      ensures (response, trace) == Execution(Config(), HttpPutRequest(path, contentType, data), validUrl, s)
    {
      response, trace := Execute(HttpPutRequest(path, contentType, data), validUrl, s);
    }

    /** `delete(path, params)`. */
    method Delete(path: Option<string>, params: Option<ParameterMap>, urlEncode: ParameterMap -> string,
                  validUrl: string -> bool, s: ConnectionScript)
      returns (response: Option<HttpResponse>, trace: seq<Event>)
      requires Valid()
      ensures (response, trace) == Execution(Config(), HttpDeleteRequest(path, params, urlEncode), validUrl, s)
    {
      response, trace := Execute(HttpDeleteRequest(path, params, urlEncode), validUrl, s);
    }

    /** `isTimeoutException(t, startTime)`, with the clock's reading `now`
        passed in: the verdict of TimeoutClassifier.IsTimeout for the elapsed
        time `now - startTime + 10` and the client's current timeouts. */
    method IsTimeoutException(t: Exc, startTime: int, now: int) returns (b: bool)
      ensures b == IsTimeout(t, Elapsed(startTime, now), connectionTimeout, readTimeout)
      decreases t
    {
      var elapsedTime := now - startTime + 10;
      if IsSocketFamily(t.kind) {
        var i := 0;
        while i < |t.frames|
          invariant 0 <= i <= |t.frames|
          invariant FirstDecisiveFrame(t.frames[i..]) == FirstDecisiveFrame(t.frames)
        {
          var methodName := t.frames[i];
          assert t.frames[i..][0] == methodName && t.frames[i..][1..] == t.frames[i + 1..];
          if EqualsIgnoreCase("connect", methodName) {
            return elapsedTime >= connectionTimeout;
          } else if methodName == "read" {
            return elapsedTime >= readTimeout;
          }
          i := i + 1;
        }
        return false;
      } else if t.cause.None? {
        return false;
      } else {
        b := IsTimeoutException(t.cause.value, startTime, now);
      }
    }

    /** `getConnectionTimeout()`. */
    function GetConnectionTimeout(): (r: Int32)
      reads this
      ensures r == connectionTimeout
    {
      connectionTimeout
    }

    /** `setConnectionTimeout(t)`: stores `t`; nothing else changes. */
    method SetConnectionTimeout(t: Int32)
      modifies this
      ensures Valid() == old(Valid())
      ensures Config() == old(Config()).(connectionTimeout := t)
    {
      connectionTimeout := t;
    }

    /** `getReadTimeout()`. */
    function GetReadTimeout(): (r: Int32)
      reads this
      ensures r == readTimeout
    {
      readTimeout
    }

    /** `setReadTimeout(t)`: stores `t`; nothing else changes. */
    method SetReadTimeout(t: Int32)
      modifies this
      ensures Config() == old(Config()).(readTimeout := t)
    {
      readTimeout := t;
    }

    /** `setRequestLogger(logger)`, for a logger whose `isLoggingEnabled()`
        answers `enabled`. */
    method SetRequestLogger(enabled: bool)
      modifies this
      ensures Config() == old(Config()).(loggingEnabled := enabled)
    {
      loggingEnabled := enabled;
    }
  }
}
