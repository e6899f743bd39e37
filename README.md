# basic-http-client: the request lifecycle and the retrying client

This project is a Dafny model of the core of basic-http-client, a small Java
HTTP client built on `HttpURLConnection`. It covers:

- `AbstractHttpClient` and its request lifecycle. `execute` and
  `doHttpMethod` open, prepare, add headers, log, write and read, with one
  `HttpRequestException` that carries the first cause. The same part covers
  the sorted request-header table, the timeout getters and setters, and the
  `isTimeoutException` classifier.
- `AsyncHttpClient.tryMany`, which retries attempts judged timeouts and
  doubles the connection timeout after each, in 32-bit `int` arithmetic.
- `AbstractRequestHandler`, which configures the connection, writes the body
  and reads a stream in 16384-byte chunks.
- `HttpMethod` and the request descriptors (`HttpRequest` and its GET, POST,
  PUT and DELETE subclasses).

How the model maps the Java:

- Java `null` is `Option`. String concatenation with `null` writes `"null"`
  (`JavaLang.Render`).
- Java `int` is `JavaLang.Int32`. Doubling wraps around (`JavaLang.Double32`).
- The `TreeMap` of headers is an association list kept strictly ascending
  under `String.compareTo`.
- The connection is a class that records its `setRequestProperty` calls in
  order. `HttpURLConnection` compares header names ignoring case, so the
  properties in force are keyed by the lower-cased name, and a later call
  replaces every earlier call whose name matches it ignoring case
  (`HeaderTable.InForce`).
- `setConnectTimeout` and `setReadTimeout` refuse a negative value with
  IllegalArgumentException("timeouts can't be negative"), as
  `java.net.URLConnection` does. A connection timeout that doubling has
  wrapped below zero therefore fails the next attempt.
- The outcome of each I/O step comes from a `Lifecycle.ConnectionScript`:
  open, prepare, write, input stream, error stream and status.
- The whole lifecycle is the specification function `Lifecycle.Attempt`. It
  returns a result and a trace of observable events: open, logRequest,
  write, logResponse, disconnect and onError.
- The imperative methods of the client classes are proved equal to the
  specification functions. The properties are proved as lemmas about those
  functions.
- `AsyncHttpClient` extends `AbstractHttpClient` in Java. Here it holds the
  inherited state as a `base` client.

Files:

- `java_lang.dfy`: null rendering, 32-bit arithmetic, `compareTo` and
  `equalsIgnoreCase`.
- `java_io_net.dfy`: streams and `HttpURLConnection`.
- `http_method.dfy`: `HttpMethod`.
- `failures.dfy`: exceptions, responses and `HttpRequestException`.
- `header_table.dfy`: the sorted header table.
- `request_handler.dfy`: `AbstractRequestHandler`.
- `requests.dfy`: the request descriptors.
- `lifecycle.dfy`: the specification of `doHttpMethod`/`execute` and its
  properties.
- `timeout_classifier.dfy`: the specification of `isTimeoutException`.
- `http_client.dfy`: the `AbstractHttpClient` class.
- `async_client.dfy`: `tryMany` and the retry properties.

## Model

| member | source | states |
|---|---|---|
| JavaLang.Wrap32 | src/com/turbomanage/httpclient/AsyncHttpClient.java:144 | Java `int` arithmetic: the result agrees with the mathematical value when that fits in 32 bits, and always differs from it by a multiple of 2^32 |
| JavaLang.Double32 | src/com/turbomanage/httpclient/AsyncHttpClient.java:144 | `connectionTimeout * 2` is exactly twice the timeout when that fits, and differs from it (wraps around) when it does not; a non-negative timeout that overflows becomes negative |
| JavaLang.DoubledExact | src/com/turbomanage/httpclient/AsyncHttpClient.java:142-144 | k doublings give `x * 2^k` whenever that product fits in an `int` |
| JavaLang.Render | src/com/turbomanage/httpclient/AbstractHttpClient.java:218 | string concatenation writes a present string as itself and `null` as "null" |
| JavaLang.LessIrreflexive | src/com/turbomanage/httpclient/AbstractHttpClient.java:40 | the `compareTo` order that keys the header `TreeMap` is irreflexive |
| JavaLang.LessTransitive | src/com/turbomanage/httpclient/AbstractHttpClient.java:40 | that order is transitive |
| JavaLang.LessTotal | src/com/turbomanage/httpclient/AbstractHttpClient.java:40 | that order is total: two different keys are always ordered |
| JavaLang.LessAsymmetric | src/com/turbomanage/httpclient/AbstractHttpClient.java:40 | that order is asymmetric |
| JavaLang.LessImpliesDifferent | src/com/turbomanage/httpclient/AbstractHttpClient.java:40 | ordered keys are distinct |
| HttpMethods.MethodNamed | src/com/turbomanage/httpclient/HttpMethod.java:10-14 | a parsed method name names the constant it returns |
| HttpMethods.DoOutputExactlyPostAndPut | src/com/turbomanage/httpclient/HttpMethod.java:11-14 | `getDoOutput` is true exactly for POST and PUT |
| HttpMethods.MethodNameRoundTrip | src/com/turbomanage/httpclient/HttpMethod.java:36-38 | the method name parses back to the same constant |
| HttpMethods.MethodNameInjective | src/com/turbomanage/httpclient/HttpMethod.java:36-38 | two constants with the same name are the same constant |
| Failures.HttpRequestException.GetHttpResponse | src/com/turbomanage/httpclient/HttpRequestException.java:7-14 | the exception hands back the response it was built with (possibly null) |
| Failures.HttpRequestException.AsThrowable | src/com/turbomanage/httpclient/HttpRequestException.java:7-10 | the exception, seen as a throwable, has the wrapped exception as its cause |
| Failures.InvalidUrl | src/com/turbomanage/httpclient/AbstractHttpClient.java:219-223 | a malformed URL becomes an IllegalArgumentException with message "<url> is not a valid URL" and the MalformedURLException as its cause |
| HeaderTable.AsMapKeys | src/com/turbomanage/httpclient/AbstractHttpClient.java:40 | a name is in the table exactly when some entry has it |
| HeaderTable.AsMapConcat | src/com/turbomanage/httpclient/AbstractHttpClient.java:240-245 | setting properties in two batches gives the second batch's values priority |
| HeaderTable.SortedEntriesAreTheMap | src/com/turbomanage/httpclient/AbstractHttpClient.java:40 | in a sorted table every entry is the map's value for its name, names are distinct, and the map has no other names |
| HeaderTable.PutCorrect | src/com/turbomanage/httpclient/AbstractHttpClient.java:336-339 | `TreeMap.put` keeps the table sorted and updates exactly the one name, overwriting an existing value |
| HeaderTable.FoldNameMatches | src/com/turbomanage/httpclient/AbstractHttpClient.java:243 | two header names fold to the same key exactly when they are equal ignoring case |
| HeaderTable.InForceConcat | src/com/turbomanage/httpclient/AbstractHttpClient.java:240-245 | properties set in two batches are in force with the second batch's values winning, names compared ignoring case |
| HeaderTable.InForceKeys | src/com/turbomanage/httpclient/AbstractHttpClient.java:243 | a name is in force exactly when some call set a name equal to it ignoring case |
| HeaderTable.AsMapLastWins | src/com/turbomanage/httpclient/AbstractHttpClient.java:240-245 | a setting that no later setting of the same name follows is the one in force |
| HeaderTable.AppliedHeadersWin | src/com/turbomanage/httpclient/AbstractHttpClient.java:240-245 | headers set after the handler's properties replace them, names compared ignoring case: a header that no later header matches is in force with its value, and every name no header matches keeps what was set before |
| JavaIo.InputStream.Read | src/com/turbomanage/httpclient/AbstractRequestHandler.java:78 | `read(buffer)` copies the next 1 to `buffer.length` bytes of the stream into the buffer, or returns -1 at the end |
| JavaNet.HttpURLConnection.SetRequestProperty | src/com/turbomanage/httpclient/AbstractHttpClient.java:243 | the property is recorded after the earlier ones and nothing else about the connection changes |
| JavaNet.HttpURLConnection.SetConnectTimeout | src/com/turbomanage/httpclient/AbstractHttpClient.java:229 | a negative timeout is refused with the IllegalArgumentException and leaves the connection unchanged; any other value becomes the connect timeout and nothing else changes |
| JavaNet.HttpURLConnection.SetReadTimeout | src/com/turbomanage/httpclient/AbstractHttpClient.java:230 | the same for the read timeout |
| AbstractRequestHandler.PrepareProperties | src/com/turbomanage/httpclient/AbstractRequestHandler.java:42-52 | the handler sets one or two properties, and the last is always Accept-Charset: UTF-8 |
| AbstractRequestHandler.PreparePropertiesInForce | src/com/turbomanage/httpclient/AbstractRequestHandler.java:42-52 | Content-Type (under any case) is in force exactly when a content type is given, with that type; Accept-Charset is always UTF-8 |
| AbstractRequestHandler.PrepareConnection | src/com/turbomanage/httpclient/AbstractRequestHandler.java:42-52 | the connection gets the method's name and output flag, then those properties, with the timeouts untouched |
| AbstractRequestHandler.WriteStream | src/com/turbomanage/httpclient/AbstractRequestHandler.java:62-64 | the content goes to the output stream unchanged |
| AbstractRequestHandler.ReadStream | src/com/turbomanage/httpclient/AbstractRequestHandler.java:73-83 | the body returned is the whole stream in order, and the stream is consumed; the body is assembled from chunks of 1 to 16384 bytes |
| Requests.QueryString | src/com/turbomanage/httpclient/HttpGetRequest.java:5-13 | the query string is null exactly when the parameter map is null, and is otherwise its encoding |
| Requests.HttpGetRequest | src/com/turbomanage/httpclient/HttpGetRequest.java:5-13 | a GET descriptor with no content type or content, whose path is the path, '?' and the query |
| Requests.HttpGet | src/com/turbomanage/httpclient/HttpGet.java:16-24 | as written: a GET descriptor with no content type or content, whose path is `path + "?" + queryString` |
| Requests.HttpPostRequestWithParams | src/com/turbomanage/httpclient/HttpPostRequest.java:17-25 | a POST with the form-urlencoded content type, carrying content exactly when there are parameters, the encoded parameters |
| Requests.HttpPostRequestWithData | src/com/turbomanage/httpclient/HttpPostRequest.java:34-40 | a POST carrying the given path, content type and data unchanged |
| Requests.HttpPutRequest | src/com/turbomanage/httpclient/HttpPutRequest.java:17-23 | a PUT carrying the given path, content type and data unchanged |
| Requests.HttpPut | src/com/turbomanage/httpclient/HttpPut.java:18-28 | a PUT whose path gets the query string appended, and which carries the content type and data unchanged |
| Requests.HttpDeleteRequest | src/com/turbomanage/httpclient/HttpDeleteRequest.java:16-24 | a DELETE with no content type or content, whose path is the path, '?' and the query |
| Requests.HttpDelete | src/com/turbomanage/httpclient/HttpDelete.java:16-24 | the same DELETE descriptor |
| Requests.HttpDeleteAgreesWithHttpDeleteRequest | src/com/turbomanage/httpclient/HttpDelete.java:16-24 | HttpDelete and HttpDeleteRequest build equal descriptors |
| Requests.WithQueryRoundTrip | src/com/turbomanage/httpclient/HttpGetRequest.java:5-13 | when the path has no '?', splitting the built path at its first '?' gives back the rendered path and query |
| Requests.NullParamsGiveQueryNull | src/com/turbomanage/httpclient/HttpGet.java:19-23 | a null parameter map leaves the rendered path followed by "?null" |
| Requests.NullPathGivesPrefixNull | src/com/turbomanage/httpclient/HttpGet.java:23 | a null path makes the built path start with "null?" |
| Requests.WritePhaseByDescriptor | src/com/turbomanage/httpclient/AbstractHttpClient.java:193 | GET and DELETE descriptors never reach the write phase; POST and PUT descriptors have `doOutput` set |
| Requests.HttpGetTestWithParams | src/com/turbomanage/httpclient/test/HttpGetTest.java:20-26 | HttpGet with path and parameters gives "/nowhere?param1=value1&param2=value2" and the method name GET |
| Requests.HttpGetNullParamsAsWritten | src/com/turbomanage/httpclient/test/HttpGetTest.java:40-43 | as written, HttpGet("/nowhere", null) gives "/nowhere?null", not the "/nowhere" the test expects |
| Requests.HttpGetNullPathAsWritten | src/com/turbomanage/httpclient/test/HttpGetTest.java:30-50 | as written, a null path gives "null?..." and two nulls give "null?null", not what the tests expect |
| Requests.IntendedHttpGet | src/com/turbomanage/httpclient/HttpGet.java:16-24 | the corrected HttpGet: a GET with no content, whose path is unchanged (a null path counts as empty) when there are no parameters |
| Requests.IntendedHttpGetPassesTests | src/com/turbomanage/httpclient/test/HttpGetTest.java:20-57 | the corrected HttpGet gives the path that each of the four test cases expects |
| Requests.IntendedHttpGetAgreesWhenNonNull | src/com/turbomanage/httpclient/HttpGet.java:16-24 | when neither argument is null, the corrected constructor builds the same descriptor as the code as written |
| Lifecycle.CountConcat | src/com/turbomanage/httpclient/AbstractHttpClient.java:186-213 | event counts add up over the try block and the finally block |
| Lifecycle.RequestUrl | src/com/turbomanage/httpclient/AbstractHttpClient.java:218 | the request URL is the base URL followed by the rendered path |
| Lifecycle.TryBlock | src/com/turbomanage/httpclient/AbstractHttpClient.java:186-196 | the try block either fails or produces a response, never both and never neither |
| Lifecycle.ErrorStreamResponse | src/com/turbomanage/httpclient/AbstractHttpClient.java:198-202 | an error-stream response exists only for an open connection whose error stream was read, and then it carries that connection's URL and status |
| Lifecycle.ExecuteNeverThrows | src/com/turbomanage/httpclient/AbstractHttpClient.java:153-166 | `execute` returns the response of a successful attempt; after a failed attempt it calls `onError` exactly once, last, with that exception, and returns null |
| Lifecycle.FirstCauseIsReported | src/com/turbomanage/httpclient/AbstractHttpClient.java:186-205 | an attempt throws exactly when some phase fails; the cause is the first failure in program order; the error-stream read can neither mask it nor change the outcome; a failed error-stream read leaves the response null |
| Lifecycle.DisconnectOnceIffOpened | src/com/turbomanage/httpclient/AbstractHttpClient.java:206-213 | a connection is opened exactly when the URL is valid and opening succeeds; it is then disconnected exactly once, as the last event, and otherwise never |
| Lifecycle.LoggingOnEveryPath | src/com/turbomanage/httpclient/AbstractHttpClient.java:190-209 | with logging on, `logResponse` is called exactly once, with the final response, and `logRequest` at most once; with logging off, neither is called |
| Lifecycle.WritePhaseGated | src/com/turbomanage/httpclient/AbstractHttpClient.java:193-195 | the body is written exactly when the connection was prepared, the method writes, there is content, and the write succeeds |
| Lifecycle.WritePhaseContent | src/com/turbomanage/httpclient/AbstractHttpClient.java:190-195 | what is written is the content, unchanged, and a logged request comes before the write |
| Lifecycle.InvalidUrlFailsBeforeOpen | src/com/turbomanage/httpclient/AbstractHttpClient.java:217-225 | a malformed URL fails before anything is opened, with the IllegalArgumentException as cause and no response; nothing else happens except the response log |
| Lifecycle.LoggedConnection | src/com/turbomanage/httpclient/AbstractHttpClient.java:186-192 | the logged connection has the request URL, the client's timeouts, the method's name and output flag; names compared ignoring case, a client header that no later header matches is in force with its value, and every name no header matches keeps what the handler set |
| Lifecycle.NegativeTimeoutFailsAttempt | src/com/turbomanage/httpclient/AbstractHttpClient.java:227-232 | with a negative connection or read timeout, an opened attempt throws with the IllegalArgumentException as cause, and nothing is logged as a request or written |
| HttpClient.AbstractHttpClient.constructor | src/com/turbomanage/httpclient/AbstractHttpClient.java:36-82 | a new client has the base URL, no headers, timeouts of 2000 and 8000 ms, and logging on |
| HttpClient.AbstractHttpClient.AddHeader | src/com/turbomanage/httpclient/AbstractHttpClient.java:336-339 | the header table becomes the old one with that name set to that value; it stays sorted, the client returns itself, and nothing else changes |
| HttpClient.AbstractHttpClient.ClearHeaders | src/com/turbomanage/httpclient/AbstractHttpClient.java:347-349 | the header table becomes empty and nothing else changes |
| HttpClient.AbstractHttpClient.AppendRequestHeaders | src/com/turbomanage/httpclient/AbstractHttpClient.java:240-245 | every stored header is set on the connection, in ascending name order, and nothing else about the connection changes |
| HttpClient.AbstractHttpClient.OpenConnection | src/com/turbomanage/httpclient/AbstractHttpClient.java:217-225 | it returns a fresh connection to baseUrl + path with Java's defaults exactly when the URL is valid and the handler opens it; otherwise it returns the IllegalArgumentException or the handler's exception |
| HttpClient.AbstractHttpClient.PrepareConnection | src/com/turbomanage/httpclient/AbstractHttpClient.java:227-232 | it throws the IllegalArgumentException when either timeout is negative and otherwise what the handler throws; when nothing is thrown the connection has the client's two timeouts, then the handler's method, output flag and properties, and a refused timeout leaves the connection's other settings as they were |
| HttpClient.AbstractHttpClient.WriteOutputStream | src/com/turbomanage/httpclient/AbstractHttpClient.java:254-272 | the bytes written to the connection's output stream are the content |
| HttpClient.AbstractHttpClient.ReadResponse | src/com/turbomanage/httpclient/AbstractHttpClient.java:274-312 | the response carries the connection's URL, the status and the body read (null when there was no stream) |
| HttpClient.AbstractHttpClient.DoHttpMethod | src/com/turbomanage/httpclient/AbstractHttpClient.java:180-215 | the method's response or exception, and its events, are those of the lifecycle specification `Attempt` for the client's current settings |
| HttpClient.AbstractHttpClient.Execute | src/com/turbomanage/httpclient/AbstractHttpClient.java:153-166 | the response and events are those of `Execution`: the attempt, plus `onError` after a failure |
| HttpClient.AbstractHttpClient.Get | src/com/turbomanage/httpclient/AbstractHttpClient.java:92-94 | `get` executes an HttpGetRequest built from its arguments |
| HttpClient.AbstractHttpClient.PostParams | src/com/turbomanage/httpclient/AbstractHttpClient.java:103-105 | `post(path, params)` executes the form-encoded HttpPostRequest |
| HttpClient.AbstractHttpClient.PostData | src/com/turbomanage/httpclient/AbstractHttpClient.java:116-118 | `post(path, contentType, data)` executes the data HttpPostRequest |
| HttpClient.AbstractHttpClient.Put | src/com/turbomanage/httpclient/AbstractHttpClient.java:128-130 | `put` executes an HttpPutRequest built from its arguments |
| HttpClient.AbstractHttpClient.Delete | src/com/turbomanage/httpclient/AbstractHttpClient.java:140-142 | `delete` executes an HttpDeleteRequest built from its arguments |
| HttpClient.AbstractHttpClient.IsTimeoutException | src/com/turbomanage/httpclient/AbstractHttpClient.java:383-407 | the recursive walk with its frame loop decides exactly the classifier `IsTimeout`, for elapsed time now - startTime + 10 and the client's timeouts |
| HttpClient.AbstractHttpClient.GetConnectionTimeout | src/com/turbomanage/httpclient/AbstractHttpClient.java:409-411 | returns the connection timeout |
| HttpClient.AbstractHttpClient.SetConnectionTimeout | src/com/turbomanage/httpclient/AbstractHttpClient.java:420-422 | sets the connection timeout and changes nothing else |
| HttpClient.AbstractHttpClient.GetReadTimeout | src/com/turbomanage/httpclient/AbstractHttpClient.java:424-426 | returns the read timeout |
| HttpClient.AbstractHttpClient.SetReadTimeout | src/com/turbomanage/httpclient/AbstractHttpClient.java:435-437 | sets the read timeout and changes nothing else |
| HttpClient.AbstractHttpClient.SetRequestLogger | src/com/turbomanage/httpclient/AbstractHttpClient.java:360-362 | replaces the logger, seen as whether it logs, and changes nothing else |
| TimeoutClassifier.FirstSocketException | src/com/turbomanage/httpclient/AbstractHttpClient.java:387-406 | the exception the walk stops at is a ConnectException, SocketException or SocketTimeoutException |
| TimeoutClassifier.FirstDecisiveFrameIsFirst | src/com/turbomanage/httpclient/AbstractHttpClient.java:390-399 | the loop decides on the first frame named "connect" (any case) or "read" (exact); no such frame means no decision |
| TimeoutClassifier.IsTimeoutByFirstSocketException | src/com/turbomanage/httpclient/AbstractHttpClient.java:387-406 | the verdict is decided by the first socket exception in the cause chain alone |
| TimeoutClassifier.NoSocketExceptionNoTimeout | src/com/turbomanage/httpclient/AbstractHttpClient.java:400-402 | with no socket exception in the cause chain, nothing is a timeout |
| TimeoutClassifier.IsTimeoutMonotoneInElapsed | src/com/turbomanage/httpclient/AbstractHttpClient.java:394-396 | what is a timeout stays one when more time has elapsed |
| TimeoutClassifier.IsTimeoutAntitoneInTimeouts | src/com/turbomanage/httpclient/AbstractHttpClient.java:394-396 | what is a timeout stays one under shorter timeouts |
| TimeoutClassifier.WrapperIsTransparent | src/com/turbomanage/httpclient/AbstractHttpClient.java:403-406 | an HttpRequestException is judged by its cause |
| TimeoutClassifier.FrameNameMatching | src/com/turbomanage/httpclient/AbstractHttpClient.java:393-395 | "connect" matches in any case, and "read" only exactly |
| AsyncClient.AsyncHttpClient.constructor | src/com/turbomanage/httpclient/AsyncHttpClient.java:14-40 | the inherited defaults and three tries |
| AsyncClient.AsyncHttpClient.GetMaxRetries | src/com/turbomanage/httpclient/AsyncHttpClient.java:158-160 | returns the number of tries |
| AsyncClient.AsyncHttpClient.SetMaxRetries | src/com/turbomanage/httpclient/AsyncHttpClient.java:162-164 | sets the number of tries |
| AsyncClient.AsyncHttpClient.TryMany | src/com/turbomanage/httpclient/AsyncHttpClient.java:130-156 | the loop's outcome, its `onError` calls, the final connection timeout and the number of attempts are those of the recursive specification `Retry`; no other client setting changes |
| AsyncClient.RetryAttemptsBounded | src/com/turbomanage/httpclient/AsyncHttpClient.java:131-153 | at most `maxRetries` attempts are made, and at least one when `maxRetries > 0` |
| AsyncClient.NoTriesNoAttempt | src/com/turbomanage/httpclient/AsyncHttpClient.java:131-133 | with `maxRetries <= 0` nothing is attempted and null is returned |
| AsyncClient.TimeoutsThenSuccess | src/com/turbomanage/httpclient/AsyncHttpClient.java:136-152 | after k timeouts, a success returns its response after k+1 attempts, with the timeout doubled k times (exactly `ct * 2^k` when that fits) |
| AsyncClient.TimeoutsThenFailure | src/com/turbomanage/httpclient/AsyncHttpClient.java:141-149 | after k timeouts, a failure that is not a timeout is reported to `onError` once and rethrown, after k+1 attempts |
| AsyncClient.AllTimeouts | src/com/turbomanage/httpclient/AsyncHttpClient.java:133-155 | when every attempt times out, all `maxRetries` are used, the timeout is doubled each time, and the held (null) response is returned without an exception |
| AsyncClient.ReportsCarryHeldResponse | src/com/turbomanage/httpclient/AsyncHttpClient.java:145-149 | `onError` is called at most once, exactly when the exception is rethrown, with that exception and the response held before the loop |
| AsyncClient.ResponseIsLastAttempts | src/com/turbomanage/httpclient/AsyncHttpClient.java:136-149 | a returned response, or a rethrown exception, is the outcome of the last attempt, made under the final timeout; a rethrown exception is not a timeout |
| AsyncClient.NegativeTimeoutEndsRetries | src/com/turbomanage/httpclient/AsyncHttpClient.java:141-149 | once the connection timeout is negative (doubling wraps it, `JavaLang.Double32`), the next opened attempt fails with the IllegalArgumentException, which is no timeout, so it is reported and rethrown at once |
| AsyncClient.ConnectFailureRetriedIffSlow | src/com/turbomanage/httpclient/AsyncHttpClient.java:141-149 | with the classifier as the test, a socket failure in `connect` is retried with a doubled timeout exactly when it took at least the connection timeout; a quicker one is rethrown at once |

## Left out

- The clock is not modelled. `isTimeoutException` reads `System.currentTimeMillis()`; here the current time is a parameter. `long` overflow of the elapsed time is not modelled.
- Real network and stream I/O are not modelled. Each step's outcome comes from a `ConnectionScript`: open, prepare, write, input stream, error stream and status. Whether `new URL` accepts a string is a predicate parameter.
- Closing the output, input and error streams is not modelled. The source swallows any exception from `close()`, so closing never changes an outcome.
- `writeOutputStream` calls `getResponseCode()`, and `doHttpMethod` discards the status it returns. The model leaves that call out; the status is a script value read with the response.
- `HttpResponse.java` is not part of this model. A response is its URL, status and body, which are the values `new HttpResponse(uc, body)` is built from.
- `RequestHandler.java` is not part of this model. Its `UTF8` constant is taken to be "UTF-8", the character set `prepareConnection` names.
- The request logger is modelled as its `isLoggingEnabled` flag, and its calls as trace events. Printing to the console and logger failures are not modelled. A failure of `isLoggingEnabled` or `logRequest` in the `try` block (AbstractHttpClient.java:190-191) would be wrapped in an HttpRequestException like any other step. A failure of `isLoggingEnabled` or `logResponse` in the `finally` block (AbstractHttpClient.java:207-208) would escape `doHttpMethod` unwrapped and replace the attempt's outcome. It would then reach the `catch (Exception e)` branch of `execute` (AbstractHttpClient.java:161), which the model therefore never takes. The default `ConsoleRequestLogger` logs.
- `setRequestProperty` is modelled as never throwing, so `appendRequestHeaders` always succeeds. The handler's own `prepareConnection` can fail, through the script; it is then taken to fail before changing the connection.
- A null base URL, null header names or values, and a null request method are not modelled. The base URL is a string, as the constructors give it.
- `String.compareTo` is modelled on Dafny characters, not UTF-16 code units. `equalsIgnoreCase`, and the case-insensitive matching of header names, fold ASCII letters only, which is exact for "connect" and for ASCII header names.
- `tryMany` calls `isTimeoutException(e)` with one argument, and `execute` calls `onError(hre)` with one argument. Neither matches the signatures in AbstractHttpClient.java and AbstractRequestHandler.java. In the model, `onError` receives the exception and, in `tryMany`, the held response. The model makes the timeout test of `tryMany` a parameter. `AsyncClient.ConnectFailureRetriedIffSlow` plugs in the classifier.
- `AsyncClient.AsyncHttpClient.TryMany` does not model the `System.out.println` trace line (AsyncHttpClient.java:135).
- `HttpClient.AbstractHttpClient.IsTimeoutException` does not model its `System.out.println` trace line (AbstractHttpClient.java:385-386).
- `executeAsync` and the asynchronous `get`/`post`/`put`/`delete` of `AsyncHttpClient` are not modelled. Neither are the executor factory, cookies (`getCookieManager`, `ensureCookieManager`) or `newParams`.
- The Android, REST and JSON layers are not modelled.
- `ParameterMap`'s encoding is a function parameter; its internals are not modelled.
- `AbstractRequestHandler.openConnection` and `onError` are modelled only through their effects: the open step of the script and the `OnError` event.

## Findings

| source | as written | input that shows it | evidently intended | confidence | as-written member | corrected member |
|---|---|---|---|---|---|---|
| src/com/turbomanage/httpclient/HttpGet.java:19-23 | the path is always `path + "?" + queryString`, so a null path becomes "null" and null parameters become "?null" | `new HttpGet("/nowhere", null)` gives "/nowhere?null"; `new HttpGet(null, null)` gives "null?null" | HttpGetTest.java:40-50 expects "/nowhere" and ""; a null path contributes nothing, and '?' appears only with parameters | not executed | Requests.HttpGetNullParamsAsWritten | Requests.IntendedHttpGetPassesTests |

`Requests.HttpGetNullPathAsWritten` shows the null-path half of the same row. The corrected constructor is `Requests.IntendedHttpGet`. The client's own `get` builds an `HttpGetRequest`, not an `HttpGet`, so the correction concerns callers that construct `HttpGet` directly. `HttpGetRequest`, `HttpDelete` and `HttpDeleteRequest` build the path the same way, but no test states what they should do, so they are modelled as written.
