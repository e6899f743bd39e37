/** Exceptions and responses as values (HttpRequestException.java, and the
    `java.net` exception classes the timeout classifier inspects). */
module Failures {
  import opened JavaLang

  /** The exception classes the client distinguishes. `SocketException`
      stands for any `java.net.SocketException` that is not a
      `ConnectException`; `Other` for every remaining class. */
  datatype ExcKind =
    | ConnectException
    | SocketException
    | SocketTimeoutException
    | IllegalArgumentException
    | MalformedURLException
    | IOException
    | HttpRequestExceptionKind
    | Other(className: string)

  /** `t instanceof ConnectException || t instanceof SocketException ||
      t instanceof SocketTimeoutException` (ConnectException is a
      SocketException, so it is listed for clarity only). */
  predicate IsSocketFamily(k: ExcKind)
  {
    k.ConnectException? || k.SocketException? || k.SocketTimeoutException?
  }

  /** A throwable: its class, message, the method names of its stack frames
      (innermost first) and its cause. */
  datatype Exc = Exc(kind: ExcKind, message: Option<string>, frames: seq<string>, cause: Option<Exc>)

  /** A captured response (HttpResponse.java is not part of this model; the
      fields are the ones the logger reads: URL, status, body). */
  datatype HttpResponse = HttpResponse(url: string, status: int, body: Option<Bytes>)

  /** `new HttpRequestException(e, httpResponse)`: the wrapped first cause and
      the response read from the error stream, if any. It has no setter, so a
      value is all there is to it. */
  datatype HttpRequestException = HttpRequestException(cause: Exc, httpResponse: Option<HttpResponse>)
  {
    /** `getHttpResponse()`. */
    function GetHttpResponse(): (r: Option<HttpResponse>)
      ensures r == httpResponse
    {
      httpResponse
    }

    /** The exception seen as a throwable: its `getCause()` is the wrapped
        exception. Its own stack frames are never consulted (the classifier
        reads frames of socket exceptions only), so none are recorded. */
    function AsThrowable(): (t: Exc)
      ensures t.kind == HttpRequestExceptionKind && t.cause == Some(cause)
    {
      Exc(HttpRequestExceptionKind, None, [], Some(cause))
    }
  }

  /** The exception `openConnection` throws for a malformed URL. */
  function InvalidUrl(requestUrl: string): (e: Exc)
    ensures e.kind == IllegalArgumentException
    ensures e.message == Some(requestUrl + " is not a valid URL")
    ensures e.cause.Some? && e.cause.value.kind == MalformedURLException
  {
    Exc(IllegalArgumentException, Some(requestUrl + " is not a valid URL"), [],
        Some(Exc(MalformedURLException, None, [], None)))
  }

  /** The exception `HttpURLConnection.setConnectTimeout` and
      `setReadTimeout` throw for a negative timeout. */
  function NegativeTimeout(): (e: Exc)
    ensures e.kind == IllegalArgumentException && !IsSocketFamily(e.kind)
    ensures e.message == Some("timeouts can't be negative") && e.cause.None?
  {
    Exc(IllegalArgumentException, Some("timeouts can't be negative"), [], None)
  }

  /** The outcome of one `doHttpMethod` attempt: a response, or the
      HttpRequestException it throws. */
  datatype AttemptResult = Returned(response: HttpResponse) | Threw(error: HttpRequestException)
}
