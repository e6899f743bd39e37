/** The retrying client (AsyncHttpClient.java): `tryMany` makes up to
    `maxRetries` attempts, doubling the connection timeout after each
    attempt judged a timeout, and rethrows any other failure after handing
    it to `onError`. */
module AsyncClient {
  import opened JavaLang
  import opened Failures
  import opened Requests
  import opened Lifecycle
  import opened HttpClient
  import opened TimeoutClassifier

  /** How `tryMany` ends: it returns a (possibly null) response, or it
      rethrows an exception. */
  datatype TryOutcome = Response(response: Option<HttpResponse>) | Rethrown(error: HttpRequestException)

  /** One `requestHandler.onError(res, e)` call. */
  datatype ErrorReport = ErrorReport(response: Option<HttpResponse>, error: HttpRequestException)

  /** The outcome, the `onError` calls, the final connection timeout and
      the number of attempts made so far. */
  datatype RetryRun = RetryRun(outcome: TryOutcome, reports: seq<ErrorReport>, connectionTimeout: Int32, attempts: nat)

  /** The retry loop from the point where `n` tries remain, `i` attempts
      have been made, the connection timeout is `ct` and `res` holds the
      response so far. `attempt(i, ct)` is the outcome of attempt number `i`
      under connection timeout `ct`. */
  function Retry(attempt: (nat, Int32) -> AttemptResult, isTimeout: HttpRequestException -> bool,
                 n: int, i: nat, ct: Int32, res: Option<HttpResponse>): RetryRun
    decreases if n > 0 then n else 0
  {
    if n <= 0 then RetryRun(Response(res), [], ct, i)
    else match attempt(i, ct)
      case Returned(r) => RetryRun(Response(Some(r)), [], ct, i + 1)
      case Threw(e) =>
        if isTimeout(e) then Retry(attempt, isTimeout, n - 1, i + 1, Double32(ct), res)
        else RetryRun(Rethrown(e), [ErrorReport(res, e)], ct, i + 1)
  }

  /** The attempts of `tryMany` for a client with settings `cfg`: attempt
      `i` runs `doHttpMethod` on the descriptor's fields, with the current
      connection timeout, against the connection script `scripts(i)`. */
  function AttemptsOf(cfg: ClientConfig, request: HttpRequest, validUrl: string -> bool,
                      scripts: nat -> ConnectionScript): (nat, Int32) -> AttemptResult
  {
    (i: nat, ct: Int32) =>
      Attempt(cfg.(connectionTimeout := ct), request.path, request.httpMethod, request.contentType, request.content,
              validUrl, scripts(i)).result
  }

  class AsyncHttpClient {
    /** The client state `tryMany` inherits: the timeouts, headers, base URL
        and logger, and `doHttpMethod` itself. */
    const base: AbstractHttpClient
    var maxRetries: Int32

    /** `new AsyncHttpClient(factory, baseUrl)`: the inherited defaults and
        three tries. */
    constructor (baseUrl: string)
      ensures fresh(base) && base.Valid()
      ensures base.Config() == ClientConfig(baseUrl, 2000, 8000, [], true)
      ensures maxRetries == 3
    {
      base := new AbstractHttpClient(baseUrl);
      maxRetries := 3;
    }

    /** `getMaxRetries()`. */
    function GetMaxRetries(): (r: Int32)
      reads this
      ensures r == maxRetries
    {
      maxRetries
    }

    /** `setMaxRetries(maxRetries)`: stores its argument unchanged. */
    method SetMaxRetries(maxRetries: Int32)
      modifies this
      ensures this.maxRetries == maxRetries
    {
      this.maxRetries := maxRetries;
    }

    /** `tryMany(httpRequest)`, specified by Retry from the client's state on
        entry: only the connection timeout changes. The lemmas below give
        its properties. */
    /** One `doHttpMethod` call of the loop: attempt number `i` under the
        current connection timeout, on a client whose settings are otherwise
        `cfg`. */
    method AttemptOnce(request: HttpRequest, validUrl: string -> bool, scripts: nat -> ConnectionScript, i: nat,
                       ghost cfg: ClientConfig) returns (result: AttemptResult)
      requires base.Valid() && base.Config() == cfg.(connectionTimeout := base.connectionTimeout)
      ensures result == AttemptsOf(cfg, request, validUrl, scripts)(i, base.connectionTimeout)
    {
      var r, _ := base.DoHttpMethod(request.path, request.httpMethod, request.contentType, request.content,
                                    validUrl, scripts(i));
      result := r;
    }

    method TryMany(request: HttpRequest, validUrl: string -> bool, scripts: nat -> ConnectionScript,
                   isTimeout: HttpRequestException -> bool)
      returns (outcome: TryOutcome, reports: seq<ErrorReport>, attempts: nat)
      requires base.Valid()
      modifies base
      ensures base.Valid()
      ensures base.Config() == old(base.Config()).(connectionTimeout := base.connectionTimeout)
      ensures RetryRun(outcome, reports, base.connectionTimeout, attempts) ==
              Retry(AttemptsOf(old(base.Config()), request, validUrl, scripts), isTimeout,
                    maxRetries, 0, old(base.connectionTimeout), None)
    {
      ghost var attempt := AttemptsOf(old(base.Config()), request, validUrl, scripts);
      ghost var goal := Retry(attempt, isTimeout, maxRetries, 0, base.connectionTimeout, None);
      var n: int := GetMaxRetries();
      var res: Option<HttpResponse> := None;
      var thrown: Option<HttpRequestException> := None;
      reports := [];
      attempts := 0;
      while n > 0
        invariant base.Valid()
        invariant base.Config() == old(base.Config()).(connectionTimeout := base.connectionTimeout)
        invariant thrown.None? ==> reports == [] && Retry(attempt, isTimeout, n, attempts, base.connectionTimeout, res) == goal
        invariant thrown.Some? ==>
                    n <= 0 && goal == RetryRun(Rethrown(thrown.value), reports, base.connectionTimeout, attempts)
        decreases n
      {
        ghost var ct := base.connectionTimeout;
        var result := AttemptOnce(request, validUrl, scripts, attempts, old(base.Config()));
        RetryStep(attempt, isTimeout, n, attempts, ct, res);
        attempts := attempts + 1;
        match result
        case Returned(r) =>
          res := Some(r);
          n := 0;
        case Threw(e) =>
          if isTimeout(e) {
            // try again with exponential backoff
            base.SetConnectionTimeout(Double32(base.connectionTimeout));
          } else {
            n := 0;
            reports := [ErrorReport(res, e)];
            thrown := Some(e);
          }
        // finally
        n := n - 1;
      }
      outcome := if thrown.Some? then Rethrown(thrown.value) else Response(res);
    }
  }

  /** One turn of the retry loop. */
  lemma RetryStep(attempt: (nat, Int32) -> AttemptResult, isTimeout: HttpRequestException -> bool,
                  n: int, i: nat, ct: Int32, res: Option<HttpResponse>)
    requires n > 0
    ensures Retry(attempt, isTimeout, n, i, ct, res) ==
            match attempt(i, ct)
            case Returned(r) => RetryRun(Response(Some(r)), [], ct, i + 1)
            case Threw(e) =>
              if isTimeout(e) then Retry(attempt, isTimeout, n - 1, i + 1, Double32(ct), res)
              else RetryRun(Rethrown(e), [ErrorReport(res, e)], ct, i + 1)
  {
  }

  /** At most `n` attempts are made (none when `n <= 0`), and at least one
      when `n > 0`. */
  lemma {:induction false} RetryAttemptsBounded(attempt: (nat, Int32) -> AttemptResult, isTimeout: HttpRequestException -> bool,
                                                n: int, i: nat, ct: Int32, res: Option<HttpResponse>)
    ensures var run := Retry(attempt, isTimeout, n, i, ct, res);
            i + (if n > 0 then 1 else 0) <= run.attempts <= i + (if n > 0 then n else 0)
    decreases if n > 0 then n else 0
  {
    if n > 0 && attempt(i, ct).Threw? && isTimeout(attempt(i, ct).error) {
      RetryAttemptsBounded(attempt, isTimeout, n - 1, i + 1, Double32(ct), res);
    }
  }

  /** With no tries left (`maxRetries <= 0`), nothing is attempted and the
      response is the one held, null on entry to `tryMany`. */
  lemma NoTriesNoAttempt(attempt: (nat, Int32) -> AttemptResult, isTimeout: HttpRequestException -> bool,
                         n: int, ct: Int32)
    requires n <= 0
    ensures Retry(attempt, isTimeout, n, 0, ct, None) == RetryRun(Response(None), [], ct, 0)
  {
  }

  /** After `k` attempts judged timeouts, a successful attempt ends the loop
      with its response; the connection timeout has been doubled `k` times
      (as Java `int`s), which is `ct * 2^k` while that fits. */
  lemma {:induction false} TimeoutsThenSuccess(attempt: (nat, Int32) -> AttemptResult, isTimeout: HttpRequestException -> bool,
                                               n: int, i: nat, ct: Int32, res: Option<HttpResponse>, k: nat, r: HttpResponse)
    requires k < n
    requires forall j :: 0 <= j < k ==> attempt(i + j, Doubled(ct, j)).Threw? && isTimeout(attempt(i + j, Doubled(ct, j)).error)
    requires attempt(i + k, Doubled(ct, k)) == Returned(r)
    ensures Retry(attempt, isTimeout, n, i, ct, res) == RetryRun(Response(Some(r)), [], Doubled(ct, k), i + k + 1)
    ensures InIntRange(ct * Pow2(k)) ==> Retry(attempt, isTimeout, n, i, ct, res).connectionTimeout == ct * Pow2(k)
    decreases k
  {
    if k > 0 {
      assert attempt(i + 0, Doubled(ct, 0)).Threw?;
      forall j | 0 <= j < k - 1
        ensures attempt(i + 1 + j, Doubled(Double32(ct), j)).Threw? &&
                isTimeout(attempt(i + 1 + j, Doubled(Double32(ct), j)).error)
      {
        assert Doubled(ct, j + 1) == Doubled(Double32(ct), j);
        assert i + (j + 1) == i + 1 + j;
      }
      assert Doubled(ct, k) == Doubled(Double32(ct), k - 1);
      assert i + 1 + (k - 1) == i + k;
      TimeoutsThenSuccess(attempt, isTimeout, n - 1, i + 1, Double32(ct), res, k - 1, r);
    }
    if InIntRange(ct * Pow2(k)) {
      DoubledExact(ct, k);
    }
  }

  /** After `k` attempts judged timeouts, a failure not judged a timeout
      ends the loop: `onError` is called once, with the response held and
      that exception, which is then rethrown; the timeout is not doubled for
      it. */
  lemma {:induction false} TimeoutsThenFailure(attempt: (nat, Int32) -> AttemptResult, isTimeout: HttpRequestException -> bool,
                                               n: int, i: nat, ct: Int32, res: Option<HttpResponse>, k: nat, e: HttpRequestException)
    requires k < n
    requires forall j :: 0 <= j < k ==> attempt(i + j, Doubled(ct, j)).Threw? && isTimeout(attempt(i + j, Doubled(ct, j)).error)
    requires attempt(i + k, Doubled(ct, k)) == Threw(e) && !isTimeout(e)
    ensures Retry(attempt, isTimeout, n, i, ct, res) == RetryRun(Rethrown(e), [ErrorReport(res, e)], Doubled(ct, k), i + k + 1)
    decreases k
  {
    if k > 0 {
      assert attempt(i + 0, Doubled(ct, 0)).Threw?;
      forall j | 0 <= j < k - 1
        ensures attempt(i + 1 + j, Doubled(Double32(ct), j)).Threw? &&
                isTimeout(attempt(i + 1 + j, Doubled(Double32(ct), j)).error)
      {
        assert Doubled(ct, j + 1) == Doubled(Double32(ct), j);
        assert i + (j + 1) == i + 1 + j;
      }
      assert Doubled(ct, k) == Doubled(Double32(ct), k - 1);
      assert i + 1 + (k - 1) == i + k;
      TimeoutsThenFailure(attempt, isTimeout, n - 1, i + 1, Double32(ct), res, k - 1, e);
    }
  }

  /** When every one of the `n` attempts is judged a timeout, the loop runs
      out: the response held (null in `tryMany`) is returned, nothing is
      reported, and the timeout has been doubled `n` times. */
  lemma {:induction false} AllTimeouts(attempt: (nat, Int32) -> AttemptResult, isTimeout: HttpRequestException -> bool,
                                       n: nat, i: nat, ct: Int32, res: Option<HttpResponse>)
    requires forall j :: 0 <= j < n ==> attempt(i + j, Doubled(ct, j)).Threw? && isTimeout(attempt(i + j, Doubled(ct, j)).error)
    ensures Retry(attempt, isTimeout, n, i, ct, res) == RetryRun(Response(res), [], Doubled(ct, n), i + n)
    ensures InIntRange(ct * Pow2(n)) ==> Retry(attempt, isTimeout, n, i, ct, res).connectionTimeout == ct * Pow2(n)
    decreases n
  {
    if n > 0 {
      assert attempt(i + 0, Doubled(ct, 0)).Threw?;
      forall j | 0 <= j < n - 1
        ensures attempt(i + 1 + j, Doubled(Double32(ct), j)).Threw? &&
                isTimeout(attempt(i + 1 + j, Doubled(Double32(ct), j)).error)
      {
        assert Doubled(ct, j + 1) == Doubled(Double32(ct), j);
        assert i + (j + 1) == i + 1 + j;
      }
      assert Doubled(ct, n) == Doubled(Double32(ct), n - 1);
      AllTimeouts(attempt, isTimeout, n - 1, i + 1, Double32(ct), res);
    }
    if InIntRange(ct * Pow2(n)) {
      DoubledExact(ct, n);
    }
  }

  /** `onError` is called at most once, exactly when the exception is
      rethrown, with that exception and with the response held, which is
      never one read by an attempt: `res` is assigned only on success, which
      ends the loop. So in `tryMany` the reported response is always null. */
  lemma {:induction false} ReportsCarryHeldResponse(attempt: (nat, Int32) -> AttemptResult, isTimeout: HttpRequestException -> bool,
                                                    n: int, i: nat, ct: Int32, res: Option<HttpResponse>)
    ensures var run := Retry(attempt, isTimeout, n, i, ct, res);
            |run.reports| <= 1 &&
            (|run.reports| == 1 <==> run.outcome.Rethrown?) &&
            (run.outcome.Rethrown? ==> run.reports[0] == ErrorReport(res, run.outcome.error))
    decreases if n > 0 then n else 0
  {
    if n > 0 && attempt(i, ct).Threw? && isTimeout(attempt(i, ct).error) {
      ReportsCarryHeldResponse(attempt, isTimeout, n - 1, i + 1, Double32(ct), res);
    }
  }

  /** The outcome is a response only if some attempt returned one or the
      tries ran out: a returned response is exactly that of attempt number
      `attempts - 1`, made under the final connection timeout. */
  lemma {:induction false} ResponseIsLastAttempts(attempt: (nat, Int32) -> AttemptResult, isTimeout: HttpRequestException -> bool,
                                                  n: int, i: nat, ct: Int32)
    ensures var run := Retry(attempt, isTimeout, n, i, ct, None);
            run.outcome.Response? && run.outcome.response.Some? ==>
              run.attempts >= 1 && attempt(run.attempts - 1, run.connectionTimeout) == Returned(run.outcome.response.value)
    ensures var run := Retry(attempt, isTimeout, n, i, ct, None);
            run.outcome.Rethrown? ==>
              run.attempts >= 1 && attempt(run.attempts - 1, run.connectionTimeout) == Threw(run.outcome.error) &&
              !isTimeout(run.outcome.error)
    decreases if n > 0 then n else 0
  {
    if n > 0 && attempt(i, ct).Threw? && isTimeout(attempt(i, ct).error) {
      ResponseIsLastAttempts(attempt, isTimeout, n - 1, i + 1, Double32(ct));
    }
  }

  /** With the classifier as the timeout test (elapsed time `elapsed`,
      read timeout `rt`, judged against the timeout `ct` the attempt ran
      with), a socket failure in `connect` is retried with a doubled timeout
      exactly when it took at least `ct`; a quicker one (a refused
      connection) is reported and rethrown at once. */
  lemma ConnectFailureRetriedIffSlow(attempt: (nat, Int32) -> AttemptResult, n: int, i: nat, ct: Int32, rt: int,
                                     elapsed: int, e: HttpRequestException)
    requires n > 0 && attempt(i, ct) == Threw(e)
    requires IsSocketFamily(e.cause.kind) && FirstDecisiveFrame(e.cause.frames) == Some(ConnectFrame)
    ensures var isTimeout := (x: HttpRequestException) => IsTimeout(x.AsThrowable(), elapsed, ct, rt);
            Retry(attempt, isTimeout, n, i, ct, None) ==
              if elapsed >= ct then Retry(attempt, isTimeout, n - 1, i + 1, Double32(ct), None)
              else RetryRun(Rethrown(e), [ErrorReport(None, e)], ct, i + 1)
  {
    WrapperIsTransparent(e, elapsed, ct, rt);
  }

  /** A connection timeout that doubling has pushed below zero is refused
      by `setConnectTimeout` in the next attempt (once its connection is
      open): that IllegalArgumentException is no timeout, so `tryMany`
      reports it and rethrows it at once, whatever tries remain. */
  lemma NegativeTimeoutEndsRetries(cfg: ClientConfig, request: HttpRequest, validUrl: string -> bool,
                                   scripts: nat -> ConnectionScript, n: int, i: nat, ct: Int32,
                                   res: Option<HttpResponse>, elapsed: int, rt: int)
    requires n > 0 && ct < 0
    requires validUrl(RequestUrl(cfg.baseUrl, request.path)) && scripts(i).open.None?
    ensures var attempt := AttemptsOf(cfg, request, validUrl, scripts);
            attempt(i, ct).Threw? && attempt(i, ct).error.cause == NegativeTimeout()
    ensures var attempt := AttemptsOf(cfg, request, validUrl, scripts);
            var isTimeout := (x: HttpRequestException) => IsTimeout(x.AsThrowable(), elapsed, ct, rt);
            var e := attempt(i, ct).error;
            Retry(attempt, isTimeout, n, i, ct, res) == RetryRun(Rethrown(e), [ErrorReport(res, e)], ct, i + 1)
  {
    var attempt := AttemptsOf(cfg, request, validUrl, scripts);
    NegativeTimeoutFailsAttempt(cfg.(connectionTimeout := ct), request.path, request.httpMethod, request.contentType,
                                request.content, validUrl, scripts(i));
    var e := attempt(i, ct).error;
    WrapperIsTransparent(e, elapsed, ct, rt);
    NoSocketExceptionNoTimeout(e.cause, elapsed, ct, rt);
  }
}
