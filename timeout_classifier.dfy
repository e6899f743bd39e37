/** The specification of `isTimeoutException(t, startTime)`
    (AbstractHttpClient.java:383-407): walk the cause chain to the first
    socket exception, then let its first frame named "connect" (any case) or
    "read" (exact) decide by comparing the elapsed time with the matching
    timeout. The method itself is AbstractHttpClient.IsTimeoutException. */
module TimeoutClassifier {
  import opened JavaLang
  import opened Failures

  datatype FrameKind = ConnectFrame | ReadFrame

  /** How one stack frame's method name is judged. */
  function FrameKindOf(methodName: string): Option<FrameKind>
  {
    if EqualsIgnoreCase("connect", methodName) then Some(ConnectFrame)
    else if methodName == "read" then Some(ReadFrame)
    else None
  }

  /** The kind of the first decisive frame, innermost first. */
  function FirstDecisiveFrame(frames: seq<string>): Option<FrameKind>
  {
    if frames == [] then None
    else if FrameKindOf(frames[0]).Some? then FrameKindOf(frames[0])
    else FirstDecisiveFrame(frames[1..])
  }

  /** `System.currentTimeMillis() - startTime + 10`. */
  function Elapsed(startTime: int, now: int): int
  {
    now - startTime + 10
  }

  /** The verdict once the first decisive frame is known. */
  predicate Verdict(k: Option<FrameKind>, elapsed: int, connectionTimeout: int, readTimeout: int)
  {
    match k
    case None => false
    case Some(ConnectFrame) => elapsed >= connectionTimeout
    case Some(ReadFrame) => elapsed >= readTimeout
  }

  /** `isTimeoutException`, as a function of the throwable, the elapsed time
      and the client's two timeouts. */
  predicate IsTimeout(t: Exc, elapsed: int, connectionTimeout: int, readTimeout: int)
  {
    if IsSocketFamily(t.kind) then Verdict(FirstDecisiveFrame(t.frames), elapsed, connectionTimeout, readTimeout)
    else match t.cause
      case None => false
      case Some(c) => IsTimeout(c, elapsed, connectionTimeout, readTimeout)
  }

  /** The first socket exception along the cause chain, if any. */
  function FirstSocketException(t: Exc): (s: Option<Exc>)
    ensures s.Some? ==> IsSocketFamily(s.value.kind)
  {
    if IsSocketFamily(t.kind) then Some(t)
    else match t.cause
      case None => None
      case Some(c) => FirstSocketException(c)
  }

  /** FirstDecisiveFrame finds the first index whose frame is decisive: every
      earlier frame is not, and it returns that frame's kind; it is None
      exactly when no frame is decisive. */
  lemma {:induction false} FirstDecisiveFrameIsFirst(frames: seq<string>)
    ensures FirstDecisiveFrame(frames).None? <==>
              forall i :: 0 <= i < |frames| ==> FrameKindOf(frames[i]).None?
    ensures FirstDecisiveFrame(frames).Some? ==>
              exists i :: 0 <= i < |frames| && FrameKindOf(frames[i]) == FirstDecisiveFrame(frames) &&
                forall j :: 0 <= j < i ==> FrameKindOf(frames[j]).None?
  {
    if frames != [] && FrameKindOf(frames[0]).None? {
      FirstDecisiveFrameIsFirst(frames[1..]);
      if FirstDecisiveFrame(frames).Some? {
        var i :| 0 <= i < |frames[1..]| && FrameKindOf(frames[1..][i]) == FirstDecisiveFrame(frames[1..]) &&
                 forall j :: 0 <= j < i ==> FrameKindOf(frames[1..][j]).None?;
        assert FrameKindOf(frames[i + 1]) == FirstDecisiveFrame(frames);
        assert forall j :: 0 <= j < i + 1 ==> FrameKindOf(frames[j]).None? by {
          forall j | 0 <= j < i + 1 ensures FrameKindOf(frames[j]).None? {
            if j > 0 { assert frames[j] == frames[1..][j - 1]; }
          }
        }
      } else {
        forall i | 0 <= i < |frames| ensures FrameKindOf(frames[i]).None? {
          if i > 0 { assert frames[i] == frames[1..][i - 1]; }
        }
      }
    } else if frames != [] {
      assert FrameKindOf(frames[0]) == FirstDecisiveFrame(frames);
    }
  }

  /** Reference characterisation: the classifier's answer is decided by the
      frames of the first socket exception on the cause chain, and is false
      when the chain holds none. */
  lemma {:induction false} IsTimeoutByFirstSocketException(t: Exc, elapsed: int, ct: int, rt: int)
    ensures IsTimeout(t, elapsed, ct, rt) ==
              match FirstSocketException(t)
              case None => false
              case Some(s) => Verdict(FirstDecisiveFrame(s.frames), elapsed, ct, rt)
  {
    if !IsSocketFamily(t.kind) && t.cause.Some? {
      IsTimeoutByFirstSocketException(t.cause.value, elapsed, ct, rt);
    }
  }

  /** A chain without socket exceptions is never timeout-class, whatever the
      elapsed time. */
  lemma NoSocketExceptionNoTimeout(t: Exc, elapsed: int, ct: int, rt: int)
    requires FirstSocketException(t).None?
    ensures !IsTimeout(t, elapsed, ct, rt)
  {
    IsTimeoutByFirstSocketException(t, elapsed, ct, rt);
  }

  /** The longer the attempt took, the more readily it is judged a timeout. */
  lemma {:induction false} IsTimeoutMonotoneInElapsed(t: Exc, e1: int, e2: int, ct: int, rt: int)
    requires e1 <= e2 && IsTimeout(t, e1, ct, rt)
    ensures IsTimeout(t, e2, ct, rt)
  {
    if !IsSocketFamily(t.kind) && t.cause.Some? {
      IsTimeoutMonotoneInElapsed(t.cause.value, e1, e2, ct, rt);
    }
  }

  /** Raising the timeouts (as the retry backoff does) can only turn a
      timeout verdict into a non-timeout one, never the reverse. */
  lemma {:induction false} IsTimeoutAntitoneInTimeouts(t: Exc, elapsed: int, ct1: int, rt1: int, ct2: int, rt2: int)
    requires ct1 <= ct2 && rt1 <= rt2 && IsTimeout(t, elapsed, ct2, rt2)
    ensures IsTimeout(t, elapsed, ct1, rt1)
  {
    if !IsSocketFamily(t.kind) && t.cause.Some? {
      IsTimeoutAntitoneInTimeouts(t.cause.value, elapsed, ct1, rt1, ct2, rt2);
    }
  }

  /** The HttpRequestException wrapper is transparent: classifying it is
      classifying its cause. */
  lemma WrapperIsTransparent(e: HttpRequestException, elapsed: int, ct: int, rt: int)
    ensures IsTimeout(e.AsThrowable(), elapsed, ct, rt) == IsTimeout(e.cause, elapsed, ct, rt)
  {
  }

  /** "connect" matches in any case, "read" only in lower case. */
  lemma FrameNameMatching()
    ensures FrameKindOf("connect") == Some(ConnectFrame)
    ensures FrameKindOf("CONNECT") == Some(ConnectFrame)
    ensures FrameKindOf("Connect") == Some(ConnectFrame)
    ensures FrameKindOf("read") == Some(ReadFrame)
    ensures FrameKindOf("READ") == None
    ensures FrameKindOf("connect0") == None
  {
    assert FoldCase('C') == 'c' && FoldCase('O') == 'o' && FoldCase('N') == 'n';
    assert FoldCase('E') == 'e' && FoldCase('T') == 't';
    assert !EqualsIgnoreCase("connect", "READ");
    assert !EqualsIgnoreCase("connect", "read");
  }
}
