/** The retry loop of the transport client (internal/transport/client.go, Send) and its
    exponential sleeps (internal/transport/middleware.go, sleepWithBackoff). */
module Client {
  import opened Prelude
  import opened Text
  import opened Errors
  import opened Responses

  newtype Byte = x: int | 0 <= x < 256

  /** The snapshot encoded and compressed once, before the loop. */
  datatype Encoding = EncodeFailed(message: string) | Encoded(body: seq<Byte>, originalBytes: int, encodeMs: int)

  /** What one POST meets: an answer, or a transport failure with its message. */
  datatype Outcome = Answered(response: Response) | NoAnswer(message: string)

  /** The world around one Send, by attempt index: each post's outcome, and the context's
      error text if it is cancelled before the attempt. */
  datatype World = World(outcome: nat -> Outcome, cancelled: nat -> Option<string>)

  datatype SendStats = SendStats(originalBytes: int, compressedBytes: int, encodeMs: int)

  const MAX_INT64 := 0x7FFF_FFFF_FFFF_FFFF
  const TWO_TO_64 := 0x1_0000_0000_0000_0000

  function PostResult(o: Outcome): Result<Reply, SendError> {
    match o
    case Answered(r) => ParseResponse(r)
    case NoAnswer(message) => Err(SendError(message, false))
  }

  function CancelError(n: nat, text: string): SendError {
    SendError("transport: context canceled before attempt " + FormatInt(n + 1) + ": " + text, false)
  }

  function TooLargeError(size: int, limit: int): SendError {
    SendError("transport: compressed snapshot exceeds server limit (compressed=" + FormatInt(size)
              + ", limit=" + FormatInt(limit) + ")", true)
  }

  /** The attempt fails in a way that is tried again. */
  predicate Retries(w: World, n: nat) {
    && w.cancelled(n).None?
    && PostResult(w.outcome(n)).Err? && !IsNonRetryable(PostResult(w.outcome(n)).error)
  }

  /** The error of a failed attempt. */
  function ErrorAt(w: World, n: nat): Option<SendError> {
    match PostResult(w.outcome(n)) case Err(e) => Some(e) case Ok(_) => None
  }

  /** How the loop ends: what it returns, how many posts it made, the last attempt index. */
  datatype LoopEnd = LoopEnd(result: Option<Reply>, err: Option<SendError>, posts: nat, reached: nat)

  function Attempts(w: World, n: nat, max: int, lastErr: Option<SendError>): LoopEnd
    decreases max - n
  {
    if n >= max then LoopEnd(None, lastErr, n, if n == 0 then 0 else n - 1)
    else if w.cancelled(n).Some? then LoopEnd(None, Some(CancelError(n, w.cancelled(n).value)), n, n)
    else
      match PostResult(w.outcome(n))
      case Ok(v) => LoopEnd(Some(v), None, n + 1, n)
      case Err(e) =>
        if IsNonRetryable(e) then LoopEnd(None, Some(e), n + 1, n)
        else Attempts(w, n + 1, max, Some(e))
  }

  /** The reply of a successful attempt. */
  function ReplyAt(w: World, n: nat): Option<Reply> {
    match PostResult(w.outcome(n)) case Ok(v) => Some(v) case Err(_) => None
  }

  lemma AttemptStep(w: World, n: nat, max: int, lastErr: Option<SendError>)
    requires n < max
    ensures Attempts(w, n, max, lastErr) ==
            if Retries(w, n) then Attempts(w, n + 1, max, ErrorAt(w, n))
            else if w.cancelled(n).Some? then LoopEnd(None, Some(CancelError(n, w.cancelled(n).value)), n, n)
            else LoopEnd(ReplyAt(w, n), ErrorAt(w, n), n + 1, n)
  {
  }

  // ---- Sleeps ----

  function Pow2(n: nat): int {
    if n == 0 then 1 else 2 * Pow2(n - 1)
  }

  /** Two's-complement wrap-around of int64 arithmetic. */
  function Wrap64(x: int): int {
    (x + MAX_INT64 + 1) % TWO_TO_64 - MAX_INT64 - 1
  }

  /** The time sleepWithBackoff(n) really sleeps, in nanoseconds: the product wraps around,
      and time.Sleep returns at once for a duration that is not positive. Past 2^62 the
      float no longer converts to an int64, and on every platform the product is not positive. */
  function Slept(n: nat): int {
    if n >= 63 then 0
    else
      var d := Wrap64(Pow2(n) * SECOND);
      if d > 0 then d else 0
  }

  function TotalSlept(n: nat): int {
    if n == 0 then 0 else TotalSlept(n - 1) + Slept(n - 1)
  }

  function SleepLog(n: nat): seq<int> {
    if n == 0 then [] else SleepLog(n - 1) + [Slept(n - 1)]
  }

  function Copies(body: seq<Byte>, n: nat): seq<seq<Byte>> {
    if n == 0 then [] else Copies(body, n - 1) + [body]
  }

  function UnreachableError(e: SendError, nowMs: int): AgentError {
    AgentError(BACKEND_UNREACHABLE, "snapshot send failed: " + e.message, "transport", nowMs)
  }

  class Client {
    const maxRetries: int
    const maxCompressedBodyBytes: int
    const errorCollector: ErrorCollector
    var lastSendStats: SendStats

    constructor (maxRetries: int, maxCompressed: int, errorCollector: ErrorCollector)
      ensures this.maxRetries == maxRetries && this.errorCollector == errorCollector
      ensures this.maxCompressedBodyBytes == if maxCompressed <= 0 then 52428800 else maxCompressed
      ensures lastSendStats == SendStats(0, 0, 0)
    {
      this.maxRetries := maxRetries;
      this.maxCompressedBodyBytes := if maxCompressed <= 0 then 52428800 else maxCompressed;
      this.errorCollector := errorCollector;
      lastSendStats := SendStats(0, 0, 0);
    }

    /** The encoding is refused before any post. */
    predicate Refused(e: Encoding) {
      e.EncodeFailed? || (maxCompressedBodyBytes > 0 && |e.body| > maxCompressedBodyBytes)
    }

    /** client.go, Send. */
    method Send(e: Encoding, w: World, now: int, nowMs: int)
      returns (result: Option<Reply>, err: Option<SendError>, posts: seq<seq<Byte>>, sleeps: seq<int>)
      requires errorCollector.Valid()
      modifies this`lastSendStats, errorCollector
      ensures errorCollector.Valid()
      // refused: no post, no sleep, no report, statistics kept
      ensures Refused(e) ==>
                && result.None? && err.Some? && posts == [] && sleeps == []
                && (e.Encoded? ==> err.value == TooLargeError(|e.body|, maxCompressedBodyBytes))
                && errorCollector.history == old(errorCollector.history) && lastSendStats == old(lastSendStats)
      // otherwise: the loop's end, with every post carrying the same body
      ensures !Refused(e) ==>
                var end := Attempts(w, 0, maxRetries + 1, None);
                && result == end.result && err == end.err
                && posts == Copies(e.body, end.posts) && sleeps == SleepLog(end.reached)
                && errorCollector.history == old(errorCollector.history)
                     + (if err.Some? then [Report(now, UnreachableError(err.value, nowMs))] else [])
                && lastSendStats == if err.Some? then old(lastSendStats)
                                    else SendStats(e.originalBytes, |e.body|, e.encodeMs)
      // a body over the limit is never posted; any other is, unless there is no attempt to make
      ensures e.Encoded? && 0 < maxCompressedBodyBytes < |e.body| ==>
                && posts == [] && result == None
                && err == Some(SendError("transport: compressed snapshot exceeds server limit (compressed="
                                         + FormatInt(|e.body|) + ", limit=" + FormatInt(maxCompressedBodyBytes) + ")", true))
      ensures e.Encoded? && |e.body| <= maxCompressedBodyBytes && maxRetries >= 0 && w.cancelled(0).None? ==>
                |posts| >= 1 && posts[0] == e.body
      // the first conclusive answer, if it is a decoded 200, is what Send returns
      ensures forall n: nat, v :: e.Encoded? && |e.body| <= maxCompressedBodyBytes && n <= maxRetries && RepliesAt(w, n, v) ==>
                && result == Some(v) && err == None && |posts| == n + 1 && |sleeps| == n
                && errorCollector.history == old(errorCollector.history)
                && lastSendStats == SendStats(e.originalBytes, |e.body|, e.encodeMs)
      // an error after the loop is reported once
      ensures e.Encoded? && |e.body| <= maxCompressedBodyBytes && err.Some? ==>
                errorCollector.history == old(errorCollector.history) + [Report(now, AgentError(
                  "BACKEND_UNREACHABLE", "snapshot send failed: " + err.value.message, "transport", nowMs))]
    {
      result, err, posts, sleeps := None, None, [], [];
      if e.EncodeFailed? {
        return None, Some(SendError(e.message, false)), [], [];
      }
      if maxCompressedBodyBytes > 0 && |e.body| > maxCompressedBodyBytes {
        return None, Some(TooLargeError(|e.body|, maxCompressedBodyBytes)), [], [];
      }
      var maxAttempts := maxRetries + 1;
      result, err, posts, sleeps := TryPosts(e.body, w, maxAttempts);
      RepliesAreReturned(e.body, w, maxAttempts);
      if err.Some? {
        errorCollector.Report(UnreachableError(err.value, nowMs), now);
        return None, err, posts, sleeps;
      }
      lastSendStats := SendStats(e.originalBytes, |e.body|, e.encodeMs);
    }

    /** The loop of Send. */
    method TryPosts(body: seq<Byte>, w: World, maxAttempts: int)
      returns (result: Option<Reply>, lastErr: Option<SendError>, posts: seq<seq<Byte>>, sleeps: seq<int>)
      ensures var end := Attempts(w, 0, maxAttempts, None);
              && result == end.result && lastErr == end.err
              && posts == Copies(body, end.posts) && sleeps == SleepLog(end.reached)
      ensures lastErr.Some? ==> result.None?
    {
      result, lastErr, posts, sleeps := None, None, [], [];
      var attempt := 0;
      ghost var end := Attempts(w, attempt, maxAttempts, lastErr);
      while attempt < maxAttempts
        invariant 0 <= attempt
        invariant attempt > 0 ==> attempt <= maxAttempts
        invariant result == None
        invariant end == Attempts(w, attempt, maxAttempts, lastErr)
        invariant posts == Copies(body, attempt)
        invariant sleeps == SleepLog(if attempt == 0 then 0 else attempt - 1)
      {
        if attempt > 0 {
          sleeps := sleeps + [Slept(attempt - 1)];
        }
        var posted, again;
        result, lastErr, posted, again := TryOnce(w, attempt, maxAttempts, lastErr);
        if posted {
          posts := posts + [body];
        }
        if !again {
          assert posts == Copies(body, end.posts);
          return;
        }
        attempt := attempt + 1;
      }
    }

    /** One pass of the loop: look at the context, post, and classify the error. */
    method TryOnce(w: World, attempt: nat, ghost max: int, ghost before: Option<SendError>)
      returns (result: Option<Reply>, err: Option<SendError>, posted: bool, again: bool)
      requires attempt < max
      ensures again ==> posted && result == None
      ensures err.Some? ==> result == None
      ensures Attempts(w, attempt, max, before) ==
              if again then Attempts(w, attempt + 1, max, err)
              else LoopEnd(result, err, if posted then attempt + 1 else attempt, attempt)
    {
      AttemptStep(w, attempt, max, before);
      if w.cancelled(attempt).Some? {
        return None, Some(CancelError(attempt, w.cancelled(attempt).value)), false, false;
      }
      var outcome := PostResult(w.outcome(attempt));
      match outcome {
        case Err(x) => return None, Some(x), true, !IsNonRetryable(x);
        case Ok(v) => return Some(v), None, true, false;
      }
    }
  }

  // ---- What the loop does ----

  lemma {:induction false} SkipRetries(w: World, from: nat, n: nat, max: int, lastErr: Option<SendError>)
    requires from <= n <= max
    requires forall k :: from <= k < n ==> Retries(w, k)
    ensures Attempts(w, from, max, lastErr) ==
            Attempts(w, n, max, if n == from then lastErr else ErrorAt(w, n - 1))
    decreases n - from
  {
    if from < n {
      assert Retries(w, from);
      SkipRetries(w, from + 1, n, max, Some(PostResult(w.outcome(from)).error));
    }
  }

  /** The loop stops at the first attempt that is not to be retried: before posting if the
      context is cancelled, after posting on a success or a final error. */
  lemma StopsAtFirstDecision(w: World, n: nat, max: int)
    requires n < max && !Retries(w, n)
    requires forall k :: 0 <= k < n ==> Retries(w, k)
    ensures var end := Attempts(w, 0, max, None);
            && end.reached == n
            && end.posts == (if w.cancelled(n).Some? then n else n + 1)
            && end.result == (if w.cancelled(n).None? then ReplyAt(w, n) else None)
            && end.err == (if w.cancelled(n).Some? then Some(CancelError(n, w.cancelled(n).value)) else ErrorAt(w, n))
  {
    SkipRetries(w, 0, n, max, None);
  }

  /** If every attempt is to be retried, all are made and the last error is returned. */
  lemma ExhaustsAttempts(w: World, max: int)
    requires max >= 1
    requires forall k :: 0 <= k < max ==> Retries(w, k)
    ensures Attempts(w, 0, max, None)
         == LoopEnd(None, ErrorAt(w, max - 1), max, max - 1)
    ensures ErrorAt(w, max - 1).Some?
  {
    SkipRetries(w, 0, max, max, None);
    assert Retries(w, max - 1);
  }

  /** Send returns exactly one of result and error precisely when MaxRetries is not
      negative, and then makes at most MaxRetries + 1 posts. */
  lemma {:induction false} ExactlyOneResultIff(w: World, maxRetries: int)
    ensures var end := Attempts(w, 0, maxRetries + 1, None);
            (end.result.Some? <==> end.err.None?) <==> maxRetries >= 0
    ensures maxRetries >= 0 ==> Attempts(w, 0, maxRetries + 1, None).posts <= maxRetries + 1
    ensures maxRetries >= 0 ==> Attempts(w, 0, maxRetries + 1, None).reached <= maxRetries
  {
    if maxRetries >= 0 {
      AttemptsBounded(w, 0, maxRetries + 1, None);
    }
  }

  lemma {:induction false} AttemptsBounded(w: World, n: nat, max: int, lastErr: Option<SendError>)
    requires n < max || (n == max && n > 0 && lastErr.Some?)
    ensures var end := Attempts(w, n, max, lastErr);
            (end.result.Some? <==> end.err.None?) && end.posts <= max && end.reached < max
    decreases max - n
  {
    if n < max && Retries(w, n) {
      AttemptsBounded(w, n + 1, max, Some(PostResult(w.outcome(n)).error));
    }
  }

  /** Classification and retry together: a server that always answers one status other than
      200 gets a single post if the status is final, and MaxRetries + 1 posts otherwise. */
  lemma PostsForConstantStatus(w: World, status: int, maxRetries: int)
    requires status != 200 && maxRetries >= 0
    requires forall k: nat :: w.cancelled(k).None? && w.outcome(k).Answered? && w.outcome(k).response.status == status
    ensures Attempts(w, 0, maxRetries + 1, None).posts == if IsFinalStatus(status) then 1 else maxRetries + 1
    ensures Attempts(w, 0, maxRetries + 1, None).err.Some?
  {
    forall k: nat
      ensures Retries(w, k) <==> !IsFinalStatus(status)
      ensures PostResult(w.outcome(k)).Err?
    {
      ClassificationFollowsStatus(w.outcome(k).response);
    }
    if IsFinalStatus(status) {
      StopsAtFirstDecision(w, 0, maxRetries + 1);
    } else {
      ExhaustsAttempts(w, maxRetries + 1);
    }
  }

  // ---- The loop by what the server answers ----

  lemma RepliesAreReturned(body: seq<Byte>, w: World, max: int)
    ensures var end := Attempts(w, 0, max, None);
            && (max > 0 && w.cancelled(0).None? ==> end.posts >= 1)
            && |Copies(body, end.posts)| == end.posts && |SleepLog(end.reached)| == end.reached
            && (end.posts >= 1 ==> Copies(body, end.posts)[0] == body)
            && forall n: nat, v :: n < max && RepliesAt(w, n, v) ==>
                 end == LoopEnd(Some(v), None, n + 1, n)
  {
    var end := Attempts(w, 0, max, None);
    CopiesAreBody(body, end.posts);
    SleepLogTotal(end.reached);
    if max > 0 {
      PostsGrow(w, 0, max, None);
    }
    forall n: nat, v | n < max && RepliesAt(w, n, v)
      ensures end == LoopEnd(Some(v), None, n + 1, n)
    {
      ReplyReturned(w, n, max, v);
    }
  }

  lemma {:induction false} PostsGrow(w: World, n: nat, max: int, lastErr: Option<SendError>)
    requires n <= max
    ensures Attempts(w, n, max, lastErr).posts >= n
    ensures n < max && w.cancelled(n).None? ==> Attempts(w, n, max, lastErr).posts >= n + 1
    decreases max - n
  {
    if n < max {
      AttemptStep(w, n, max, lastErr);
      if Retries(w, n) {
        PostsGrow(w, n + 1, max, ErrorAt(w, n));
      }
    }
  }

  /** The attempt is made and answered with this status. */
  predicate AnsweredWith(w: World, n: nat, status: int) {
    w.cancelled(n).None? && w.outcome(n).Answered? && w.outcome(n).response.status == status
  }

  /** The attempt is made, and neither a reply nor anything final comes of it. */
  ghost predicate Inconclusive(w: World, n: nat) {
    && w.cancelled(n).None?
    && match w.outcome(n)
       case NoAnswer(message) => !SaysFinal(message)
       case Answered(r) =>
         if r.status == 200
         then r.reply.Err? && !SaysFinal("transport: " + "failed to decode 200 response: " + r.reply.error)
         else r.status !in {401, 402, 403, 404, 410, 411, 413, 415}
  }

  /** Exactly these attempts are tried again. */
  lemma RetriesIff(w: World, n: nat)
    ensures Retries(w, n) <==> Inconclusive(w, n)
  {
    match w.outcome(n) {
      case NoAnswer(message) => NamesFinalIff(message);
      case Answered(r) =>
        if r.status == 200 {
          if r.reply.Err? {
            NamesFinalIff(TRANSPORT + "failed to decode 200 response: " + r.reply.error);
          }
        } else {
          ClassificationFollowsStatus(r);
        }
    }
  }

  /** The first conclusive attempt is answered 200 with this reply. */
  ghost predicate RepliesAt(w: World, n: nat, v: Reply) {
    && (forall k :: 0 <= k < n ==> Inconclusive(w, k))
    && AnsweredWith(w, n, 200) && w.outcome(n).response.reply == Ok(v)
  }

  /** Then the loop returns exactly that reply, after that attempt's post. */
  lemma ReplyReturned(w: World, n: nat, max: int, v: Reply)
    requires n < max && RepliesAt(w, n, v)
    ensures Attempts(w, 0, max, None) == LoopEnd(Some(v), None, n + 1, n)
  {
    forall k: nat {
      RetriesIff(w, k);
    }
    assert !Inconclusive(w, n);
    StopsAtFirstDecision(w, n, max);
  }

  /** A final status ends the loop with an error that says so, after that attempt's post. */
  lemma FinalStatusReturned(w: World, n: nat, max: int, status: int)
    requires n < max && (forall k :: 0 <= k < n ==> Inconclusive(w, k))
    requires AnsweredWith(w, n, status) && status in {401, 402, 403, 404, 410, 411, 413, 415}
    ensures var end := Attempts(w, 0, max, None);
            && end.result.None? && end.posts == n + 1 && end.reached == n
            && end.err.Some? && SaysFinal(end.err.value.message)
  {
    forall k: nat {
      RetriesIff(w, k);
    }
    assert !Inconclusive(w, n);
    StopsAtFirstDecision(w, n, max);
    FinalStatusNamed(w.outcome(n).response);
    NamesFinalIff(ErrorAt(w, n).value.message);
  }

  /** A cancellation ends it before that attempt's post, with the context's error. */
  lemma CancellationReturned(w: World, n: nat, max: int)
    requires n < max && (forall k :: 0 <= k < n ==> Inconclusive(w, k))
    requires w.cancelled(n).Some?
    ensures Attempts(w, 0, max, None) ==
            LoopEnd(None, Some(SendError("transport: context canceled before attempt " + FormatInt(n + 1) + ": "
                                         + w.cancelled(n).value, false)), n, n)
  {
    forall k: nat {
      RetriesIff(w, k);
    }
    StopsAtFirstDecision(w, n, max);
  }

  // ---- Sleep totals and the int64 bound ----

  lemma {:induction false} Pow2Monotone(m: nat, n: nat)
    requires m <= n
    ensures 0 < Pow2(m) <= Pow2(n)
    decreases n
  {
    if m < n {
      Pow2Monotone(m, n - 1);
    } else if m > 0 {
      Pow2Monotone(m - 1, n - 1);
    }
  }

  lemma Pow2At34()
    ensures Pow2(33) == 8589934592 && Pow2(34) == 17179869184
  {
    assert Pow2(8) == 256;
    assert Pow2(16) == 65536;
    assert Pow2(24) == 16777216;
    assert Pow2(32) == 4294967296;
  }

  /** The sleep before attempt n + 1 fits int64 nanoseconds exactly when n <= 33. */
  lemma {:induction false} SleepFitsIff(n: nat)
    ensures Pow2(n) * SECOND <= MAX_INT64 <==> n <= 33
    ensures n <= 33 ==> Slept(n) == Pow2(n) * SECOND
  {
    Pow2At34();
    if n <= 33 {
      Pow2Monotone(n, 33);
    } else {
      Pow2Monotone(34, n);
    }
  }

  /** Every sleep a Send can make fits int64 nanoseconds if and only if MaxRetries <= 34. */
  lemma {:induction false} AllSleepsFitIff(maxRetries: nat)
    ensures (forall n: nat :: n < maxRetries ==> Pow2(n) * SECOND <= MAX_INT64) <==> maxRetries <= 34
  {
    forall n: nat {
      SleepFitsIff(n);
    }
    if maxRetries > 34 {
      SleepFitsIff(34);
      assert Pow2(34) * SECOND > MAX_INT64;
    }
  }

  lemma {:induction false} TotalSleptExact(n: nat)
    requires n <= 34
    ensures TotalSlept(n) == (Pow2(n) - 1) * SECOND
  {
    if n > 0 {
      TotalSleptExact(n - 1);
      SleepFitsIff(n - 1);
    }
  }

  /** 2^34 seconds wrap to a negative duration. */
  lemma SleepWraps()
    ensures Slept(34) == 0
  {
    Pow2At34();
    assert 17179869184 * SECOND == 17179869184000000000;
    assert Wrap64(17179869184000000000) == 17179869184000000000 - TWO_TO_64;
  }

  lemma WaitIsLost(a: nat)
    requires a == 35
    ensures TotalSlept(a) != (Pow2(a) - 1) * SECOND
  {
    TotalSleptExact(a - 1);
    SleepWraps();
    Pow2Monotone(0, a - 1);
    assert TotalSlept(a) == TotalSlept(a - 1);
    assert Pow2(a) == 2 * Pow2(a - 1);
  }

  /** Reaching attempt index a takes exactly 2^a - 1 seconds of sleep, for every a the loop
      can reach, if and only if MaxRetries <= 34: the 35th wait would wrap to a negative
      duration and not sleep at all. */
  lemma {:induction false} TotalSleepIff(maxRetries: nat)
    ensures (forall a: nat :: a <= maxRetries ==> TotalSlept(a) == (Pow2(a) - 1) * SECOND) <==> maxRetries <= 34
  {
    if maxRetries <= 34 {
      forall a: nat | a <= maxRetries {
        TotalSleptExact(a);
      }
    } else {
      var a := 35;
      WaitIsLost(a);
      assert a <= maxRetries;
    }
  }

  function Nanoseconds(d: int): int { d }

  lemma {:induction false} SleepLogTotal(n: nat)
    ensures |SleepLog(n)| == n && SumInt(SleepLog(n), Nanoseconds) == TotalSlept(n)
  {
    if n > 0 {
      SleepLogTotal(n - 1);
      assert SleepLog(n)[..n - 1] == SleepLog(n - 1);
    }
  }

  lemma {:induction false} CopiesAreBody(body: seq<Byte>, n: nat)
    ensures |Copies(body, n)| == n && forall i :: 0 <= i < n ==> Copies(body, n)[i] == body
  {
    if n > 0 {
      CopiesAreBody(body, n - 1);
    }
  }
}
