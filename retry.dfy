/**
 * `retrieveFromUrlWaiting`: fetch a response, retrying while the server
 * answers 503 Service Unavailable (section 6.6.4 of RFC 7231) and sleeping
 * for its Retry-After hint (section 7.1.3 of RFC 7231) between attempts.
 *
 * The request is the function `transport`: `transport(i)` is what the
 * i-th `urllib2.urlopen(request)` and `read()` give. Sleeping is not
 * modelled, only the durations asked of `time.sleep`.
 */
module RetryLoop {
  import opened Wrappers

  /** The defaults of `wait_default` (two minutes) and `wait_max`. */
  const WaitDefault: int := 120
  const WaitMax: int := 5

  /** The `Retry-After` header of a 503 answer, as `int()` sees it. */
  datatype RetryAfter =
    | Seconds(n: int)   // `int()` parses it
    | NotAnInteger      // present, but `int()` raises ValueError (an HTTP-date, say)
    | Absent            // missing: `int(None)` raises TypeError

  /** What one attempt gives. */
  datatype Outcome =
    | Body(text: string)
    | HttpError(code: int, retryAfter: RetryAfter)
    | OtherFailure      // an exception of `urlopen` that is not an HTTPError

  /** The exceptions that leave the loop. */
  datatype Failure =
    | HttpFailure(code: int)        // an HTTPError other than 503, re-raised
    | RetryAfterMissing             // TypeError from `int(None)`: not caught
    | SleepRejected(seconds: int)   // `time.sleep` raises for a negative duration
    | TransportFailure              // `OtherFailure`, never caught
    | WaitedTooOften(waitMax: int)  // Error("Waited too often (more than %s times)")

  /** The result or exception, the durations slept, and the number of attempts. */
  datatype Retrieval = Retrieval(result: Result<string, Failure>, sleeps: seq<int>, attempts: nat)

  /** The duration `time.sleep` is asked for after a 503 with a header present. */
  function WaitFor(h: RetryAfter, waitDefault: int): int
    requires !h.Absent?
  {
    if h.Seconds? then h.n else waitDefault
  }

  /** An outcome after which the loop sleeps and tries again. */
  predicate Retries(o: Outcome, waitDefault: int) {
    o.HttpError? && o.code == 503 && !o.retryAfter.Absent? && WaitFor(o.retryAfter, waitDefault) >= 0
  }

  /** How the loop leaves at an outcome it does not retry. */
  function Stopped(o: Outcome, waitDefault: int): Result<string, Failure>
    requires !Retries(o, waitDefault)
  {
    match o
    case Body(text) => Ok(text)
    case OtherFailure => Err(TransportFailure)
    case HttpError(code, h) =>
      if code != 503 then Err(HttpFailure(code))
      else if h.Absent? then Err(RetryAfterMissing)
      else Err(SleepRejected(WaitFor(h, waitDefault)))
  }

  /** The loop from attempt `i` on. */
  function RetrieveFrom(transport: nat -> Outcome, i: nat, waitMax: int, waitDefault: int): Retrieval
    decreases waitMax - i
  {
    if waitMax <= i then Retrieval(Err(WaitedTooOften(waitMax)), [], 0)
    else if Retries(transport(i), waitDefault) then
      var rest := RetrieveFrom(transport, i + 1, waitMax, waitDefault);
      Retrieval(rest.result, [WaitFor(transport(i).retryAfter, waitDefault)] + rest.sleeps, rest.attempts + 1)
    else Retrieval(Stopped(transport(i), waitDefault), [], 1)
  }

  /** `r` preceded by the sleeps already done. */
  function After(sleeps: seq<int>, r: Retrieval): Retrieval {
    Retrieval(r.result, sleeps + r.sleeps, r.attempts + |sleeps|)
  }

  lemma AfterAfter(first: seq<int>, second: seq<int>, r: Retrieval)
    ensures After(first, After(second, r)) == After(first + second, r)
  {
    assert first + (second + r.sleeps) == (first + second) + r.sleeps;
  }

  /** The `for ... else` loop of `retrieveFromUrlWaiting`. */
  method RetrieveFromUrlWaiting(transport: nat -> Outcome, waitMax: int, waitDefault: int) returns (r: Retrieval)
    ensures r == RetrieveFrom(transport, 0, waitMax, waitDefault)
  {
    var sleeps: seq<int> := [];
    var i: nat := 0;
    while i < waitMax
      invariant |sleeps| == i
      invariant RetrieveFrom(transport, 0, waitMax, waitDefault) == After(sleeps, RetrieveFrom(transport, i, waitMax, waitDefault))
      decreases waitMax - i
    {
      var outcome := transport(i);
      if outcome.Body? {
        return Retrieval(Ok(outcome.text), sleeps, i + 1);
      } else if outcome.OtherFailure? {
        return Retrieval(Err(TransportFailure), sleeps, i + 1);
      } else if outcome.code != 503 {
        return Retrieval(Err(HttpFailure(outcome.code)), sleeps, i + 1);
      }
      var retryAfter: Option<int>;
      match outcome.retryAfter {
        case Absent => return Retrieval(Err(RetryAfterMissing), sleeps, i + 1);
        case NotAnInteger => retryAfter := None;
        case Seconds(n) => retryAfter := Some(n);
      }
      var seconds := if retryAfter.None? then waitDefault else retryAfter.value;
      if seconds < 0 {
        return Retrieval(Err(SleepRejected(seconds)), sleeps, i + 1);
      }
      AfterAfter(sleeps, [seconds], RetrieveFrom(transport, i + 1, waitMax, waitDefault));
      sleeps := sleeps + [seconds];
      i := i + 1;
    }
    r := Retrieval(Err(WaitedTooOften(waitMax)), sleeps, i);
  }

  function Max(a: int, b: int): int {
    if a < b then b else a
  }

  /** Each sleep follows a 503 the loop retries, and lasts the integer
      Retry-After value, or `wait_default` when the header is not an integer;
      there are never more sleeps than attempts left. */
  lemma {:induction false} SleepsFollowRetryAfter(transport: nat -> Outcome, i: nat, waitMax: int, waitDefault: int)
    ensures var r := RetrieveFrom(transport, i, waitMax, waitDefault);
            i + |r.sleeps| <= Max(i, waitMax)
            && forall j :: i <= j < i + |r.sleeps| ==>
                 Retries(transport(j), waitDefault) && r.sleeps[j - i] == WaitFor(transport(j).retryAfter, waitDefault)
    decreases waitMax - i
  {
    if i < waitMax && Retries(transport(i), waitDefault) {
      SleepsFollowRetryAfter(transport, i + 1, waitMax, waitDefault);
    }
  }

  /** After the sleeps, the loop either ran out of attempts and raised
      `Error`, or stopped at the first outcome it does not retry, with one
      more attempt than sleeps. */
  lemma {:induction false} HowItEnds(transport: nat -> Outcome, i: nat, waitMax: int, waitDefault: int)
    ensures var r := RetrieveFrom(transport, i, waitMax, waitDefault);
            var k := i + |r.sleeps|;
            if k < waitMax then
              !Retries(transport(k), waitDefault) && r.result == Stopped(transport(k), waitDefault)
              && r.attempts == |r.sleeps| + 1
            else
              r.result == Err(WaitedTooOften(waitMax)) && r.attempts == |r.sleeps|
    decreases waitMax - i
  {
    if i < waitMax && Retries(transport(i), waitDefault) {
      HowItEnds(transport, i + 1, waitMax, waitDefault);
    }
  }

  /** The loop raises `Error` exactly when every one of the `wait_max`
      attempts is a 503 it retries, after exactly `wait_max` attempts and
      sleeps (none when `wait_max <= 0`). */
  lemma ExhaustedIffAllRetried(transport: nat -> Outcome, waitMax: int, waitDefault: int)
    ensures var r := RetrieveFrom(transport, 0, waitMax, waitDefault);
            (r.result == Err(WaitedTooOften(waitMax)) <==> forall j :: 0 <= j < waitMax ==> Retries(transport(j), waitDefault))
            && (r.result == Err(WaitedTooOften(waitMax)) ==> |r.sleeps| == r.attempts == Max(0, waitMax))
  {
    var r := RetrieveFrom(transport, 0, waitMax, waitDefault);
    SleepsFollowRetryAfter(transport, 0, waitMax, waitDefault);
    HowItEnds(transport, 0, waitMax, waitDefault);
    if r.result == Err(WaitedTooOften(waitMax)) {
      assert |r.sleeps| == Max(0, waitMax);
    }
  }

  /** Never more than `wait_max` attempts; a body is returned only from the
      first attempt that is not retried, and every attempt before it was a
      503 that was slept on. */
  lemma AttemptsBounded(transport: nat -> Outcome, waitMax: int, waitDefault: int)
    ensures var r := RetrieveFrom(transport, 0, waitMax, waitDefault);
            r.attempts <= Max(0, waitMax)
            && (r.result.Ok? ==> |r.sleeps| < waitMax && transport(|r.sleeps|) == Body(r.result.value)
                                 && forall j :: 0 <= j < |r.sleeps| ==> Retries(transport(j), waitDefault))
  {
    var r := RetrieveFrom(transport, 0, waitMax, waitDefault);
    SleepsFollowRetryAfter(transport, 0, waitMax, waitDefault);
    HowItEnds(transport, 0, waitMax, waitDefault);
  }

  /** The call `retrieveFromUrlWaiting(request)` of `Client.makeRequest`,
      with the defaults: at most five attempts, a two-minute sleep after a
      503 whose Retry-After is not an integer, and "Waited too often"
      exactly when all five attempts are such retried 503s. */
  lemma DefaultPolicy(transport: nat -> Outcome)
    ensures var r := RetrieveFrom(transport, 0, WaitMax, WaitDefault);
            r.attempts <= 5 && |r.sleeps| <= 5
            && (forall j :: 0 <= j < |r.sleeps| && transport(j).HttpError? && transport(j).retryAfter.NotAnInteger? ==>
                  r.sleeps[j] == 120)
            && (r.result == Err(WaitedTooOften(5)) <==> forall j :: 0 <= j < 5 ==> Retries(transport(j), 120))
  {
    SleepsFollowRetryAfter(transport, 0, WaitMax, WaitDefault);
    AttemptsBounded(transport, WaitMax, WaitDefault);
    ExhaustedIffAllRetried(transport, WaitMax, WaitDefault);
  }
}
