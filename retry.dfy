/**
 * doRequestWithRetry: the prepared request is sent under exponential
 * backoff until an attempt is final. The outcome of each attempt of
 * client.Do is given, in order, as an Attempt; the 15-second elapsed-time
 * budget of the backoff policy becomes maxAttempts, the number of attempts
 * the budget admits (the first attempt is always made). The variables the
 * retried closure captures and updates are the fields of a RetryState.
 */
module Retry {
  import opened Wrappers
  import opened Decimal
  import opened Query
  import opened Envelope

  /** An HTTP response: its status code and its body. */
  datatype Response = Response(status: int, body: Body)

  /** The outcome of one call to client.Do. */
  datatype Attempt = TransportError(message: string) | Received(response: Response)

  /** The prepared GET request: the query it carries. */
  datatype Request = Request(query: Values)

  /** http.StatusInternalServerError, http.StatusServiceUnavailable, http.StatusGatewayTimeout. */
  predicate IsRetryableStatus(status: int) {
    status == 500 || status == 503 || status == 504
  }

  predicate IsRetryable(a: Attempt) {
    a.Received? && IsRetryableStatus(a.response.status)
  }

  const NilRequestError := "req is nil"
  const UnsuccessfulResponseError := "unsuccessful response from CCB service"

  function RetryFailure(retryCount: int, reason: string): string {
    "failed to call CCB service after " + Itoa(retryCount) + " retries: " + reason
  }

  /** What the retried operation returns to backoff.Retry: nil, a Permanent error, or an error to retry on. */
  datatype OpResult = Success | Permanent(error: string) | Transient(error: string)

  /** The variables captured by the retried closure. */
  class RetryState {
    var resp: Option<Response>
    var retryRespStatusCode: int
    var retryCount: nat
    var retryErr: Option<string>

    constructor ()
      ensures resp == None && retryRespStatusCode == 0 && retryCount == 0 && retryErr == None
    {
      resp := None;
      retryRespStatusCode := 0;
      retryCount := 0;
      retryErr := None;
    }

    /** handleRetryError: counts a retryable failure and records its error and status. */
    method HandleRetryError(e: Option<string>) returns (r: Option<string>)
      modifies this
      ensures r == e && resp == old(resp)
      ensures e.None? ==>
        retryCount == old(retryCount) && retryErr == old(retryErr)
        && retryRespStatusCode == old(retryRespStatusCode)
      ensures e.Some? ==>
        && retryCount == old(retryCount) + 1
        && retryErr == e
        && retryRespStatusCode == (if old(resp).Some? then old(resp).value.status else old(retryRespStatusCode))
    {
      if e.None? {
        return None;
      }
      retryCount := retryCount + 1;
      if resp.Some? {
        retryRespStatusCode := resp.value.status;
      }
      retryErr := e;
      return retryErr;
    }

    /**
     * The retried closure: one call to client.Do, whose outcome is given.
     * A transport error is permanent; status 500, 503 or 504 is retried;
     * any other status ends the loop.
     */
    method Operation(outcome: Attempt) returns (op: OpResult)
      modifies this
      ensures resp == (if outcome.Received? then Some(outcome.response) else None)
      ensures IsRetryable(outcome) ==>
        && op == Transient(UnsuccessfulResponseError)
        && retryCount == old(retryCount) + 1
        && retryErr == Some(UnsuccessfulResponseError)
        && retryRespStatusCode == outcome.response.status
      ensures !IsRetryable(outcome) ==>
        && op == (if outcome.TransportError? then Permanent(outcome.message) else Success)
        && retryCount == old(retryCount) && retryErr == old(retryErr)
        && retryRespStatusCode == old(retryRespStatusCode)
    {
      match outcome
      case TransportError(m) =>
        resp := None;
        return Permanent(m);
      case Received(response) =>
        resp := Some(response);
        if IsRetryableStatus(response.status) {
          var e := HandleRetryError(Some(UnsuccessfulResponseError));
          return Transient(e.value);
        }
        return Success;
    }
  }

  /**
   * The number of leading attempts that are retryable responses: where the
   * retry loop settles, if it settles within s.
   */
  function FirstFinal(s: seq<Attempt>): (k: nat)
    ensures k <= |s|
    ensures forall j :: 0 <= j < k ==> IsRetryable(s[j])
    ensures k < |s| ==> !IsRetryable(s[k])
  {
    if s == [] || !IsRetryable(s[0]) then 0 else 1 + FirstFinal(s[1..])
  }

  /** What doRequestWithRetry returns, with the number of attempts made and the final retryCount. */
  datatype RetryResult = RetryResult(result: Result<Response, string>, attempts: nat, retryCount: nat)

  /**
   * The reference outcome of the retry loop on a non-nil request: the first
   * attempt within the budget that is not a retryable response decides it;
   * if every admitted attempt is retryable, the budget is exhausted.
   */
  function RetrySpec(outcomes: seq<Attempt>, maxAttempts: nat): RetryResult
    requires 0 < maxAttempts <= |outcomes|
  {
    var k := FirstFinal(outcomes[..maxAttempts]);
    if k == maxAttempts then
      RetryResult(Err(RetryFailure(maxAttempts, UnsuccessfulResponseError)), maxAttempts, maxAttempts)
    else match outcomes[k]
      case TransportError(m) => RetryResult(Err(RetryFailure(k, m)), k + 1, k)
      case Received(resp) => RetryResult(Ok(resp), k + 1, k)
  }

  /**
   * doRequestWithRetry: a nil request fails at once with no attempt;
   * otherwise the backoff loop runs the operation until it succeeds, fails
   * permanently, or the budget admits no further attempt.
   */
  method DoRequestWithRetry(req: Option<Request>, outcomes: seq<Attempt>, maxAttempts: nat)
    returns (result: Result<Response, string>, attempts: nat, retryCount: nat)
    requires req.Some? ==> 0 < maxAttempts <= |outcomes|
    ensures req.None? ==> result == Err(NilRequestError) && attempts == 0 && retryCount == 0
    ensures req.Some? ==> RetryResult(result, attempts, retryCount) == RetrySpec(outcomes, maxAttempts)
  {
    if req.None? {
      return Err(NilRequestError), 0, 0;
    }
    var st := new RetryState();
    var i := 0;
    var err: Option<string> := None;
    var done := false;
    ghost var s := outcomes[..maxAttempts];
    ghost var k := FirstFinal(s);
    while !done
      invariant 0 <= i <= maxAttempts
      invariant !done ==> i <= k && i < maxAttempts && st.retryCount == i && err.None?
      invariant done && k == maxAttempts ==>
        i == maxAttempts && st.retryCount == i && err == Some(UnsuccessfulResponseError)
      invariant done && k < maxAttempts ==>
        && i == k + 1 && st.retryCount == k
        && (outcomes[k].TransportError? ==> err == Some(outcomes[k].message))
        && (outcomes[k].Received? ==> err.None? && st.resp == Some(outcomes[k].response))
      decreases maxAttempts - i
    {
      assert s[i] == outcomes[i];
      var op := st.Operation(outcomes[i]);
      i := i + 1;
      match op
      case Success =>
        done := true;
      case Permanent(e) =>
        err := Some(e);
        done := true;
      case Transient(e) =>
        // The backoff policy stops once the elapsed-time budget is spent.
        if i == maxAttempts {
          err := Some(e);
          done := true;
        }
    }
    attempts := i;
    retryCount := st.retryCount;
    if err.Some? {
      result := Err(RetryFailure(st.retryCount, err.value));
    } else {
      result := Ok(st.resp.value);
    }
  }

  /** The number of retryable responses among the attempts. */
  function CountRetryable(s: seq<Attempt>): nat {
    if s == [] then 0 else CountRetryable(s[..|s| - 1]) + (if IsRetryable(s[|s| - 1]) then 1 else 0)
  }

  lemma {:induction false} CountAllRetryable(s: seq<Attempt>)
    requires forall j :: 0 <= j < |s| ==> IsRetryable(s[j])
    ensures CountRetryable(s) == |s|
  {
    if s != [] {
      CountAllRetryable(s[..|s| - 1]);
    }
  }

  /**
   * What the retry loop promises: every attempt but the last was a
   * retryable response; retryCount is exactly the number of retryable
   * responses seen; the loop succeeds exactly when the last attempt got a
   * status other than 500, 503 and 504, and then returns that response
   * unchanged; a transport error ends the loop at once with an error
   * carrying the retry count; when every admitted attempt is retryable the
   * budget is used up.
   */
  lemma RetrySpecProperties(outcomes: seq<Attempt>, maxAttempts: nat)
    requires 0 < maxAttempts <= |outcomes|
    ensures var r := RetrySpec(outcomes, maxAttempts);
      && 1 <= r.attempts <= maxAttempts
      && (forall j :: 0 <= j < r.attempts - 1 ==> IsRetryable(outcomes[j]))
      && r.retryCount == CountRetryable(outcomes[..r.attempts])
      && (r.result.Ok? <==> outcomes[r.attempts - 1].Received? && !IsRetryable(outcomes[r.attempts - 1]))
      && (r.result.Ok? ==> r.result.value == outcomes[r.attempts - 1].response)
      && (outcomes[r.attempts - 1].TransportError? ==>
            r.result == Err(RetryFailure(r.retryCount, outcomes[r.attempts - 1].message)))
      && (IsRetryable(outcomes[r.attempts - 1]) ==>
            r.attempts == maxAttempts && r.result == Err(RetryFailure(maxAttempts, UnsuccessfulResponseError)))
  {
    var s := outcomes[..maxAttempts];
    var k := FirstFinal(s);
    var r := RetrySpec(outcomes, maxAttempts);
    assert forall j :: 0 <= j < k ==> IsRetryable(outcomes[j]) by {
      forall j | 0 <= j < k ensures IsRetryable(outcomes[j]) { assert s[j] == outcomes[j]; }
    }
    if k == maxAttempts {
      assert outcomes[..r.attempts] == s;
      CountAllRetryable(s);
    } else {
      assert s[k] == outcomes[k];
      var p := outcomes[..k + 1];
      assert p[..k] == outcomes[..k];
      CountAllRetryable(outcomes[..k]);
    }
  }

  /** FirstFinal of a sequence is determined by any prefix that already holds a final attempt. */
  lemma {:induction false} FirstFinalPrefix(s: seq<Attempt>, n: nat)
    requires n <= |s| && FirstFinal(s[..n]) < n
    ensures FirstFinal(s) == FirstFinal(s[..n])
    decreases n
  {
    if IsRetryable(s[0]) {
      assert s[..n][0] == s[0];
      assert s[..n][1..] == s[1..][..n - 1];
      FirstFinalPrefix(s[1..], n - 1);
    } else {
      assert s[..n][0] == s[0];
    }
  }

  /**
   * A loop that settled before its budget ran out settles the same way
   * under any larger budget: the budget only matters when every admitted
   * attempt is retryable.
   */
  lemma RetryBudgetOnlyBoundsRetries(outcomes: seq<Attempt>, m: nat, m': nat)
    requires 0 < m <= m' <= |outcomes|
    requires !IsRetryable(outcomes[RetrySpec(outcomes, m).attempts - 1])
    ensures RetrySpec(outcomes, m') == RetrySpec(outcomes, m)
  {
    var k := FirstFinal(outcomes[..m]);
    if k < m {
      assert outcomes[..m'][..m] == outcomes[..m];
      FirstFinalPrefix(outcomes[..m'], m);
    }
  }

  /** Outcomes [503, 503, 200]: three attempts, retryCount 2, and the 200 response is returned. */
  lemma RetryTwiceThenOk(outcomes: seq<Attempt>, maxAttempts: nat, b1: Body, b2: Body, b3: Body)
    requires 3 <= maxAttempts <= |outcomes|
    requires outcomes[..3] == [Received(Response(503, b1)), Received(Response(503, b2)), Received(Response(200, b3))]
    ensures RetrySpec(outcomes, maxAttempts) == RetryResult(Ok(Response(200, b3)), 3, 2)
  {
    var s := outcomes[..maxAttempts];
    assert s[0] == outcomes[..3][0] && s[1] == outcomes[..3][1] && s[2] == outcomes[..3][2];
    var t := s[1..];
    var u := t[1..];
    assert t[0] == s[1] && u[0] == s[2];
    assert FirstFinal(u) == 0;
    assert FirstFinal(t) == 1;
    assert FirstFinal(s) == 2;
  }

  /** When every admitted attempt is answered 500, 503 or 504, the budget is exhausted and the call fails. */
  lemma AllRetryableExhausts(outcomes: seq<Attempt>, maxAttempts: nat)
    requires 0 < maxAttempts <= |outcomes|
    requires forall j :: 0 <= j < maxAttempts ==> IsRetryable(outcomes[j])
    ensures RetrySpec(outcomes, maxAttempts) ==
      RetryResult(Err(RetryFailure(maxAttempts, UnsuccessfulResponseError)), maxAttempts, maxAttempts)
  {
    var s := outcomes[..maxAttempts];
    assert forall j :: 0 <= j < |s| ==> s[j] == outcomes[j];
  }

  /** A transport error on the first attempt: one attempt, no retry, and the error is returned. */
  lemma TransportErrorIsPermanent(outcomes: seq<Attempt>, maxAttempts: nat, message: string)
    requires 0 < maxAttempts <= |outcomes| && outcomes[0] == TransportError(message)
    ensures RetrySpec(outcomes, maxAttempts) == RetryResult(Err(RetryFailure(0, message)), 1, 0)
  {
    assert outcomes[..maxAttempts][0] == outcomes[0];
  }
}
