/** The retry loop of the HTTP adapter. */
module HttpSend {
  import opened Prelude

  datatype Response = Response(status: int, text: string)

  /** What one request can come to. */
  datatype Outcome = TimedOut | ConnectionFailed | Responded(resp: Response)

  datatype DispatchError = DispatchError(code: int, kind: string, upstreamStatus: Option<int>)

  const RETRYABLE_STATUS: set<int> := {502, 503, 504}

  /** `_interpret`: a 2xx body, or the gateway's error for the status. */
  function Interpret(resp: Response): Result<string, DispatchError> {
    var status := resp.status;
    if 200 <= status < 300 then Ok(resp.text)
    else if status == 401 || status == 403 then Err(DispatchError(-32001, "upstream_denied", Some(status)))
    else if status == 404 then Err(DispatchError(-32001, "upstream_not_found", Some(status)))
    else if status == 400 then Err(DispatchError(-32602, "upstream_bad_request", Some(status)))
    else Err(DispatchError(-32603, "upstream_error", Some(status)))
  }

  predicate Retryable(o: Outcome) {
    o.Responded? ==> o.resp.status in RETRYABLE_STATUS
  }

  /** The result an outcome leads to when it is not retried. */
  function Decide(o: Outcome): Result<string, DispatchError> {
    match o
    case TimedOut => Err(DispatchError(-32603, "upstream_timeout", None))
    case ConnectionFailed => Err(DispatchError(-32603, "upstream_error", None))
    case Responded(resp) => Interpret(resp)
  }

  /** The first attempt at or after the i-th that is final: not retryable, or the budget is spent. */
  function FinalAttempt(outcomes: nat -> Outcome, retries: int, i: nat): (k: nat)
    ensures i <= k
    ensures k >= retries || !Retryable(outcomes(k))
    ensures forall j | i <= j < k :: Retryable(outcomes(j)) && j < retries
    decreases retries - i
  {
    if i >= retries || !Retryable(outcomes(i)) then i else FinalAttempt(outcomes, retries, i + 1)
  }

  function Power2(n: nat): nat {
    if n == 0 then 1 else 2 * Power2(n - 1)
  }

  function Total(sleeps: seq<real>): real {
    if sleeps == [] then 0.0 else Total(sleeps[..|sleeps| - 1]) + sleeps[|sleeps| - 1]
  }

  function Delay(base: real, i: nat): real {
    base * Power2(i) as real
  }

  /** Exponential backoff: base, 2 base, 4 base, ... */
  function Backoff(base: real, n: nat): (sleeps: seq<real>)
    ensures |sleeps| == n
  {
    if n == 0 then [] else Backoff(base, n - 1) + [Delay(base, n - 1)]
  }

  lemma {:induction false} TotalBackoff(base: real, n: nat)
    ensures Total(Backoff(base, n)) == base * (Power2(n) as real - 1.0)
  {
    if n > 0 {
      TotalBackoff(base, n - 1);
      assert Backoff(base, n)[..n - 1] == Backoff(base, n - 1);
    }
  }

  /** `_send`: with k the final attempt, k + 1 requests, k sleeps that add up to
      base * (2^k - 1), and a result decided by outcome k alone. */
  method Send(outcomes: nat -> Outcome, retries: int, base: real)
    returns (r: Result<string, DispatchError>, sent: nat, sleeps: seq<real>)
    ensures var k := FinalAttempt(outcomes, retries, 0);
      && sent == k + 1
      && r == Decide(outcomes(k))
      && sleeps == Backoff(base, k)
      && Total(sleeps) == base * (Power2(k) as real - 1.0)
  {
    var attempt: nat := 0;
    var lastException: Option<Outcome> := None;
    sent, sleeps := 0, [];
    while true
      invariant sent == attempt
      invariant sleeps == Backoff(base, attempt)
      invariant attempt > 0 ==> attempt <= retries
      invariant FinalAttempt(outcomes, retries, 0) == FinalAttempt(outcomes, retries, attempt)
      decreases retries - attempt
    {
      var outcome := outcomes(sent);
      sent := sent + 1;
      if outcome.Responded? {
        if outcome.resp.status in RETRYABLE_STATUS && attempt < retries {
          attempt := attempt + 1;
          sleeps := sleeps + [Delay(base, attempt - 1)];
          continue;
        }
        TotalBackoff(base, attempt);
        return Interpret(outcome.resp), sent, sleeps;
      }
      lastException := Some(outcome);
      if attempt >= retries {
        TotalBackoff(base, attempt);
        return Decide(outcome), sent, sleeps;
      }
      attempt := attempt + 1;
      sleeps := sleeps + [Delay(base, attempt - 1)];
      if attempt > retries && lastException.Some? {
        assert false;
      }
    }
  }

  // ---------- What comes of a call ----------

  /** Failures that may pass: no response in time, no connection, or a bad gateway, an unavailable
      service or a gateway timeout. */
  predicate Transient(o: Outcome) {
    o.TimedOut? || o.ConnectionFailed? || o.resp.status == 502 || o.resp.status == 503 || o.resp.status == 504
  }

  predicate Successful(o: Outcome) {
    o.Responded? && 200 <= o.resp.status <= 299
  }

  /** The gateway's error for an outcome that is no success, by what the upstream said. */
  predicate ErrorFor(o: Outcome, e: DispatchError) {
    && (e.upstreamStatus == if o.Responded? then Some(o.resp.status) else None)
    && (e.code == -32001 <==> o.Responded? && o.resp.status in {401, 403, 404})
    && (e.code == -32602 <==> o.Responded? && o.resp.status == 400)
    && e.code in {-32001, -32602, -32603}
    && (e.kind == "upstream_timeout" <==> o.TimedOut?)
    && (e.kind == "upstream_denied" <==> o.Responded? && o.resp.status in {401, 403})
    && (e.kind == "upstream_not_found" <==> o.Responded? && o.resp.status == 404)
    && (e.kind == "upstream_bad_request" <==> o.Responded? && o.resp.status == 400)
    && e.kind in {"upstream_timeout", "upstream_denied", "upstream_not_found", "upstream_bad_request", "upstream_error"}
  }

  /** The first attempt within the budget that meets a success after transient failures only. */
  ghost predicate SucceedsAt(outcomes: nat -> Outcome, retries: int, i: nat) {
    && (i == 0 || i <= retries) && Successful(outcomes(i))
    && forall j | 0 <= j < i :: Transient(outcomes(j))
  }

  lemma DecisionMeans(o: Outcome)
    ensures Retryable(o) <==> Transient(o)
    ensures Decide(o).Ok? <==> Successful(o)
    ensures Decide(o).Ok? ==> Decide(o).value == o.resp.text
    ensures Decide(o).Err? ==> ErrorFor(o, Decide(o).error)
  {
    assert "upstream_timeout"[9] == 't' && "upstream_denied"[9] == 'd' && "upstream_not_found"[9] == 'n';
    assert "upstream_bad_request"[9] == 'b' && "upstream_error"[9] == 'e';
  }

  /** A call succeeds exactly when some attempt within the budget does, all before it having met
      transient failures only, and then with that attempt's text; a failure is told by the last
      attempt, which is the first that is not transient or the last the budget allows. */
  lemma ResultMeans(outcomes: nat -> Outcome, retries: int)
    ensures var k := FinalAttempt(outcomes, retries, 0);
      var r := Decide(outcomes(k));
      && (r.Ok? <==> exists i :: SucceedsAt(outcomes, retries, i))
      && (forall i | SucceedsAt(outcomes, retries, i) :: r == Ok(outcomes(i).resp.text))
      && (r.Err? ==> ErrorFor(outcomes(k), r.error))
      && (forall j | 0 <= j < k :: Transient(outcomes(j)))
      && (k == 0 || k <= retries) && (k < retries ==> !Transient(outcomes(k)))
  {
    hide Decide, Retryable, ErrorFor, Transient;
    var k := FinalAttempt(outcomes, retries, 0);
    DecisionMeans(outcomes(k));
    if k > 0 { assert Retryable(outcomes(k - 1)); }
    forall j | 0 <= j < k ensures Transient(outcomes(j)) {
      DecisionMeans(outcomes(j));
    }
    if Decide(outcomes(k)).Ok? {
      assert SucceedsAt(outcomes, retries, k);
    }
    forall i | SucceedsAt(outcomes, retries, i) ensures i == k {
      DecisionMeans(outcomes(i));
      SuccessIsFinal(outcomes(i));
      assert i > k ==> Transient(outcomes(k));
    }
  }

  lemma SuccessIsFinal(o: Outcome)
    requires Successful(o)
    ensures !Transient(o)
  {
  }
}
