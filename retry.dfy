/**
 * The retry controller (the attempt loop of `lookup`,
 * podzamenu_lookup_service.py:466-500, with MAX_RETRIES at 33).
 *
 * Each attempt routes the request once; what the providers would answer on
 * attempt `k` is an input (`pz(k)`, `pr(k)`), so a provider that times out on
 * the first attempt may answer on the second.
 */
module Retry {
  import opened Wrappers
  import opened Text
  import opened LookupTypes
  import opened Router

  /** MAX_RETRIES: one retry, so at most two attempts. */
  const MaxRetries: nat := 1

  /** `"timeout" in str(e).lower() or "Timeout" in type(e).__name__`, for a non-HTTP error. */
  predicate IsTimeout(f: Failure) {
    f.Other? && (Contains(Lower(f.message), "timeout") || Contains(f.typeName, "Timeout"))
  }

  /** The HTTP 500 LOOKUP_ERROR raised once the attempts are over, carrying `str(last_error)`. */
  function LookupError(f: Failure): Failure
    requires f.Other?
  {
    Http(500, Some("LOOKUP_ERROR"), f.message)
  }

  /** The answer of `lookup` and the number of routed attempts it made. */
  datatype Run = Run(outcome: Outcome<LookupResponse>, attempts: nat)

  /** The attempts from attempt `k` on. */
  function RunFrom(idType: string, strategy: string, pz: nat -> Outcome<LookupResponse>, pr: nat -> Outcome<LookupResponse>, k: nat): Run
    requires k <= MaxRetries
    decreases MaxRetries - k
  {
    var o := Route(idType, strategy, pz(k), pr(k)).outcome;
    if o.Ok? || o.failure.Http? then Run(o, 1)
    else if IsTimeout(o.failure) && k < MaxRetries then
      var rest := RunFrom(idType, strategy, pz, pr, k + 1);
      Run(rest.outcome, rest.attempts + 1)
    else Run(Err(LookupError(o.failure)), 1)
  }

  /** `lookup`: a blank value is refused before any attempt. */
  function LookupRun(idType: string, strategy: string, value: string, pz: nat -> Outcome<LookupResponse>, pr: nat -> Outcome<LookupResponse>): Run {
    if Trim(value) == [] then Run(Err(Http(400, None, "value is required")), 0)
    else RunFrom(idType, strategy, pz, pr, 0)
  }

  /** The answer of attempt `k`. */
  function AttemptOutcome(idType: string, strategy: string, pz: nat -> Outcome<LookupResponse>, pr: nat -> Outcome<LookupResponse>, k: nat): Outcome<LookupResponse> {
    Route(idType, strategy, pz(k), pr(k)).outcome
  }

  // ---------------------------------------------------------------------------
  // Properties
  // ---------------------------------------------------------------------------

  /**
   * The attempts from `k` on: at most MaxRetries + 1 - k of them; every
   * attempt but the last failed with a timeout and was retried; the last one
   * answered, failed with an HTTP error that is passed on unchanged, or
   * failed otherwise, which becomes LOOKUP_ERROR.
   */
  lemma {:induction false} RunFromShape(idType: string, strategy: string, pz: nat -> Outcome<LookupResponse>, pr: nat -> Outcome<LookupResponse>, k: nat)
    requires k <= MaxRetries
    ensures var run := RunFrom(idType, strategy, pz, pr, k);
      var last := k + run.attempts - 1;
      var o := AttemptOutcome(idType, strategy, pz, pr, last);
      && 1 <= run.attempts <= MaxRetries + 1 - k
      && (forall j :: k <= j < last ==>
           AttemptOutcome(idType, strategy, pz, pr, j).Err? && IsTimeout(AttemptOutcome(idType, strategy, pz, pr, j).failure))
      && (o.Ok? || o.failure.Http? ==> run.outcome == o)
      && (o.Err? && !o.failure.Http? ==> (run.outcome == Err(LookupError(o.failure))
           && (!IsTimeout(o.failure) || last == MaxRetries)))
    decreases MaxRetries - k
  {
    var o := AttemptOutcome(idType, strategy, pz, pr, k);
    if o.Err? && !o.failure.Http? && IsTimeout(o.failure) && k < MaxRetries {
      RunFromShape(idType, strategy, pz, pr, k + 1);
    }
  }

  /**
   * `lookup` makes at most MaxRetries + 1 attempts, none for a blank value;
   * it returns the first answer, passes the first HTTP error on at once,
   * retries only timeouts, and otherwise ends in LOOKUP_ERROR.
   */
  lemma LookupShape(idType: string, strategy: string, value: string, pz: nat -> Outcome<LookupResponse>, pr: nat -> Outcome<LookupResponse>)
    ensures var run := LookupRun(idType, strategy, value, pz, pr);
      && run.attempts <= MaxRetries + 1
      && (Trim(value) == [] <==> run.attempts == 0)
      && (Trim(value) == [] ==> run.outcome == Err(Http(400, None, "value is required")))
      && (run.attempts > 0 ==>
           var o := AttemptOutcome(idType, strategy, pz, pr, run.attempts - 1);
           && (forall j :: 0 <= j < run.attempts - 1 ==>
                AttemptOutcome(idType, strategy, pz, pr, j).Err? && IsTimeout(AttemptOutcome(idType, strategy, pz, pr, j).failure))
           && (o.Ok? || o.failure.Http? ==> run.outcome == o)
           && (o.Err? && !o.failure.Http? ==> run.outcome == Err(LookupError(o.failure))))
  {
    if Trim(value) != [] {
      RunFromShape(idType, strategy, pz, pr, 0);
    }
  }

  /** An HTTP error on the first attempt is passed on without a retry. */
  lemma HttpErrorNotRetried(idType: string, strategy: string, value: string, pz: nat -> Outcome<LookupResponse>, pr: nat -> Outcome<LookupResponse>)
    requires Trim(value) != []
    requires AttemptOutcome(idType, strategy, pz, pr, 0).Err? && AttemptOutcome(idType, strategy, pz, pr, 0).failure.Http?
    ensures LookupRun(idType, strategy, value, pz, pr) == Run(AttemptOutcome(idType, strategy, pz, pr, 0), 1)
  {
  }

  /** A first attempt that times out is retried once, and the second attempt decides. */
  lemma TimeoutRetriedOnce(idType: string, strategy: string, value: string, pz: nat -> Outcome<LookupResponse>, pr: nat -> Outcome<LookupResponse>)
    requires Trim(value) != []
    requires AttemptOutcome(idType, strategy, pz, pr, 0).Err? && IsTimeout(AttemptOutcome(idType, strategy, pz, pr, 0).failure)
    ensures var run := LookupRun(idType, strategy, value, pz, pr);
      var o := AttemptOutcome(idType, strategy, pz, pr, 1);
      && run.attempts == 2
      && run.outcome == if o.Ok? || o.failure.Http? then o else Err(LookupError(o.failure))
  {
  }

  // ---------------------------------------------------------------------------
  // The controller
  // ---------------------------------------------------------------------------

  /** `lookup`: the bounded attempt loop around `_do_lookup_routed`. */
  method Lookup(idType: string, strategy: string, value: string, pz: nat -> Outcome<LookupResponse>, pr: nat -> Outcome<LookupResponse>)
    returns (r: Outcome<LookupResponse>, attempts: nat)
    ensures Run(r, attempts) == LookupRun(idType, strategy, value, pz, pr)
  {
    attempts := 0;
    if value == [] || Trim(value) == [] {
      return Err(Http(400, None, "value is required")), attempts;
    }
    var lastError: Option<Failure> := None;
    var attempt := 0;
    while attempt < MaxRetries + 1
      invariant attempt <= MaxRetries && attempts == attempt
      invariant attempt == 0 <==> lastError.None?
      invariant attempt > 0 ==> lastError.Some? && IsTimeout(lastError.value)
      invariant attempt > 0 ==> forall j :: 0 <= j < attempt ==>
        AttemptOutcome(idType, strategy, pz, pr, j).Err? && IsTimeout(AttemptOutcome(idType, strategy, pz, pr, j).failure)
      invariant LookupRun(idType, strategy, value, pz, pr) ==
        var rest := RunFrom(idType, strategy, pz, pr, attempt);
        Run(rest.outcome, rest.attempts + attempt)
      decreases MaxRetries + 1 - attempt
    {
      var o, queried := LookupRouted(idType, strategy, pz(attempt), pr(attempt));
      attempts := attempts + 1;
      if o.Ok? {
        return o, attempts;
      }
      if o.failure.Http? {
        return o, attempts;
      }
      lastError := Some(o.failure);
      var isTimeout := Contains(Lower(o.failure.message), "timeout") || Contains(o.failure.typeName, "Timeout");
      if isTimeout && attempt < MaxRetries {
        attempt := attempt + 1;
        continue;
      }
      break;
    }
    // The loop always ends by `break` or `return`, so `last_error` is set and
    // the "Unknown error" message is never used.
    assert lastError.Some? && lastError.value.Other?;
    r := Err(Http(500, Some("LOOKUP_ERROR"), lastError.value.message));
  }
}
