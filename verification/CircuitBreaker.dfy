/**
 * The circuit breaker in front of the AI backend: the package globals of analysis_step.go and
 * handleAIFailureBackoff. One breaker serves every K8sGPT resource of the process.
 */
module CircuitBreaker {

  /** How one analysis ended. */
  datatype Outcome = Succeeded | FailedAnalysis

  /** The failures at the end of a trace. */
  function Run(trace: seq<Outcome>): nat {
    if trace == [] || trace[|trace| - 1].Succeeded? then 0 else 1 + Run(trace[..|trace| - 1])
  }

  /** `n` consecutive failures that end before position `end`. */
  predicate FailuresBefore(trace: seq<Outcome>, end: nat, n: nat) {
    n <= end <= |trace| && forall i | end - n <= i < end :: trace[i].FailedAnalysis?
  }

  /** Somewhere in the trace `n` analyses in a row failed. */
  ghost predicate HasRun(trace: seq<Outcome>, n: nat) {
    exists end: nat :: FailuresBefore(trace, end, n)
  }

  lemma {:induction false} RunIsLongest(trace: seq<Outcome>, n: nat)
    ensures FailuresBefore(trace, |trace|, n) <==> n <= Run(trace)
  {
    if n > 0 && trace != [] {
      var init := trace[..|trace| - 1];
      RunIsLongest(init, n - 1);
      if FailuresBefore(trace, |trace|, n) {
        assert trace[|trace| - 1].FailedAnalysis?;
        assert FailuresBefore(init, |init|, n - 1);
      } else if n <= Run(trace) {
        assert forall i | |init| - (n - 1) <= i < |init| :: init[i] == trace[i];
        assert FailuresBefore(trace, |trace|, n);
      }
    }
  }

  /** A longer trace has a run of `n` failures if it had one, or has just completed one. */
  lemma HasRunAppend(trace: seq<Outcome>, o: Outcome, n: nat)
    requires n > 0
    ensures HasRun(trace + [o], n) <==> HasRun(trace, n) || n <= Run(trace + [o])
  {
    var longer := trace + [o];
    RunIsLongest(longer, n);
    if HasRun(trace, n) {
      var end: nat :| FailuresBefore(trace, end, n);
      assert forall i | end - n <= i < end :: longer[i] == trace[i];
      assert FailuresBefore(longer, end, n);
    }
    if HasRun(longer, n) && !(n <= Run(longer)) {
      var end: nat :| FailuresBefore(longer, end, n);
      assert end <= |trace|;
      assert forall i | end - n <= i < end :: longer[i] == trace[i];
      assert FailuresBefore(trace, end, n);
    }
  }

  /** The same in terms of the run of failures before the outcome. */
  lemma HasRunStep(trace: seq<Outcome>, o: Outcome, n: nat)
    requires n > 0
    ensures HasRun(trace + [o], n) <==> HasRun(trace, n) || (o.FailedAnalysis? && n <= Run(trace) + 1)
    ensures Run(trace + [o]) == if o.FailedAnalysis? then Run(trace) + 1 else 0
    ensures n <= Run(trace) ==> HasRun(trace, n)
  {
    assert (trace + [o])[..|trace|] == trace;
    HasRunAppend(trace, o, n);
    if n <= Run(trace) { RunIsLongest(trace, n); }
  }

  /** How many failures in a row open the breaker: two more than the retries, and at least one. */
  function Threshold(maxRetries: int): nat {
    if maxRetries + 2 < 1 then 1 else maxRetries + 2
  }

  /** `n` failures in a row, from this one on. */
  predicate FailsFrom(trace: seq<Outcome>, i: nat, n: nat) {
    i + n <= |trace| && forall j | i <= j < i + n :: trace[j].FailedAnalysis?
  }

  ghost predicate FailedInARow(trace: seq<Outcome>, n: nat) {
    exists i: nat :: FailsFrom(trace, i, n)
  }

  lemma {:induction false} RunStartsSomewhere(trace: seq<Outcome>, n: nat)
    ensures HasRun(trace, n) <==> FailedInARow(trace, n)
  {
    if end: nat :| FailuresBefore(trace, end, n) { assert FailsFrom(trace, end - n, n); }
    if i: nat :| FailsFrom(trace, i, n) { assert FailuresBefore(trace, i + n, n); }
  }

  class AnalysisStep {
    var allowBackendAIRequest: bool
    var analysisRetryCount: int
    const maxRetries: int
    ghost var trace: seq<Outcome>

    /** With AI and back-off enabled throughout, the two globals tell the trace apart like this. */
    ghost predicate Valid()
      reads this
    {
      && (allowBackendAIRequest <==> !HasRun(trace, Threshold(maxRetries)))
      && (allowBackendAIRequest ==> analysisRetryCount == Run(trace))
      && 0 <= analysisRetryCount <= (if maxRetries < 0 then 1 else maxRetries + 1)
    }

    constructor (maxRetries: int)
      ensures Valid() && trace == [] && allowBackendAIRequest && this.maxRetries == maxRetries
    {
      this.allowBackendAIRequest, this.analysisRetryCount := true, 0;
      this.maxRetries := maxRetries;
      this.trace := [];
    }

    /** handleAIFailureBackoff. */
    method HandleAIFailureBackoff(backOffEnabled: bool)
      modifies this
      ensures trace == old(trace)
      ensures !backOffEnabled ==>
                allowBackendAIRequest == old(allowBackendAIRequest) && analysisRetryCount == old(analysisRetryCount)
      ensures backOffEnabled && old(analysisRetryCount) > maxRetries ==> !allowBackendAIRequest && analysisRetryCount == 1
      ensures backOffEnabled && old(analysisRetryCount) <= maxRetries ==>
                allowBackendAIRequest == old(allowBackendAIRequest) && analysisRetryCount == old(analysisRetryCount) + 1
    {
      if backOffEnabled {
        if analysisRetryCount > maxRetries {
          allowBackendAIRequest := false;
          analysisRetryCount := 0;
        }
        analysisRetryCount := analysisRetryCount + 1;
      }
    }

    /**
     * One analysis, as execute books it. Requests are blocked exactly when the trace has had enough
     * failures in a row; until then the counter is the length of the current run of failures.
     */
    method Execute(outcome: Outcome)
      requires Valid()
      modifies this
      ensures Valid() && trace == old(trace) + [outcome]
      ensures !old(allowBackendAIRequest) ==> !allowBackendAIRequest
    {
      HasRunStep(trace, outcome, Threshold(maxRetries));
      trace := trace + [outcome];
      if outcome.FailedAnalysis? {
        HandleAIFailureBackoff(true);
      } else {
        analysisRetryCount := 0;
      }
    }
  }

  /** Any trace of outcomes, whatever the limit. */
  method Analyse(maxRetries: int, trace: seq<Outcome>) returns (allowed: bool, retryCount: int)
    ensures allowed <==> !HasRun(trace, Threshold(maxRetries))
    ensures maxRetries >= 0 ==> (allowed <==> !FailedInARow(trace, maxRetries + 2))
    ensures allowed ==> retryCount == Run(trace)
    ensures maxRetries >= 0 ==> 0 <= retryCount <= maxRetries + 1
  {
    var step := new AnalysisStep(maxRetries);
    for n := 0 to |trace|
      invariant fresh(step) && step.Valid() && step.trace == trace[..n] && step.maxRetries == maxRetries
    {
      step.Execute(trace[n]);
      assert trace[..n + 1] == trace[..n] + [trace[n]];
    }
    assert trace[..|trace|] == trace;
    RunStartsSomewhere(trace, Threshold(maxRetries));
    return step.allowBackendAIRequest, step.analysisRetryCount;
  }

  /** Blocked once, blocked for ever: a longer trace has every run the shorter one had. */
  lemma BlockedStaysBlocked(trace: seq<Outcome>, more: seq<Outcome>, n: nat)
    requires HasRun(trace, n)
    ensures HasRun(trace + more, n)
  {
    var end: nat :| FailuresBefore(trace, end, n);
    assert forall i | end - n <= i < end :: (trace + more)[i] == trace[i];
    assert FailuresBefore(trace + more, end, n);
  }
}
