/** The verifier's polling loop: what it decides, and that it decides within its own lease. */
module Polling {
  import opened Common
  import opened Journal
  import opened Verifier
  import Protocol

  /** One run of an adapter: how long it took, and what it returned (`None`: it raised). */
  datatype Attempt = Attempt(duration: real, probe: Option<Probe>)

  /** The outcome of an attempt that leaves the loop before the deadline. */
  predicate Conclusive(a: Attempt) {
    a.probe.Some? && (a.probe.value.passed || a.probe.value.terminal)
  }

  ghost predicate SoundAttempts(attempts: nat -> Attempt) {
    forall k :: attempts(k).duration >= 0.0 && (attempts(k).probe.Some? ==> SoundProbe(attempts(k).probe.value))
  }

  lemma {:induction false} QuotientDrops(x: real, y: real, i: real)
    requires i > 0.0 && y <= x - i
    ensures y / i <= x / i - 1.0
  {
    assert x / i - y / i == (x - y) / i;
    assert (x - y) / i >= 1.0;
  }

  lemma {:induction false} LeaseOutlastsLoop(cfg: Settings)
    requires cfg.Valid()
    ensures cfg.timeout as real + cfg.interval + 4.0 < VerLeaseSeconds(cfg) as real
  {
  }

  /**
   How a loop that was started at `started` ends with attempt `last`: none before it was
   conclusive; it passed or failed by what that attempt showed, also for a partial commit; and
   otherwise it gave up, not before the timeout.
   */
  ghost predicate Concludes(cfg: Settings, started: Time, attempts: nat -> Attempt, last: nat,
                            verdict: VerificationStatus, evidence: Evidence, finished: Time)
  {
    var probe := attempts(last).probe;
    && (forall k :: 0 <= k < last ==> !Conclusive(attempts(k)))
    && (verdict == Passed <==> probe.Some? && probe.value.passed)
    && (verdict == CheckFailed <==>
          probe.Some? && !probe.value.passed && (probe.value.terminal || probe.value.evidence.partialCommit))
    && (verdict != Passed && verdict != CheckFailed ==> verdict == Inconclusive)
    && (!Conclusive(attempts(last)) ==> finished >= started + cfg.timeout as real)
    && evidence == (if Conclusive(attempts(last)) then probe.value.evidence
                    else if verdict == CheckFailed then Evidence(PartialCommitDetected, true)
                    else Evidence(VerificationTimeout, false))
  }

  /**
   `attempts(k)` is the k-th adapter run; the lease was granted at `claimed`, the loop
   starts at `started`, and each sleep takes the configured interval (a longer one counts
   into the next attempt). `last` is the attempt that ended the loop.
   */
  method PollUntilVerdict(cfg: Settings, claimed: Time, started: Time, attempts: nat -> Attempt)
    returns (verdict: VerificationStatus, evidence: Evidence, finished: Time, last: nat)
    requires cfg.Valid() && started >= claimed && SoundAttempts(attempts)
    ensures ValidVerdict(verdict) && Protocol.Honest(verdict, evidence)
    ensures Concludes(cfg, started, attempts, last, verdict, evidence, finished)
    ensures (forall k :: started - claimed + attempts(k).duration <= 4.0)
              ==> finished < claimed + VerLeaseSeconds(cfg) as real
  {
    var deadline := started + cfg.timeout as real;
    var now := started;
    last := 0;
    while true
      invariant now == started || now < deadline + cfg.interval
      invariant forall k :: 0 <= k < last ==> !Conclusive(attempts(k))
      decreases (deadline + cfg.interval - now) / cfg.interval
    {
      var attempt := attempts(last);
      finished := now + attempt.duration;
      LeaseOutlastsLoop(cfg);
      var result := if attempt.probe.Some? then attempt.probe.value
                    else Probe(false, false, Evidence(AdapterError, false));
      if result.passed { return Passed, result.evidence, finished, last; }
      if result.terminal { return CheckFailed, result.evidence, finished, last; }
      if finished >= deadline {
        if result.evidence.partialCommit {
          return CheckFailed, Evidence(PartialCommitDetected, true), finished, last;
        }
        return Inconclusive, Evidence(VerificationTimeout, false), finished, last;
      }
      QuotientDrops(deadline + cfg.interval - now, deadline + cfg.interval - (finished + cfg.interval), cfg.interval);
      now := finished + cfg.interval;
      last := last + 1;
    }
  }
}
