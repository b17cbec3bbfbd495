/**
 The mutation journal: one write-ahead row per externally visible mutation.

 Every journal call is one atomic step on a row (a row-locked transaction or a
 single conditional UPDATE), so an interleaving of executors, verifiers, the
 recovery worker and Stop is, seen from one row, a sequence of `Call`s.
 */
module Journal {
  import opened Common

  type OpId = string
  type RunId = string
  type Owner = string
  type Time = real

  datatype ExecutionStatus =
    Prepared | Executing | ReportedSuccess | ExecFailed | Unknown | Cancelled

  datatype VerificationStatus =
    NotRequired | Pending | Verifying | Passed | CheckFailed | Inconclusive | NeedsReview

  datatype Settings = Settings(
    maxAttempts: nat, maxAge: Time, execLease: Time,
    verLease: int, timeout: int, interval: real)
  {
    /** The bounds that the settings class declares for these fields. */
    predicate Valid() {
      && 1 <= maxAttempts <= 100 && maxAge >= 60.0 && execLease >= 5.0
      && verLease >= 5 && timeout >= 1 && interval > 0.0
    }
  }

  /** HMAC fingerprints, as constructors: injective and otherwise opaque. */
  datatype ArgsHmac = ArgsHmac(tool: string, args: string)
  datatype Key =
    | Supplied(text: string)
    | Derived(conversation: string, callId: string, tool: string, args: string)

  /** The `reason` of a verification result; `Unlisted` is any text outside the published list. */
  datatype Reason =
    | NoReason
    | HelmManifestInvalid | HelmManifestUnavailable | HelmStatusError | InvalidHelmStatusJson
    | OperationNotFound | PartialCommitDetected
    | AdapterError | AdapterNotSupported | AlreadyInProgress
    | VerificationBudgetExhausted | VerificationCancelled | VerificationLeaseExpired | VerificationTimeout
    | Unlisted(text: string)

  /** The part of `verification_result` that other components read. */
  datatype Evidence = Evidence(reason: Reason, partialCommit: bool)

  datatype Row = Row(
    id: OpId, key: Key, runId: RunId, callId: string, tool: string, argsHmac: ArgsHmac,
    supported: bool,
    exec: ExecutionStatus, ver: VerificationStatus,
    attempts: nat, verAttempts: nat,
    leaseOwner: Option<Owner>, leaseExpires: Option<Time>,
    verOwner: Option<Owner>, verExpires: Option<Time>,
    evidence: Evidence,
    createdAt: Time, updatedAt: Time, version: nat)

  const NO_EVIDENCE := Evidence(NoReason, false)

  datatype Call =
    | MarkExecuting(owner: Owner, now: Time)
    | RecordExecution(outcome: ExecutionStatus, now: Time)
    | Claim(owner: Owner, now: Time)
    | RecordVerification(owner: Owner, verdict: VerificationStatus, evidence: Evidence, now: Time)
    | Abandon(owner: Owner, reason: Reason, now: Time)
    | RecoverExecution(now: Time)
    | RecoverVerification(now: Time)
    | StopPrepared(runId: RunId, now: Time)
    | StopExecuting(runId: RunId, now: Time)

  predicate ValidOutcome(s: ExecutionStatus) {
    s == ReportedSuccess || s == ExecFailed || s == Unknown || s == Cancelled
  }

  predicate ValidVerdict(s: VerificationStatus) {
    s == Passed || s == CheckFailed || s == Inconclusive
  }

  predicate Verifiable(s: ExecutionStatus) {
    s == ReportedSuccess || s == Unknown
  }

  /** A verification status with no way out. */
  predicate Settled(s: VerificationStatus) {
    s == Passed || s == CheckFailed || s == NeedsReview
  }

  predicate BudgetExhausted(r: Row, now: Time, cfg: Settings) {
    r.verAttempts >= cfg.maxAttempts || now - r.createdAt >= cfg.maxAge
  }

  predicate VerLeaseLive(r: Row, now: Time) {
    r.ver == Verifying && r.verExpires.Some? && r.verExpires.value > now
  }

  /** Python's `int()`: truncation toward zero. */
  function Trunc(x: real): (n: int)
    ensures if x >= 0.0 then n as real <= x < (n + 1) as real else (n - 1) as real < x <= n as real
  {
    if x >= 0.0 then x.Floor else -(-x).Floor
  }

  function VerLeaseSeconds(cfg: Settings): (n: int)
    ensures n >= cfg.verLease
    ensures cfg.Valid() ==>
              && (n + 1) as real > cfg.timeout as real + cfg.interval + 5.0
              && (n == cfg.verLease || n as real <= cfg.timeout as real + cfg.interval + 5.0)
  {
    var needed := Trunc(cfg.timeout as real + cfg.interval + 5.0);
    if cfg.verLease >= needed then cfg.verLease else needed
  }

  /** Whether a call is accepted, as opposed to raising or matching no row. */
  predicate Accepts(r: Row, c: Call, cfg: Settings) {
    match c
    case MarkExecuting(_, _) => r.exec == Prepared
    case RecordExecution(outcome, _) => ValidOutcome(outcome) && r.exec == Executing
    case Claim(owner, now) =>
      && Verifiable(r.exec) && !Settled(r.ver) && r.ver != NotRequired
      && (BudgetExhausted(r, now, cfg) || !VerLeaseLive(r, now) || r.verOwner == Some(owner))
    case RecordVerification(owner, verdict, _, _) =>
      ValidVerdict(verdict) && r.ver == Verifying && r.verOwner == Some(owner)
    case Abandon(owner, _, _) => r.ver == Verifying && r.verOwner == Some(owner)
    case RecoverExecution(now) =>
      r.exec == Executing && (r.leaseExpires.None? || r.leaseExpires.value < now)
    case RecoverVerification(now) =>
      r.ver == Verifying && (r.verExpires.None? || r.verExpires.value < now)
    case StopPrepared(run, _) => r.runId == run && r.exec == Prepared
    case StopExecuting(run, _) => r.runId == run && r.exec == Executing
  }

  /** A claim that hands the caller the verification lease. */
  predicate Claims(r: Row, c: Call, cfg: Settings) {
    c.Claim? && Accepts(r, c, cfg) && !BudgetExhausted(r, c.now, cfg)
  }

  function Touch(r: Row, now: Time): Row {
    r.(version := r.version + 1, updatedAt := now)
  }

  function DropVerLease(r: Row): Row {
    r.(verOwner := None, verExpires := None)
  }

  function LeaveExecuting(r: Row, s: ExecutionStatus): Row {
    r.(exec := s, leaseOwner := None, leaseExpires := None)
  }

  /** The effect of one journal call; a call that is not accepted leaves the row alone. */
  function Apply(r: Row, c: Call, cfg: Settings): (r': Row)
  {
    if !Accepts(r, c, cfg) then r else
    match c
    case MarkExecuting(owner, now) =>
      Touch(r, now).(exec := Executing, attempts := r.attempts + 1,
                     leaseOwner := Some(owner), leaseExpires := Some(now + cfg.execLease))
    case RecordExecution(outcome, now) =>
      var left := LeaveExecuting(Touch(r, now), outcome);
      if outcome == ExecFailed || outcome == Cancelled
      then DropVerLease(left).(ver := NotRequired)
      else left
    case Claim(owner, now) =>
      if BudgetExhausted(r, now, cfg)
      then DropVerLease(Touch(r, now)).(ver := NeedsReview,
                                        evidence := Evidence(VerificationBudgetExhausted, false))
      else Touch(r, now).(ver := Verifying, verAttempts := r.verAttempts + 1,
                          verOwner := Some(owner),
                          verExpires := Some(now + VerLeaseSeconds(cfg) as real))
    case RecordVerification(_, verdict, evidence, now) =>
      DropVerLease(Touch(r, now)).(ver := verdict, evidence := evidence)
    case Abandon(_, reason, now) =>
      DropVerLease(Touch(r, now)).(ver := Inconclusive, evidence := Evidence(reason, false))
    case RecoverExecution(now) =>
      DropVerLease(LeaveExecuting(Touch(r, now), Unknown)).(ver := Pending)
    case RecoverVerification(now) =>
      DropVerLease(Touch(r, now)).(ver := Inconclusive,
                                   evidence := Evidence(VerificationLeaseExpired, false))
    case StopPrepared(_, now) =>
      DropVerLease(LeaveExecuting(Touch(r, now), Cancelled)).(ver := NotRequired)
    case StopExecuting(_, now) =>
      DropVerLease(LeaveExecuting(Touch(r, now), Unknown)).(ver := Pending)
  }

  // ---------------------------------------------------------------- row invariant

  function ExecRank(s: ExecutionStatus): nat {
    match s
    case Prepared => 0
    case Executing => 1
    case _ => 2
  }

  predicate LeasesMatchStatuses(r: Row) {
    && (r.leaseOwner.Some? <==> r.exec == Executing)
    && (r.leaseExpires.Some? <==> r.exec == Executing)
    && (r.verOwner.Some? <==> r.ver == Verifying)
    && (r.verExpires.Some? <==> r.ver == Verifying)
  }

  /** Steps that a row can have gone through, counted from its statuses. */
  function VersionCeiling(r: Row): int {
    1 + ExecRank(r.exec) + 2 * r.verAttempts
      - (if r.ver == Verifying then 1 else 0) + (if r.ver == NeedsReview then 1 else 0)
  }

  predicate RowInv(r: Row, cfg: Settings) {
    && LeasesMatchStatuses(r)
    && (r.ver != Pending && r.ver != NotRequired ==> Verifiable(r.exec))
    && (r.exec == Prepared ==> r.attempts == 0)
    && (r.exec == Executing || r.exec == ExecFailed || Verifiable(r.exec) ==> r.attempts == 1)
    && r.attempts <= 1
    && (r.exec == ExecFailed || r.exec == Cancelled ==> r.ver == NotRequired)
    && (r.supported && (ExecRank(r.exec) < 2 || Verifiable(r.exec)) ==> r.ver != NotRequired)
    && (r.ver == Pending || r.ver == NotRequired ==> r.verAttempts == 0)
    && r.verAttempts <= cfg.maxAttempts
    && r.version <= VersionCeiling(r)
  }

  /** A row as `prepare` inserts it. */
  predicate FreshRow(r: Row) {
    && r.exec == Prepared && r.ver == (if r.supported then Pending else NotRequired)
    && r.attempts == 0 && r.verAttempts == 0 && r.version == 1
    && r.leaseOwner.None? && r.leaseExpires.None? && r.verOwner.None? && r.verExpires.None?
    && r.evidence == NO_EVIDENCE
  }

  /** What a single call may do to the status of a row. */
  predicate Forward(r: Row, r': Row) {
    && ExecRank(r.exec) <= ExecRank(r'.exec)
    && (ExecRank(r.exec) == 2 ==> r'.exec == r.exec)
    && (Settled(r.ver) ==> r' == r)
    && r.attempts <= r'.attempts && r.verAttempts <= r'.verAttempts && r.version <= r'.version
    && r'.id == r.id && r'.key == r.key && r'.runId == r.runId && r'.createdAt == r.createdAt
    && r'.callId == r.callId && r'.tool == r.tool && r'.argsHmac == r.argsHmac
    && r'.supported == r.supported
  }

  predicate ExecutionCall(c: Call) {
    c.MarkExecuting? || c.RecordExecution? || c.RecoverExecution? || c.StopPrepared? || c.StopExecuting?
  }

  lemma {:induction false} MarkKeepsInv(r: Row, c: Call, cfg: Settings)
    requires RowInv(r, cfg) && (c.MarkExecuting? || c.RecordExecution?) && Accepts(r, c, cfg)
    ensures RowInv(Apply(r, c, cfg), cfg) && Forward(r, Apply(r, c, cfg))
  {
  }

  lemma {:induction false} ConvergeKeepsInv(r: Row, c: Call, cfg: Settings)
    requires RowInv(r, cfg) && (c.RecoverExecution? || c.StopPrepared? || c.StopExecuting?) && Accepts(r, c, cfg)
    ensures RowInv(Apply(r, c, cfg), cfg) && Forward(r, Apply(r, c, cfg))
  {
  }

  lemma {:induction false} ClaimKeepsInv(r: Row, c: Call, cfg: Settings)
    requires RowInv(r, cfg) && c.Claim? && Accepts(r, c, cfg)
    ensures RowInv(Apply(r, c, cfg), cfg) && Forward(r, Apply(r, c, cfg))
  {
  }

  lemma {:induction false} OutcomeKeepsInv(r: Row, c: Call, cfg: Settings)
    requires RowInv(r, cfg) && !ExecutionCall(c) && !c.Claim? && Accepts(r, c, cfg)
    ensures RowInv(Apply(r, c, cfg), cfg) && Forward(r, Apply(r, c, cfg))
  {
  }

  lemma {:induction false} ForwardRefl(r: Row)
    ensures Forward(r, r)
  {
  }

  lemma {:induction false} ApplyKeepsInv(r: Row, c: Call, cfg: Settings)
    requires RowInv(r, cfg)
    ensures RowInv(Apply(r, c, cfg), cfg)
    ensures Forward(r, Apply(r, c, cfg))
  {
    if !Accepts(r, c, cfg) {
      ForwardRefl(r);
    } else if c.MarkExecuting? || c.RecordExecution? {
      MarkKeepsInv(r, c, cfg);
    } else if ExecutionCall(c) {
      ConvergeKeepsInv(r, c, cfg);
    } else if c.Claim? {
      ClaimKeepsInv(r, c, cfg);
    } else {
      OutcomeKeepsInv(r, c, cfg);
    }
  }

  // ---------------------------------------------------------------- whole runs of one row

  function Run(r: Row, calls: seq<Call>, cfg: Settings): (r': Row)
    decreases |calls|
  {
    if calls == [] then r else Run(Apply(r, calls[0], cfg), calls[1..], cfg)
  }

  lemma {:induction false} RunKeepsInv(r: Row, calls: seq<Call>, cfg: Settings)
    requires RowInv(r, cfg)
    ensures RowInv(Run(r, calls, cfg), cfg)
    ensures Forward(r, Run(r, calls, cfg))
    decreases |calls|
  {
    if calls != [] {
      ApplyKeepsInv(r, calls[0], cfg);
      RunKeepsInv(Apply(r, calls[0], cfg), calls[1..], cfg);
    }
  }

  lemma {:induction false} RunAppend(r: Row, a: seq<Call>, b: seq<Call>, cfg: Settings)
    ensures Run(r, a + b, cfg) == Run(Run(r, a, cfg), b, cfg)
    decreases |a|
  {
    if a == [] {
      assert a + b == b;
    } else {
      assert (a + b)[1..] == a[1..] + b;
      RunAppend(Apply(r, a[0], cfg), a[1..], b, cfg);
    }
  }

  lemma {:induction false} RunOne(r: Row, a: Call, cfg: Settings)
    ensures Run(r, [a], cfg) == Apply(r, a, cfg)
  {
    assert [a][1..] == [];
    assert Run(Apply(r, a, cfg), [], cfg) == Apply(r, a, cfg);
  }

  lemma {:induction false} RunTwo(r: Row, a: Call, b: Call, cfg: Settings)
    ensures Run(r, [a, b], cfg) == Apply(Apply(r, a, cfg), b, cfg)
  {
    assert [a] + [b] == [a, b];
    RunAppend(r, [a], [b], cfg);
    RunOne(r, a, cfg);
    RunOne(Apply(r, a, cfg), b, cfg);
  }

  /**
   Every row that the journal ever holds: leases match statuses, execution only moves
   forward, a settled verification freezes the row, and the counters are bounded.
   */
  lemma {:induction false} EveryRunIsSound(r: Row, before: seq<Call>, after: seq<Call>, cfg: Settings)
    requires FreshRow(r)
    ensures var mid := Run(r, before, cfg);
            var end := Run(r, before + after, cfg);
            && RowInv(end, cfg)
            && Forward(mid, end)
            && end.verAttempts <= cfg.maxAttempts
            && end.version <= 2 * cfg.maxAttempts + 4
  {
    RunKeepsInv(r, before, cfg);
    RunAppend(r, before, after, cfg);
    RunKeepsInv(Run(r, before, cfg), after, cfg);
  }

  /** Claim-and-abandon, `n` times over. */
  function Retries(n: nat, now: Time): seq<Call> {
    if n == 0 then [] else Retries(n - 1, now) + [Claim("w", now), Abandon("w", NoReason, now)]
  }

  lemma {:induction false} OneRetry(r: Row, now: Time, cfg: Settings)
    requires RowInv(r, cfg) && Verifiable(r.exec)
    requires r.ver == Pending || r.ver == Inconclusive
    requires r.verAttempts < cfg.maxAttempts && now - r.createdAt < cfg.maxAge
    ensures var end := Run(r, [Claim("w", now), Abandon("w", NoReason, now)], cfg);
            && RowInv(end, cfg) && end.ver == Inconclusive
            && end.exec == r.exec && end.createdAt == r.createdAt
            && end.verAttempts == r.verAttempts + 1 && end.version == r.version + 2
  {
    RunTwo(r, Claim("w", now), Abandon("w", NoReason, now), cfg);
    RunKeepsInv(r, [Claim("w", now), Abandon("w", NoReason, now)], cfg);
  }

  lemma {:induction false} RetriesSpendBudget(r: Row, n: nat, now: Time, cfg: Settings)
    requires RowInv(r, cfg) && Verifiable(r.exec)
    requires r.ver == Pending || r.ver == Inconclusive
    requires r.verAttempts + n <= cfg.maxAttempts && now - r.createdAt < cfg.maxAge
    ensures var end := Run(r, Retries(n, now), cfg);
            && RowInv(end, cfg)
            && (end.ver == Pending || end.ver == Inconclusive)
            && end.exec == r.exec && end.createdAt == r.createdAt
            && end.verAttempts == r.verAttempts + n && end.version == r.version + 2 * n
    decreases n
  {
    if n > 0 {
      RetriesSpendBudget(r, n - 1, now, cfg);
      var before := Run(r, Retries(n - 1, now), cfg);
      RunAppend(r, Retries(n - 1, now), [Claim("w", now), Abandon("w", NoReason, now)], cfg);
      OneRetry(before, now, cfg);
    }
  }

  /** The version bound is exact: some run of any supported row reaches it. */
  lemma {:induction false} VersionBoundIsReached(r: Row, cfg: Settings) returns (calls: seq<Call>)
    requires FreshRow(r) && r.supported && cfg.Valid()
    ensures Run(r, calls, cfg).version == 2 * cfg.maxAttempts + 4
    ensures Run(r, calls, cfg).ver == NeedsReview
  {
    var now := r.createdAt;
    var sent := [MarkExecuting("w", now), RecordExecution(ReportedSuccess, now)];
    var r2 := Apply(Apply(r, sent[0], cfg), sent[1], cfg);
    RunTwo(r, sent[0], sent[1], cfg);
    RunKeepsInv(r, sent, cfg);
    var retries := Retries(cfg.maxAttempts, now);
    RetriesSpendBudget(r2, cfg.maxAttempts, now, cfg);
    RunAppend(r, sent, retries, cfg);
    var spent := Run(r, sent + retries, cfg);
    calls := sent + retries + [Claim("w", now)];
    RunAppend(r, sent + retries, [Claim("w", now)], cfg);
    RunOne(spent, Claim("w", now), cfg);
  }

  /**
   Bounded resolution: a sent row past the age limit whose execution lease is not
   live is settled by one recovery pass followed by one claim, whoever makes it.
   */
  lemma {:induction false} RecoveryPassSettles(r: Row, cfg: Settings, pass: Time, claim: Time, owner: Owner)
    requires RowInv(r, cfg) && r.supported && r.attempts == 1
    requires r.exec == Executing ==> r.leaseExpires.value < pass
    requires claim - r.createdAt >= cfg.maxAge
    ensures var end := Run(r, [RecoverExecution(pass), RecoverVerification(pass), Claim(owner, claim)], cfg);
            if r.exec == ExecFailed || r.exec == Cancelled then end == r else Settled(end.ver)
  {
    var recover := [RecoverExecution(pass), RecoverVerification(pass)];
    RunTwo(r, recover[0], recover[1], cfg);
    RunKeepsInv(r, recover, cfg);
    var b := Run(r, recover, cfg);
    assert recover + [Claim(owner, claim)]
        == [RecoverExecution(pass), RecoverVerification(pass), Claim(owner, claim)];
    RunAppend(r, recover, [Claim(owner, claim)], cfg);
    RunOne(b, Claim(owner, claim), cfg);
  }

  // ---------------------------------------------------------------- fencing

  /** Who made the latest claim that was granted. */
  function LatestClaimant(r: Row, calls: seq<Call>, cfg: Settings, sofar: Option<Owner>): (o: Option<Owner>)
    decreases |calls|
  {
    if calls == [] then sofar else
    var next := if Claims(r, calls[0], cfg) then Some(calls[0].owner) else sofar;
    LatestClaimant(Apply(r, calls[0], cfg), calls[1..], cfg, next)
  }

  lemma {:induction false} HolderIsLatestClaimant(r: Row, calls: seq<Call>, cfg: Settings, sofar: Option<Owner>)
    requires RowInv(r, cfg) && (r.ver == Verifying ==> r.verOwner == sofar)
    ensures var end := Run(r, calls, cfg);
            end.ver == Verifying ==> end.verOwner == LatestClaimant(r, calls, cfg, sofar)
    decreases |calls|
  {
    if calls != [] {
      ApplyKeepsInv(r, calls[0], cfg);
      var next := if Claims(r, calls[0], cfg) then Some(calls[0].owner) else sofar;
      HolderIsLatestClaimant(Apply(r, calls[0], cfg), calls[1..], cfg, next);
    }
  }

  predicate WritesOutcome(c: Call) {
    c.RecordVerification? || c.Abandon?
  }

  /**
   A well-formed outcome is written exactly when the row is being verified and its
   writer is the owner of the latest granted claim; and while that claim is unexpired
   and budget remains, a claim changes the row exactly when it repeats that owner.
   */
  lemma {:induction false} OnlyLatestClaimantWrites(row0: Row, calls: seq<Call>, c: Call, cfg: Settings)
    requires FreshRow(row0)
    ensures var r := Run(row0, calls, cfg);
            var latest := LatestClaimant(row0, calls, cfg, None);
            && (WritesOutcome(c) && (c.RecordVerification? ==> ValidVerdict(c.verdict))
                ==> (Apply(r, c, cfg) != r <==> r.ver == Verifying && latest == Some(c.owner)))
            && (c.Claim? && VerLeaseLive(r, c.now) && !BudgetExhausted(r, c.now, cfg)
                ==> (Apply(r, c, cfg) != r <==> latest == Some(c.owner)))
  {
    RunKeepsInv(row0, calls, cfg);
    HolderIsLatestClaimant(row0, calls, cfg, None);
    AcceptedCallsShow(Run(row0, calls, cfg), c, cfg);
  }

  /** A call changes the row if and only if it is accepted. */
  lemma {:induction false} AcceptedCallsShow(r: Row, c: Call, cfg: Settings)
    ensures Apply(r, c, cfg) != r <==> Accepts(r, c, cfg)
  {
    assert Accepts(r, c, cfg) ==> Apply(r, c, cfg).version == r.version + 1;
  }

  /** No call of the sequence is a claim by `o`. */
  predicate NoClaimBy(calls: seq<Call>, o: Owner) {
    forall i :: 0 <= i < |calls| ==> !(calls[i].Claim? && calls[i].owner == o)
  }

  lemma {:induction false} LostLeaseStaysLost(r: Row, calls: seq<Call>, cfg: Settings, o: Owner)
    requires r.verOwner != Some(o) && NoClaimBy(calls, o)
    ensures Run(r, calls, cfg).verOwner != Some(o)
    decreases |calls|
  {
    if calls != [] {
      LostLeaseStaysLost(Apply(r, calls[0], cfg), calls[1..], cfg, o);
    }
  }

  /**
   Fencing: once `o` has lost its lease (taken over, expired and recovered, cut off by
   the budget, or released), and as long as no later claim reuses the string `o`,
   nothing `o` still has in flight can change the row.
   */
  lemma {:induction false} StaleOwnerIsFenced(r: Row, mid: seq<Call>, rest: seq<Call>, late: Call, cfg: Settings)
    requires RowInv(r, cfg) && WritesOutcome(late) && r.verOwner == Some(late.owner)
    requires Run(r, mid, cfg).verOwner != Some(late.owner)
    requires NoClaimBy(rest, late.owner)
    ensures var end := Run(r, mid + rest, cfg);
            Apply(end, late, cfg) == end
  {
    RunAppend(r, mid, rest, cfg);
    LostLeaseStaysLost(Run(r, mid, cfg), rest, cfg, late.owner);
  }

  /** What loses a lease: a takeover, expiry recovery and a budget cut-off all do. */
  lemma {:induction false} LeaseLosers(r: Row, c: Call, cfg: Settings)
    requires RowInv(r, cfg) && r.ver == Verifying
    requires Accepts(r, c, cfg)
    ensures Apply(r, c, cfg).verOwner == r.verOwner
            <==> c.Claim? && !BudgetExhausted(r, c.now, cfg) && r.verOwner == Some(c.owner)
  {
    ApplyKeepsInv(r, c, cfg);
    assert !c.MarkExecuting? && !c.RecordExecution? && !c.RecoverExecution?;
  }

  /**
   Distinct owner strings are needed. Whatever string `o` is used, from every new row that
   calls for verification a run leads to a lease of `o`, which is lost and then claimed again
   under the same string; and the first claimant's late verdict is written.
   */
  lemma {:induction false} ReusedOwnerDefeatsFencing(row0: Row, cfg: Settings, o: Owner)
    returns (before: seq<Call>, lose: Call, regain: Call, late: Call)
    requires FreshRow(row0) && row0.supported && cfg.Valid() && cfg.maxAttempts >= 2
    ensures var r := Run(row0, before, cfg);
            && r.verOwner == Some(o)
            && Apply(r, lose, cfg).verOwner != Some(o)
            && regain.Claim? && regain.owner == o
            && late.RecordVerification? && late.owner == o
            && Apply(Run(r, [lose, regain], cfg), late, cfg).ver == Passed
  {
    var t := row0.createdAt;
    var sent := [MarkExecuting(o, t), RecordExecution(Unknown, t)];
    var r0 := Run(row0, sent, cfg);
    RunTwo(row0, sent[0], sent[1], cfg);
    before := sent + [Claim(o, t)];
    RunAppend(row0, sent, [Claim(o, t)], cfg);
    RunOne(r0, Claim(o, t), cfg);
    lose, regain := Abandon(o, VerificationCancelled, t), Claim(o, t);
    late := RecordVerification(o, Passed, NO_EVIDENCE, t);
    ReclaimedLeaseAcceptsLateVerdict(r0, cfg, o, t);
  }

  lemma {:induction false} ReclaimedLeaseAcceptsLateVerdict(r0: Row, cfg: Settings, o: Owner, t: Time)
    requires Verifiable(r0.exec) && r0.ver == Pending && r0.verAttempts == 0
    requires cfg.maxAttempts >= 2 && t - r0.createdAt < cfg.maxAge
    ensures var r, lose := Apply(r0, Claim(o, t), cfg), Abandon(o, VerificationCancelled, t);
            && r.verOwner == Some(o) && Apply(r, lose, cfg).verOwner == None
            && Apply(Run(r, [lose, Claim(o, t)], cfg), RecordVerification(o, Passed, NO_EVIDENCE, t), cfg).ver == Passed
  {
    RunTwo(Apply(r0, Claim(o, t), cfg), Abandon(o, VerificationCancelled, t), Claim(o, t), cfg);
  }

  // ---------------------------------------------------------------- leases

  /** An execution that was marked at `t` is recovered exactly after its lease has run out. */
  lemma {:induction false} ExecutionLeaseLasts(r: Row, owner: Owner, t: Time, t': Time, cfg: Settings)
    requires RowInv(r, cfg) && r.exec == Prepared
    ensures var marked := Apply(r, MarkExecuting(owner, t), cfg);
            && marked.exec == Executing && marked.leaseOwner == Some(owner)
            && (Apply(marked, RecoverExecution(t'), cfg) != marked <==> t' > t + cfg.execLease)
  {
    AcceptedCallsShow(Apply(r, MarkExecuting(owner, t), cfg), RecoverExecution(t'), cfg);
  }

  /** Neither an outcome nor Stop for this row, and no recovery after `until`. */
  predicate LeavesExecuting(r: Row, c: Call, until: Time) {
    match c
    case RecordExecution(outcome, _) => !ValidOutcome(outcome)
    case StopExecuting(run, _) => run != r.runId
    case RecoverExecution(now) => now <= until
    case _ => true
  }

  /** While the lease runs, only an outcome or Stop takes a row out of EXECUTING; all else leaves it as it is. */
  lemma {:induction false} ExecutionLeaseProtects(r: Row, owner: Owner, t: Time, calls: seq<Call>, cfg: Settings)
    requires RowInv(r, cfg) && r.exec == Prepared
    requires forall i :: 0 <= i < |calls| ==> LeavesExecuting(r, calls[i], t + cfg.execLease)
    ensures var marked := Apply(r, MarkExecuting(owner, t), cfg); Run(marked, calls, cfg) == marked
    decreases |calls|
  {
    if calls != [] {
      var marked := Apply(r, MarkExecuting(owner, t), cfg);
      MarkKeepsInv(r, MarkExecuting(owner, t), cfg);
      ExecutingIsLeft(marked, calls[0], cfg);
      ExecutionLeaseProtects(r, owner, t, calls[1..], cfg);
    }
  }

  lemma {:induction false} ExecutingIsLeft(r: Row, c: Call, cfg: Settings)
    requires RowInv(r, cfg) && r.exec == Executing && LeavesExecuting(r, c, r.leaseExpires.value)
    ensures Apply(r, c, cfg) == r
  {
  }

  /** A claim that was granted at `t` is recovered exactly after its lease, and taken over exactly from its end. */
  lemma {:induction false} VerificationLeaseLasts(r: Row, o: Owner, t: Time, other: Owner, t': Time, cfg: Settings)
    requires RowInv(r, cfg) && Claims(r, Claim(o, t), cfg) && other != o
    ensures var held := Apply(r, Claim(o, t), cfg);
            var until := t + VerLeaseSeconds(cfg) as real;
            && held.ver == Verifying && held.verOwner == Some(o)
            && (Apply(held, RecoverVerification(t'), cfg) != held <==> t' > until)
            && (!BudgetExhausted(held, t', cfg) ==> (Claims(held, Claim(other, t'), cfg) <==> t' >= until))
  {
    AcceptedCallsShow(Apply(r, Claim(o, t), cfg), RecoverVerification(t'), cfg);
  }

  /** Nothing by the holder `o`, no recovery after `until`, no claim at or after it or beyond the budget. */
  predicate LeavesVerifying(r: Row, o: Owner, c: Call, until: Time, cfg: Settings) {
    match c
    case RecordVerification(owner, _, _, _) => owner != o
    case Abandon(owner, _, _) => owner != o
    case Claim(owner, now) => owner != o && now < until && !BudgetExhausted(r, now, cfg)
    case RecoverVerification(now) => now <= until
    case _ => true
  }

  lemma {:induction false} VerifyingIsLeft(r: Row, o: Owner, c: Call, cfg: Settings)
    requires RowInv(r, cfg) && r.ver == Verifying && r.verOwner == Some(o)
    requires LeavesVerifying(r, o, c, r.verExpires.value, cfg)
    ensures Apply(r, c, cfg) == r
  {
  }

  lemma {:induction false} HeldIsLeft(r: Row, o: Owner, calls: seq<Call>, cfg: Settings)
    requires RowInv(r, cfg) && r.ver == Verifying && r.verOwner == Some(o)
    requires forall i :: 0 <= i < |calls| ==> LeavesVerifying(r, o, calls[i], r.verExpires.value, cfg)
    ensures Run(r, calls, cfg) == r
    decreases |calls|
  {
    if calls != [] {
      VerifyingIsLeft(r, o, calls[0], cfg);
      HeldIsLeft(r, o, calls[1..], cfg);
    }
  }

  /**
   While a granted lease runs and budget remains, nobody else can disturb it; so the holder's
   verdict, recorded by then, is written, whatever the others try.
   */
  lemma {:induction false} VerdictWithinLeaseIsWritten(
    r: Row, o: Owner, t: Time, calls: seq<Call>, verdict: VerificationStatus, evidence: Evidence, finished: Time,
    cfg: Settings)
    requires RowInv(r, cfg) && Claims(r, Claim(o, t), cfg) && ValidVerdict(verdict)
    requires var held := Apply(r, Claim(o, t), cfg);
             forall i :: 0 <= i < |calls| ==> LeavesVerifying(held, o, calls[i], t + VerLeaseSeconds(cfg) as real, cfg)
    ensures var checked := Run(Apply(r, Claim(o, t), cfg), calls, cfg);
            var end := Apply(checked, RecordVerification(o, verdict, evidence, finished), cfg);
            end.ver == verdict && end.evidence == evidence
  {
    ClaimKeepsInv(r, Claim(o, t), cfg);
    HeldIsLeft(Apply(r, Claim(o, t), cfg), o, calls, cfg);
  }

  // ---------------------------------------------------------------- what a row tells

  /** What an accepted call writes down: its time, one more version, the statuses, and why. */
  predicate Writes(r: Row, c: Call, cfg: Settings, r': Row) {
    && r'.updatedAt == c.now && r'.version == r.version + 1
    && r'.attempts == r.attempts + (if c.MarkExecuting? then 1 else 0)
    && (!c.Claim? ==> r'.verAttempts == r.verAttempts)
    && match c
       case MarkExecuting(_, _) => r'.exec == Executing && r'.ver == r.ver && r'.evidence == r.evidence
       case RecordExecution(outcome, _) =>
         && r'.exec == outcome && r'.evidence == r.evidence
         && r'.ver == if outcome == ExecFailed || outcome == Cancelled then NotRequired else r.ver
       case Claim(owner, now) =>
         if BudgetExhausted(r, now, cfg)
         then
           && r'.ver == NeedsReview && r'.verAttempts == r.verAttempts
           && r'.evidence == Evidence(VerificationBudgetExhausted, false)
         else r'.ver == Verifying && r'.verAttempts == r.verAttempts + 1 && r'.evidence == r.evidence
       case RecordVerification(_, verdict, evidence, _) => r'.ver == verdict && r'.evidence == evidence
       case Abandon(_, reason, _) => r'.ver == Inconclusive && r'.evidence == Evidence(reason, false)
       case RecoverExecution(_) => r'.exec == Unknown && r'.ver == Pending && r'.evidence == r.evidence
       case RecoverVerification(_) =>
         r'.ver == Inconclusive && r'.evidence == Evidence(VerificationLeaseExpired, false)
       case StopPrepared(_, _) => r'.exec == Cancelled && r'.ver == NotRequired && r'.evidence == r.evidence
       case StopExecuting(_, _) => r'.exec == Unknown && r'.ver == Pending && r'.evidence == r.evidence
  }

  lemma {:induction false} WhatIsWritten(r: Row, c: Call, cfg: Settings)
    requires Accepts(r, c, cfg)
    ensures Writes(r, c, cfg, Apply(r, c, cfg))
  {
  }

  /** A row needs review exactly because its verification budget ran out. */
  lemma {:induction false} ReviewMeansBudget(r: Row, calls: seq<Call>, cfg: Settings)
    requires r.ver == NeedsReview ==> r.evidence == Evidence(VerificationBudgetExhausted, false)
    ensures var end := Run(r, calls, cfg);
            end.ver == NeedsReview ==> end.evidence == Evidence(VerificationBudgetExhausted, false)
    decreases |calls|
  {
    if calls != [] {
      if Accepts(r, calls[0], cfg) { WhatIsWritten(r, calls[0], cfg); }
      ReviewMeansBudget(Apply(r, calls[0], cfg), calls[1..], cfg);
    }
  }
}
