/** The verifier as a caller of the journal, and the background worker that reconciles the table. */
module Recovery {
  import opened Common
  import opened Journal
  import opened JournalStore
  import Polling
  import Protocol

  // ---------------------------------------------------------------- one verification

  /** One claim and the verdict that is recorded under it. */
  datatype Verification = Verification(
    owner: Owner, at: Time, verdict: VerificationStatus, evidence: Evidence, finished: Time)

  /** Claim, then record: a record without a granted claim is refused by the journal itself. */
  function AfterVerify(r: Row, v: Verification, cfg: Settings): (r': Row) {
    Apply(Apply(r, Claim(v.owner, v.at), cfg), RecordVerification(v.owner, v.verdict, v.evidence, v.finished), cfg)
  }

  /** A verdict is written exactly under a granted claim; verifying never touches the execution status. */
  lemma {:induction false} VerifyOutcome(r: Row, v: Verification, cfg: Settings)
    requires RowInv(r, cfg) && ValidVerdict(v.verdict)
    ensures AfterVerify(r, v, cfg).exec == r.exec
    ensures if Claims(r, Claim(v.owner, v.at), cfg) then AfterVerify(r, v, cfg).ver == v.verdict
            else AfterVerify(r, v, cfg) == Apply(r, Claim(v.owner, v.at), cfg)
  {
  }

  /** The verdict `v` on the row `r` is what polling `attempts` came to, if the claim was granted. */
  ghost predicate ProbedBy(
    r: Row, v: Verification, cfg: Settings, owner: Owner, now: Time, started: Time, attempts: nat -> Polling.Attempt)
  {
    && v.owner == owner && v.at == now
    && (Claims(r, Claim(owner, now), cfg) ==>
          exists last :: Polling.Concludes(cfg, started, attempts, last, v.verdict, v.evidence, v.finished))
  }

  /** After the claim on a row that was `r`: if it was granted, poll for a verdict and record it. */
  method PollAndRecord(journal: MutationJournal, id: OpId, owner: Owner, now: Time, started: Time,
                       attempts: nat -> Polling.Attempt, granted: bool, ghost r: Row)
    returns (ghost v: Verification)
    requires journal.Valid() && journal.cfg.Valid() && started >= now && Polling.SoundAttempts(attempts)
    requires RowInv(r, journal.cfg) && (granted <==> Claims(r, Claim(owner, now), journal.cfg))
    requires id in journal.rows && journal.rows[id] == Apply(r, Claim(owner, now), journal.cfg)
    modifies journal`rows
    ensures journal.Valid() && ProbedBy(r, v, journal.cfg, owner, now, started, attempts)
    ensures ValidVerdict(v.verdict) && Protocol.Honest(v.verdict, v.evidence)
    ensures journal.rows == old(journal.rows)[id := AfterVerify(r, v, journal.cfg)]
  {
    v := Verification(owner, now, Inconclusive, NO_EVIDENCE, now);
    if granted {
      var verdict, evidence, finished, _ := Polling.PollUntilVerdict(journal.cfg, now, started, attempts);
      v := Verification(owner, now, verdict, evidence, finished);
      var _ := journal.RecordVerification(id, owner, verdict, evidence, finished);
    } else {
      VerifyOutcome(r, v, journal.cfg);
      assert journal.rows == journal.rows[id := journal.rows[id]];
    }
  }

  /** The whole of `verify`, undisturbed; `v` is what it amounts to. */
  method Verify(journal: MutationJournal, id: OpId, owner: Owner, now: Time, started: Time,
                attempts: nat -> Polling.Attempt)
    returns (status: Option<VerificationStatus>, ghost v: Verification)
    requires journal.Valid() && journal.cfg.Valid() && started >= now && Polling.SoundAttempts(attempts)
    modifies journal`rows
    ensures journal.Valid()
    ensures ValidVerdict(v.verdict) && Protocol.Honest(v.verdict, v.evidence)
    ensures id !in old(journal.rows) ==> status.None? && journal.rows == old(journal.rows)
    ensures id in old(journal.rows) ==>
              && journal.rows == old(journal.rows)[id := AfterVerify(old(journal.rows)[id], v, journal.cfg)]
              && ProbedBy(old(journal.rows)[id], v, journal.cfg, owner, now, started, attempts)
              && (Grantable(old(journal.rows)[id], owner, now, journal.cfg)
                  && Verifiable(old(journal.rows)[id].exec) ==>
                    journal.rows[id].ver == v.verdict && journal.rows[id].evidence == v.evidence)
              && status == if Verifiable(old(journal.rows)[id].exec) then Some(journal.rows[id].ver) else None
  {
    if id !in journal.rows { return None, Verification(owner, now, Inconclusive, NO_EVIDENCE, now); }
    ghost var rows := journal.rows;
    var claim := journal.ClaimVerification(id, owner, now);
    ghost var claimed := journal.rows[id];
    v := PollAndRecord(journal, id, owner, now, started, attempts, claim.Ok? && claim.value.1, rows[id]);
    UpdateTwice(rows, id, claimed, journal.rows[id]);
    status := if claim.Err? then None else Some(journal.rows[id].ver);
  }

  // ---------------------------------------------------------------- one pass of the worker

  /** The clock readings of a pass: the two bulk updates, and the selection. */
  datatype Pass = Pass(executions: Time, verifications: Time, selection: Time)
  {
    predicate Ordered() { executions <= verifications <= selection }
  }

  function Recovered(r: Row, p: Pass, cfg: Settings): (r': Row) {
    Apply(Apply(r, RecoverExecution(p.executions), cfg), RecoverVerification(p.verifications), cfg)
  }

  function RecoveredRows(rows: Rows, p: Pass, cfg: Settings): (rows': Rows) {
    map id | id in rows :: Recovered(rows[id], p, cfg)
  }

  /** Sent, still open, not held by a verifier, and not touched within the grace period. */
  predicate Candidate(r: Row, cutoff: Time) {
    Verifiable(r.exec) && (r.ver == Pending || r.ver == Inconclusive) && r.updatedAt < cutoff
  }

  function Candidates(rows: Rows, cutoff: Time): (ids: set<OpId>) {
    set id | id in rows && Candidate(rows[id], cutoff)
  }

  /** What a pass does to one row; `v` is the verification, if the row was picked. */
  predicate AfterPass(r: Row, r': Row, p: Pass, grace: Time, v: Option<Verification>, cfg: Settings) {
    var mid := Recovered(r, p, cfg);
    match v
    case None => r' == mid
    case Some(done) =>
      && Candidate(mid, p.selection - grace) && done.at >= p.selection && ValidVerdict(done.verdict)
      && r' == AfterVerify(mid, done, cfg)
  }

  function Lookup(done: map<OpId, Verification>, id: OpId): (v: Option<Verification>) {
    if id in done then Some(done[id]) else None
  }

  method RecoverStale(journal: MutationJournal, p: Pass)
    requires journal.Valid()
    modifies journal`rows
    ensures journal.Valid() && journal.rows.Keys == old(journal.rows).Keys
    ensures journal.rows == RecoveredRows(old(journal.rows), p, journal.cfg)
  {
    journal.RecoverStaleExecutions(p.executions);
    journal.RecoverStaleVerifications(p.verifications);
  }

  /** How a verification changes a row, as a function value that the bookkeeping need not look into. */
  type Effect = (Row, Verification) -> Row

  ghost predicate IsVerify(effect: Effect, cfg: Settings) {
    forall r, v {:trigger AfterVerify(r, v, cfg)} :: effect(r, v) == AfterVerify(r, v, cfg)
  }

  /** The picked rows have been verified, and the others are as they were. */
  ghost predicate BatchDone(was: Rows, rows: Rows, done: map<OpId, Verification>, from: Time, effect: Effect) {
    && rows.Keys == was.Keys && done.Keys <= was.Keys
    && (forall id :: id in was && id !in done ==> rows[id] == was[id])
    && (forall id :: id in done ==>
          rows[id] == effect(was[id], done[id]) && done[id].at >= from && ValidVerdict(done[id].verdict))
  }

  lemma {:induction false} BatchGrows(was: Rows, rows: Rows, done: map<OpId, Verification>, from: Time, effect: Effect,
                   id: OpId, v: Verification)
    requires BatchDone(was, rows, done, from, effect) && id in was && id !in done
    requires v.at >= from && ValidVerdict(v.verdict)
    ensures BatchDone(was, rows[id := effect(rows[id], v)], done[id := v], from, effect)
    ensures done[id := v].Keys == done.Keys + {id}
  {
  }

  /** Every verification done is that of one of the first `n` claims, and tells what its probes came to. */
  ghost predicate AllProbed(was: Rows, done: map<OpId, Verification>, n: nat, cfg: Settings,
                            clock: nat -> Time, probes: nat -> nat -> Polling.Attempt, owners: nat -> Owner)
  {
    forall id :: id in done ==>
      id in was && exists k: nat :: k < n && ProbedAt(was[id], done[id], k, cfg, clock, probes, owners)
  }

  ghost predicate ProbedAt(r: Row, v: Verification, k: nat, cfg: Settings,
                           clock: nat -> Time, probes: nat -> nat -> Polling.Attempt, owners: nat -> Owner)
  {
    ProbedBy(r, v, cfg, owners(k), clock(k), clock(k), probes(k))
  }

  lemma {:induction false} ProbedGrows(was: Rows, done: map<OpId, Verification>, n: nat, cfg: Settings,
    clock: nat -> Time, probes: nat -> nat -> Polling.Attempt, owners: nat -> Owner, id: OpId, v: Verification)
    requires AllProbed(was, done, n, cfg, clock, probes, owners)
    requires id in was && ProbedAt(was[id], v, n, cfg, clock, probes, owners)
    ensures AllProbed(was, done[id := v], n + 1, cfg, clock, probes, owners)
  {
    var more := done[id := v];
    forall x | x in more
      ensures x in was && exists k: nat :: k < n + 1 && ProbedAt(was[x], more[x], k, cfg, clock, probes, owners)
    {
      if x != id {
        var k: nat :| k < n && ProbedAt(was[x], done[x], k, cfg, clock, probes, owners);
        assert k < n + 1 && ProbedAt(was[x], more[x], k, cfg, clock, probes, owners);
      }
    }
  }

  /** `count` of the chosen rows have been picked, and the others are left. */
  predicate Accounts(picked: set<OpId>, left: set<OpId>, chosen: set<OpId>, count: nat) {
    picked !! left && picked + left == chosen && |picked| == count
  }

  lemma {:induction false} AccountForOne(picked: set<OpId>, left: set<OpId>, chosen: set<OpId>, count: nat, id: OpId)
    requires Accounts(picked, left, chosen, count) && id in left
    ensures id !in picked && id in chosen && Accounts(picked + {id}, left - {id}, chosen, count + 1)
  {
  }

  method VerifyOne(journal: MutationJournal, id: OpId, owner: Owner, now: Time,
                   attempts: nat -> Polling.Attempt, ghost effect: Effect)
    returns (ghost v: Verification)
    requires journal.Valid() && journal.cfg.Valid() && id in journal.rows
    requires IsVerify(effect, journal.cfg) && Polling.SoundAttempts(attempts)
    modifies journal`rows
    ensures journal.Valid() && journal.rows == old(journal.rows)[id := effect(old(journal.rows)[id], v)]
    ensures v.at == now && ValidVerdict(v.verdict)
    ensures ProbedBy(old(journal.rows)[id], v, journal.cfg, owner, now, now, attempts)
  {
    var status;
    status, v := Verify(journal, id, owner, now, now, attempts);
  }

  /**
   Verifies at most `batch` of the chosen rows, in whatever order the database returns them.
   `clock(k)` is when the k-th claim is made, `probes(k)` what its verifier meets, and
   `owners(k)` its owner string.
   */
  method VerifyBatch(journal: MutationJournal, chosen: set<OpId>, batch: nat, ghost from: Time,
                     clock: nat -> Time, probes: nat -> nat -> Polling.Attempt, owners: nat -> Owner,
                     ghost effect: Effect)
    returns (reconciled: nat, ghost done: map<OpId, Verification>)
    requires journal.Valid() && journal.cfg.Valid() && chosen <= journal.rows.Keys && IsVerify(effect, journal.cfg)
    requires forall k: nat :: clock(k) >= from && Polling.SoundAttempts(probes(k))
    modifies journal`rows
    ensures journal.Valid() && BatchDone(old(journal.rows), journal.rows, done, from, effect)
    ensures done.Keys <= chosen && reconciled == |done.Keys| <= batch
    ensures reconciled < batch ==> done.Keys == chosen
    ensures AllProbed(old(journal.rows), done, reconciled, journal.cfg, clock, probes, owners)
  {
    ghost var was := journal.rows;
    var left := chosen;
    reconciled, done := 0, map[];
    while left != {} && reconciled < batch
      invariant journal.Valid() && BatchDone(was, journal.rows, done, from, effect)
      invariant Accounts(done.Keys, left, chosen, reconciled) && reconciled <= batch
      invariant AllProbed(was, done, reconciled, journal.cfg, clock, probes, owners)
      decreases |left|
    {
      var id :| id in left;
      ghost var rows := journal.rows;
      ghost var v := VerifyOne(journal, id, owners(reconciled), clock(reconciled), probes(reconciled), effect);
      BatchGrows(was, rows, done, from, effect, id, v);
      AccountForOne(done.Keys, left, chosen, reconciled, id);
      ProbedGrows(was, done, reconciled, journal.cfg, clock, probes, owners, id, v);
      done := done[id := v];
      left := left - {id};
      reconciled := reconciled + 1;
    }
  }

  /** Recovering and then verifying a batch is a pass, for every row. */
  lemma {:induction false} BatchIsPass(
    was: Rows, mid: Rows, rows: Rows, done: map<OpId, Verification>, p: Pass, grace: Time,
    effect: Effect, cfg: Settings, id: OpId)
    requires mid.Keys == was.Keys && id in was && mid[id] == Recovered(was[id], p, cfg)
    requires BatchDone(mid, rows, done, p.selection, effect) && IsVerify(effect, cfg)
    requires id in done ==> Candidate(mid[id], p.selection - grace)
    ensures AfterPass(was[id], rows[id], p, grace, Lookup(done, id), cfg)
  {
  }

  /** One pass of the worker: both bulk recoveries, then a batch of candidates. */
  method ReconcileOnce(journal: MutationJournal, p: Pass, grace: Time, batch: nat,
                       clock: nat -> Time, probes: nat -> nat -> Polling.Attempt, owners: nat -> Owner)
    returns (reconciled: nat, ghost done: map<OpId, Verification>)
    requires journal.Valid() && journal.cfg.Valid() && p.Ordered()
    requires forall k: nat :: clock(k) >= p.selection && Polling.SoundAttempts(probes(k))
    modifies journal`rows
    ensures journal.Valid() && journal.rows.Keys == old(journal.rows).Keys && done.Keys <= journal.rows.Keys
    ensures forall id :: id in journal.rows ==>
              AfterPass(old(journal.rows)[id], journal.rows[id], p, grace, Lookup(done, id), journal.cfg)
    ensures reconciled == |done.Keys| <= batch
    ensures reconciled < batch ==> forall id :: id in journal.rows && id !in done ==>
              !Candidate(journal.rows[id], p.selection - grace)
    ensures AllProbed(RecoveredRows(old(journal.rows), p, journal.cfg), done, reconciled, journal.cfg,
                      clock, probes, owners)
  {
    ghost var was := journal.rows;
    RecoverStale(journal, p);
    var chosen := Candidates(journal.rows, p.selection - grace);
    ghost var mid := journal.rows;
    ghost var cfg := journal.cfg;
    ghost var effect := (r, v) => AfterVerify(r, v, cfg);
    reconciled, done := VerifyBatch(journal, chosen, batch, p.selection, clock, probes, owners, effect);
    forall id | id in journal.rows
      ensures AfterPass(was[id], journal.rows[id], p, grace, Lookup(done, id), journal.cfg)
    {
      BatchIsPass(was, mid, journal.rows, done, p, grace, effect, cfg, id);
    }
  }

  // ---------------------------------------------------------------- bounded resolution

  /** Sent long ago, and no live lease on it when the pass makes its updates. */
  predicate Overdue(r: Row, p: Pass, cfg: Settings) {
    && r.supported && (r.exec == Executing || Verifiable(r.exec))
    && (r.exec == Executing ==> r.leaseExpires.Some? && r.leaseExpires.value < p.executions)
    && (r.ver == Verifying ==> r.verExpires.Some? && r.verExpires.value < p.verifications)
    && r.updatedAt <= p.verifications && p.executions - r.createdAt >= cfg.maxAge
  }

  /** What becomes of an overdue row: it is settled, or open, free, and untouched since the first pass's updates. */
  predicate Waiting(r: Row, first: Pass, cfg: Settings) {
    && RowInv(r, cfg) && first.executions - r.createdAt >= cfg.maxAge
    && (Settled(r.ver) || (Verifiable(r.exec) && (r.ver == Pending || r.ver == Inconclusive)
                           && r.updatedAt <= first.verifications))
  }

  /** A pass settles an overdue row or leaves it waiting. */
  lemma {:induction false} FirstPass(r: Row, r': Row, p: Pass, grace: Time, v: Option<Verification>, cfg: Settings)
    requires RowInv(r, cfg) && p.Ordered() && Overdue(r, p, cfg) && AfterPass(r, r', p, grace, v, cfg)
    ensures Waiting(r', p, cfg)
  {
    var mid := Recovered(r, p, cfg);
    ApplyKeepsInv(r, RecoverExecution(p.executions), cfg);
    ApplyKeepsInv(Apply(r, RecoverExecution(p.executions), cfg), RecoverVerification(p.verifications), cfg);
    if v.Some? {
      ApplyKeepsInv(mid, Claim(v.value.owner, v.value.at), cfg);
      assert BudgetExhausted(mid, v.value.at, cfg);
    }
  }

  /** A later pass leaves a waiting row alone, or picks and settles it; it does so if it gets through its candidates. */
  lemma {:induction false} LaterPass(
    r: Row, r': Row, first: Pass, q: Pass, grace: Time, v: Option<Verification>, cfg: Settings)
    requires Waiting(r, first, cfg) && q.Ordered() && AfterPass(r, r', q, grace, v, cfg)
    requires first.executions <= q.executions && first.verifications < q.selection - grace
    ensures Waiting(r', first, cfg)
    ensures Settled(r.ver) || v.Some? || !Candidate(r', q.selection - grace) ==> Settled(r'.ver)
  {
    assert Recovered(r, q, cfg) == r;
    if v.Some? {
      ApplyKeepsInv(r, Claim(v.value.owner, v.value.at), cfg);
      assert BudgetExhausted(r, v.value.at, cfg);
    }
  }

  /** How often a row can still be picked. */
  function Picks(r: Row, cfg: Settings): (n: int) {
    if Settled(r.ver) then 0 else cfg.maxAttempts + 1 - r.verAttempts
  }

  lemma {:induction false} RecoveringKeepsPicks(r: Row, p: Pass, cfg: Settings)
    requires RowInv(r, cfg)
    ensures RowInv(Recovered(r, p, cfg), cfg) && Picks(Recovered(r, p, cfg), cfg) == Picks(r, cfg)
  {
    var freed := Apply(r, RecoverExecution(p.executions), cfg);
    ApplyKeepsInv(r, RecoverExecution(p.executions), cfg);
    assert Picks(freed, cfg) == Picks(r, cfg);
    ApplyKeepsInv(freed, RecoverVerification(p.verifications), cfg);
  }

  lemma {:induction false} VerifyingTakesAPick(r: Row, v: Verification, cfg: Settings)
    requires RowInv(r, cfg) && Verifiable(r.exec) && (r.ver == Pending || r.ver == Inconclusive)
    ensures 0 <= Picks(AfterVerify(r, v, cfg), cfg) <= Picks(r, cfg) - 1
  {
    var claimed := Apply(r, Claim(v.owner, v.at), cfg);
    ApplyKeepsInv(r, Claim(v.owner, v.at), cfg);
    assert Settled(claimed.ver) || claimed.verAttempts == r.verAttempts + 1;
    ApplyKeepsInv(claimed, RecordVerification(v.owner, v.verdict, v.evidence, v.finished), cfg);
  }

  /** Being picked uses up one of these chances; nothing gives one back. */
  lemma {:induction false} PickingIsBounded(
    r: Row, r': Row, p: Pass, grace: Time, v: Option<Verification>, cfg: Settings)
    requires RowInv(r, cfg) && AfterPass(r, r', p, grace, v, cfg)
    ensures 0 <= Picks(r', cfg) <= Picks(r, cfg) - (if v.Some? then 1 else 0)
  {
    RecoveringKeepsPicks(r, p, cfg);
    if v.Some? { VerifyingTakesAPick(Recovered(r, p, cfg), v.value, cfg); }
  }

  /** All rows together, listed by `ids`. */
  function PicksLeft(ids: seq<OpId>, n: nat, rows: Rows, cfg: Settings): (total: int)
    requires n <= |ids| && forall i :: 0 <= i < n ==> ids[i] in rows
  {
    if n == 0 then 0 else PicksLeft(ids, n - 1, rows, cfg) + Picks(rows[ids[n - 1]], cfg)
  }

  function Picked(ids: seq<OpId>, n: nat, done: set<OpId>): (count: nat)
    requires n <= |ids|
  {
    if n == 0 then 0 else Picked(ids, n - 1, done) + (if ids[n - 1] in done then 1 else 0)
  }

  predicate Distinct(ids: seq<OpId>) {
    forall i, j :: 0 <= i < j < |ids| ==> ids[i] != ids[j]
  }

  /** Counting through the list counts every picked row once. */
  lemma {:induction false} PickedCounts(ids: seq<OpId>, n: nat, done: set<OpId>)
    requires n <= |ids| && Distinct(ids) && forall id :: id in done ==> exists i :: 0 <= i < n && ids[i] == id
    ensures Picked(ids, n, done) == |done|
  {
    if n == 0 {
      assert done == {};
    } else {
      var last := ids[n - 1];
      PickedCounts(ids, n - 1, done - {last});
      OthersCountTheSame(ids, n - 1, done, last);
      assert last in done ==> |done - {last}| == |done| - 1;
      assert last !in done ==> done - {last} == done;
    }
  }

  lemma {:induction false} OthersCountTheSame(ids: seq<OpId>, n: nat, done: set<OpId>, last: OpId)
    requires n <= |ids| && forall i :: 0 <= i < n ==> ids[i] != last
    ensures Picked(ids, n, done - {last}) == Picked(ids, n, done)
  {
    if n > 0 { OthersCountTheSame(ids, n - 1, done, last); }
  }

  /** What a pass did to the row `id` of the table. */
  ghost predicate PassAt(
    was: Rows, rows: Rows, id: OpId, p: Pass, grace: Time, done: map<OpId, Verification>, cfg: Settings)
  {
    id in rows ==> id in was && RowInv(was[id], cfg) && AfterPass(was[id], rows[id], p, grace, Lookup(done, id), cfg)
  }

  ghost predicate PassOver(was: Rows, rows: Rows, p: Pass, grace: Time, done: map<OpId, Verification>, cfg: Settings) {
    rows.Keys == was.Keys && forall id :: PassAt(was, rows, id, p, grace, done, cfg)
  }

  /** The chances that a row has left go down, by one if it was picked. */
  predicate Spends(was: Rows, rows: Rows, id: OpId, done: set<OpId>, cfg: Settings)
    requires id in was && id in rows
  {
    0 <= Picks(rows[id], cfg) <= Picks(was[id], cfg) - (if id in done then 1 else 0)
  }

  lemma {:induction false} PassSpendsPicks(
    ids: seq<OpId>, n: nat, was: Rows, rows: Rows, done: set<OpId>, cfg: Settings)
    requires n <= |ids|
    requires forall i :: 0 <= i < n ==> ids[i] in rows && ids[i] in was && Spends(was, rows, ids[i], done, cfg)
    ensures 0 <= PicksLeft(ids, n, rows, cfg) <= PicksLeft(ids, n, was, cfg) - Picked(ids, n, done)
    decreases n
  {
    if n > 0 {
      PassSpendsPicks(ids, n - 1, was, rows, done, cfg);
      assert Spends(was, rows, ids[n - 1], done, cfg);
    }
  }

  lemma {:induction false} PicksAtMost(ids: seq<OpId>, n: nat, rows: Rows, cfg: Settings)
    requires n <= |ids| && forall i :: 0 <= i < n ==> ids[i] in rows
    ensures PicksLeft(ids, n, rows, cfg) <= n * (cfg.maxAttempts + 1)
  {
    if n > 0 { PicksAtMost(ids, n - 1, rows, cfg); }
  }

  lemma {:induction false} ListKeys(keys: set<OpId>) returns (ids: seq<OpId>)
    ensures Distinct(ids) && |ids| == |keys| && forall id :: id in keys <==> id in ids
    decreases |keys|
  {
    if keys == {} {
      ids := [];
    } else {
      var id :| id in keys;
      var rest := ListKeys(keys - {id});
      ids := rest + [id];
    }
  }

  lemma {:induction false} RowSpends(
    was: Rows, rows: Rows, id: OpId, p: Pass, grace: Time, done: map<OpId, Verification>, cfg: Settings)
    requires id in rows && id in was && PassAt(was, rows, id, p, grace, done, cfg)
    ensures Spends(was, rows, id, done.Keys, cfg)
  {
    PickingIsBounded(was[id], rows[id], p, grace, Lookup(done, id), cfg);
  }

  /** Every pass reconciles what it can: a full batch, or everything there is. */
  lemma {:induction false} FullPassSpends(
    ids: seq<OpId>, was: Rows, rows: Rows, p: Pass, grace: Time, done: map<OpId, Verification>, cfg: Settings)
    requires Distinct(ids) && (forall id :: id in rows <==> id in ids) && done.Keys <= rows.Keys
    requires PassOver(was, rows, p, grace, done, cfg)
    ensures 0 <= PicksLeft(ids, |ids|, rows, cfg) <= PicksLeft(ids, |ids|, was, cfg) - |done.Keys|
  {
    forall id | id in done.Keys ensures exists i :: 0 <= i < |ids| && ids[i] == id { assert id in ids; }
    PickedCounts(ids, |ids|, done.Keys);
    forall i | 0 <= i < |ids| ensures ids[i] in rows && ids[i] in was && Spends(was, rows, ids[i], done.Keys, cfg) {
      assert ids[i] in ids;
      RowSpends(was, rows, ids[i], p, grace, done, cfg);
    }
    PassSpendsPicks(ids, |ids|, was, rows, done.Keys, cfg);
  }

  ghost predicate AllWaiting(was: Rows, rows: Rows, first: Pass, cfg: Settings) {
    rows.Keys == was.Keys && forall id :: WaitingAt(was, rows, id, first, cfg)
  }

  ghost predicate WaitingAt(was: Rows, rows: Rows, id: OpId, first: Pass, cfg: Settings) {
    id in was && id in rows && Overdue(was[id], first, cfg) ==> Waiting(rows[id], first, cfg)
  }

  ghost predicate SettledAt(was: Rows, rows: Rows, id: OpId, first: Pass, cfg: Settings) {
    id in was && id in rows && Overdue(was[id], first, cfg) ==> Settled(rows[id].ver)
  }

  ghost predicate AllSettled(was: Rows, rows: Rows, first: Pass, cfg: Settings) {
    rows.Keys == was.Keys && forall id :: SettledAt(was, rows, id, first, cfg)
  }

  /** The passes follow each other, and the later ones come after the grace period of the first. */
  ghost predicate InTime(passes: seq<Pass>, grace: Time) {
    && (forall i :: 0 <= i < |passes| ==> passes[i].Ordered() && passes[0].executions <= passes[i].executions)
    && (forall i :: 1 <= i < |passes| ==> passes[0].verifications < passes[i].selection - grace)
  }

  lemma {:induction false} FirstPassWaits(
    was: Rows, rows: Rows, first: Pass, grace: Time, done: map<OpId, Verification>, cfg: Settings)
    requires PassOver(was, rows, first, grace, done, cfg) && first.Ordered()
    ensures AllWaiting(was, rows, first, cfg)
  {
    forall id ensures WaitingAt(was, rows, id, first, cfg) {
      assert PassAt(was, rows, id, first, grace, done, cfg);
      if id in was && id in rows && Overdue(was[id], first, cfg) {
        FirstPass(was[id], rows[id], first, grace, Lookup(done, id), cfg);
      }
    }
  }

  lemma {:induction false} LaterPassAt(
    mid: Rows, rows: Rows, id: OpId, first: Pass, q: Pass, grace: Time, done: map<OpId, Verification>, cfg: Settings)
    requires id in mid && id in rows && Waiting(mid[id], first, cfg) && PassAt(mid, rows, id, q, grace, done, cfg)
    requires q.Ordered() && first.executions <= q.executions && first.verifications < q.selection - grace
    ensures Waiting(rows[id], first, cfg)
    ensures Settled(mid[id].ver) || id in done || !Candidate(rows[id], q.selection - grace) ==> Settled(rows[id].ver)
  {
    LaterPass(mid[id], rows[id], first, q, grace, Lookup(done, id), cfg);
  }

  lemma {:induction false} LaterPassSettles(
    was: Rows, mid: Rows, rows: Rows, first: Pass, q: Pass, grace: Time, done: map<OpId, Verification>, cfg: Settings,
    quiet: bool)
    requires AllWaiting(was, mid, first, cfg) && PassOver(mid, rows, q, grace, done, cfg) && q.Ordered()
    requires first.executions <= q.executions && first.verifications < q.selection - grace
    requires quiet ==> forall id :: id in rows && id !in done ==> !Candidate(rows[id], q.selection - grace)
    ensures AllWaiting(was, rows, first, cfg)
    ensures quiet || AllSettled(was, mid, first, cfg) ==> AllSettled(was, rows, first, cfg)
  {
    forall id
      ensures WaitingAt(was, rows, id, first, cfg)
      ensures quiet || SettledAt(was, mid, id, first, cfg) ==> SettledAt(was, rows, id, first, cfg)
    {
      assert PassAt(mid, rows, id, q, grace, done, cfg) && WaitingAt(was, mid, id, first, cfg);
      if id in was && id in rows && Overdue(was[id], first, cfg) {
        LaterPassAt(mid, rows, id, first, q, grace, done, cfg);
      }
    }
  }

  /**
   The worker's passes, one after another. The first may free an overdue row without picking
   it, because its own update makes the row too recent. A later pass that does not fill its
   batch settles every row that was overdue; and since no row can be picked more than MAX + 1
   times, enough passes settle them whatever the batch size is.
   */
  method ReconcileRepeatedly(journal: MutationJournal, passes: seq<Pass>, grace: Time, batch: nat,
                             clock: nat -> nat -> Time, probes: nat -> nat -> Polling.Attempt, owners: nat -> Owner)
    returns (counts: seq<nat>)
    requires journal.Valid() && journal.cfg.Valid() && passes != [] && InTime(passes, grace)
    requires forall k: nat :: Polling.SoundAttempts(probes(k))
    requires forall i: nat, k: nat :: i < |passes| ==> clock(i)(k) >= passes[i].selection
    modifies journal`rows
    ensures journal.Valid() && |counts| == |passes|
    ensures !Full(counts, batch) || Enough(|passes|, batch, |old(journal.rows)|, journal.cfg) ==>
              AllSettled(old(journal.rows), journal.rows, passes[0], journal.cfg)
  {
    ghost var was := journal.rows;
    ghost var ids, bound := ProgressStarts(was, batch, passes[0], journal.cfg);
    ghost var spent;
    counts, spent := RunPasses(journal, passes, grace, batch, clock, probes, owners, ids, bound);
    ProgressSettles(was, journal.rows, ids, counts, batch, passes[0], bound, spent, journal.cfg);
  }

  method RunPasses(journal: MutationJournal, passes: seq<Pass>, grace: Time, batch: nat,
                   clock: nat -> nat -> Time, probes: nat -> nat -> Polling.Attempt, owners: nat -> Owner,
                   ghost ids: seq<OpId>, ghost bound: int)
    returns (counts: seq<nat>, ghost spent: nat)
    requires journal.Valid() && journal.cfg.Valid() && passes != [] && InTime(passes, grace)
    requires forall k: nat :: Polling.SoundAttempts(probes(k))
    requires forall i: nat, k: nat :: i < |passes| ==> clock(i)(k) >= passes[i].selection
    requires Progress(journal.rows, journal.rows, ids, [], batch, passes[0], bound, 0, journal.cfg)
    modifies journal`rows
    ensures journal.Valid() && |counts| == |passes|
    ensures Progress(old(journal.rows), journal.rows, ids, counts, batch, passes[0], bound, spent, journal.cfg)
  {
    ghost var was := journal.rows;
    counts, spent := [], 0;
    for i := 0 to |passes|
      invariant journal.Valid() && |counts| == i && (i == 0 ==> journal.rows == was)
      invariant Progress(was, journal.rows, ids, counts, batch, passes[0], bound, spent, journal.cfg)
    {
      counts, spent :=
        NextPass(journal, passes, grace, batch, clock(i), probes, owners, counts, was, ids, bound, spent);
    }
  }

  /** The next pass, with what it adds to the progress so far. */
  method NextPass(journal: MutationJournal, passes: seq<Pass>, grace: Time, batch: nat,
                  clock: nat -> Time, probes: nat -> nat -> Polling.Attempt, owners: nat -> Owner, counts: seq<nat>,
                  ghost was: Rows, ghost ids: seq<OpId>, ghost bound: int, ghost spent: nat)
    returns (counts': seq<nat>, ghost spent': nat)
    requires journal.Valid() && journal.cfg.Valid() && InTime(passes, grace) && |counts| < |passes|
    requires forall k: nat :: clock(k) >= passes[|counts|].selection && Polling.SoundAttempts(probes(k))
    requires Progress(was, journal.rows, ids, counts, batch, passes[0], bound, spent, journal.cfg)
    requires counts == [] ==> journal.rows == was
    modifies journal`rows
    ensures journal.Valid() && |counts'| == |counts| + 1
    ensures Progress(was, journal.rows, ids, counts', batch, passes[0], bound, spent', journal.cfg)
  {
    ghost var mid := journal.rows;
    var count;
    ghost var done;
    count, done := ReconcilePass(journal, passes[|counts|], grace, batch, clock, probes, owners);
    MakeProgress(was, mid, journal.rows, ids, counts, count, batch, passes, grace, bound, spent, done, journal.cfg);
    counts' := counts + [count];
    spent' := spent + count;
  }

  /** All passes but the first filled their batch. */
  predicate Full(counts: seq<nat>, batch: nat) {
    forall k :: 1 <= k < |counts| ==> counts[k] >= batch
  }

  /** Where the worker stands after `|counts|` passes, in which it has picked `spent` rows. */
  ghost predicate Progress(was: Rows, rows: Rows, ids: seq<OpId>, counts: seq<nat>, batch: nat, first: Pass,
                           bound: int, spent: nat, cfg: Settings)
  {
    && rows.Keys == was.Keys && Distinct(ids) && |ids| == |was.Keys| && (forall id :: id in was <==> id in ids)
    && (counts != [] ==> AllWaiting(was, rows, first, cfg))
    && (Full(counts, batch) || AllSettled(was, rows, first, cfg))
    && LeftAfter(ids, rows, bound, spent, cfg) && (counts != [] ==> LeftAtAll(ids, rows, cfg))
    && (Full(counts, batch) ==> spent >= Due(|counts|, batch))
  }

  ghost predicate LeftAfter(ids: seq<OpId>, rows: Rows, bound: int, spent: nat, cfg: Settings) {
    && (forall i :: 0 <= i < |ids| ==> ids[i] in rows)
    && PicksLeft(ids, |ids|, rows, cfg) <= bound - spent
  }

  ghost predicate LeftAtAll(ids: seq<OpId>, rows: Rows, cfg: Settings) {
    && (forall i :: 0 <= i < |ids| ==> ids[i] in rows)
    && PicksLeft(ids, |ids|, rows, cfg) >= 0
  }

  lemma {:induction false} FullGrows(counts: seq<nat>, count: nat, batch: nat)
    ensures Full(counts + [count], batch) <==> Full(counts, batch) && (counts != [] ==> count >= batch)
  {
    var more := counts + [count];
    assert forall k :: 0 <= k < |counts| ==> more[k] == counts[k];
    if Full(more, batch) && counts != [] { assert more[|counts|] >= batch; }
  }

  lemma {:induction false} ProgressStarts(was: Rows, batch: nat, first: Pass, cfg: Settings)
    returns (ids: seq<OpId>, bound: int)
    ensures IsBound(bound, |was|, cfg) && Progress(was, was, ids, [], batch, first, bound, 0, cfg)
  {
    ids := ListKeys(was.Keys);
    forall i | 0 <= i < |ids| ensures ids[i] in was { assert ids[i] in ids; }
    PicksAtMost(ids, |ids|, was, cfg);
    bound := |was| * (cfg.maxAttempts + 1);
  }

  lemma {:induction false} MakeProgress(
    was: Rows, mid: Rows, rows: Rows, ids: seq<OpId>, counts: seq<nat>, count: nat, batch: nat, passes: seq<Pass>,
    grace: Time, bound: int, spent: nat, done: map<OpId, Verification>, cfg: Settings)
    requires |counts| < |passes| && InTime(passes, grace)
    requires Progress(was, mid, ids, counts, batch, passes[0], bound, spent, cfg)
    requires PassOver(mid, rows, passes[|counts|], grace, done, cfg)
    requires done.Keys <= rows.Keys && count == |done.Keys|
    requires count < batch ==> forall id :: id in rows && id !in done ==>
               !Candidate(rows[id], passes[|counts|].selection - grace)
    requires counts == [] ==> mid == was
    ensures Progress(was, rows, ids, counts + [count], batch, passes[0], bound, spent + count, cfg)
  {
    var p := passes[|counts|];
    FullGrows(counts, count, batch);
    assert forall id :: id in rows <==> id in ids;
    FullPassSpends(ids, mid, rows, p, grace, done, cfg);
    assert LeftAfter(ids, rows, bound, spent + count, cfg) && LeftAtAll(ids, rows, cfg);
    if counts == [] {
      FirstPassWaits(was, rows, p, grace, done, cfg);
    } else {
      LaterPassSettles(was, mid, rows, passes[0], p, grace, done, cfg, count < batch);
    }
  }

  lemma {:induction false} ProgressSettles(
    was: Rows, rows: Rows, ids: seq<OpId>, counts: seq<nat>, batch: nat, first: Pass, bound: int, spent: nat,
    cfg: Settings)
    requires Progress(was, rows, ids, counts, batch, first, bound, spent, cfg) && counts != []
    requires IsBound(bound, |was|, cfg)
    ensures !Full(counts, batch) || Enough(|counts|, batch, |was|, cfg) ==> AllSettled(was, rows, first, cfg)
  {
    DueIsProduct(|counts|, batch);
  }

  /** How often `rows` rows can be picked altogether. */
  predicate IsBound(bound: int, rows: nat, cfg: Settings) {
    bound == rows * (cfg.maxAttempts + 1)
  }

  /** So many passes after the first cannot all fill their batch. */
  predicate Enough(passes: nat, batch: nat, rows: nat, cfg: Settings) {
    (passes - 1) * batch > rows * (cfg.maxAttempts + 1)
  }

  /** What full passes after the first pick, at least. */
  function Due(passes: nat, batch: nat): (n: nat) {
    if passes <= 1 then 0 else Due(passes - 1, batch) + batch
  }

  lemma {:induction false} DueIsProduct(passes: nat, batch: nat)
    requires passes >= 1
    ensures Due(passes, batch) == (passes - 1) * batch
  {
    if passes > 1 { DueIsProduct(passes - 1, batch); }
  }

  /** One pass, with what it did stated row by row. */
  method ReconcilePass(journal: MutationJournal, p: Pass, grace: Time, batch: nat,
                       clock: nat -> Time, probes: nat -> nat -> Polling.Attempt, owners: nat -> Owner)
    returns (reconciled: nat, ghost done: map<OpId, Verification>)
    requires journal.Valid() && journal.cfg.Valid() && p.Ordered()
    requires forall k: nat :: clock(k) >= p.selection && Polling.SoundAttempts(probes(k))
    modifies journal`rows
    ensures journal.Valid() && PassOver(old(journal.rows), journal.rows, p, grace, done, journal.cfg)
    ensures done.Keys <= journal.rows.Keys && reconciled == |done.Keys|
    ensures reconciled < batch ==> forall id :: id in journal.rows && id !in done ==>
              !Candidate(journal.rows[id], p.selection - grace)
  {
    ghost var was := journal.rows;
    reconciled, done := ReconcileOnce(journal, p, grace, batch, clock, probes, owners);
    forall id ensures PassAt(was, journal.rows, id, p, grace, done, journal.cfg) { }
  }

  /** What the bulk updates of a pass touch carries the time of the pass. */
  lemma {:induction false} FreedRowIsRecent(r: Row, p: Pass, cfg: Settings)
    requires p.Ordered() && Recovered(r, p, cfg) != r
    ensures Recovered(r, p, cfg).updatedAt >= p.executions && Recovered(r, p, cfg).verAttempts == r.verAttempts
  {
    var freed := Apply(r, RecoverExecution(p.executions), cfg);
    assert freed == r || freed.updatedAt == p.executions;
  }

  /** A row that a pass frees is not verified by the same pass while its updates are within the grace period. */
  lemma {:induction false} FreedRowWaits(r: Row, r': Row, p: Pass, grace: Time, v: Option<Verification>, cfg: Settings)
    requires p.Ordered() && p.executions >= p.selection - grace
    requires AfterPass(r, r', p, grace, v, cfg) && Recovered(r, p, cfg) != r
    ensures v.None? && r'.verAttempts == r.verAttempts
  {
    FreedRowIsRecent(r, p, cfg);
  }
}
