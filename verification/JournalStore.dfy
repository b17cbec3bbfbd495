/** The journal service: the table of rows and the operations that callers may use on it. */
module JournalStore {
  import opened Common
  import opened Journal

  /** What an executor asks the journal to prepare. */
  datatype Intent = Intent(
    opId: OpId, runId: RunId, conversation: string, callId: string, tool: string, args: string,
    suppliedKey: Option<string>, supported: bool)

  datatype JournalError = NotFound | InvalidTransition | KeyCollision

  type Rows = map<OpId, Row>

  function KeyOf(i: Intent): (k: Key) {
    if i.suppliedKey.Some? && i.suppliedKey.value != ""
    then Supplied(i.suppliedKey.value)
    else Derived(i.conversation, i.callId, i.tool, i.args)
  }

  predicate SameIntent(r: Row, i: Intent) {
    r.tool == i.tool && r.argsHmac == ArgsHmac(i.tool, i.args)
  }

  /** The rows that `prepare` looks up: those of the operation id or of the idempotency key. */
  predicate Matches(rows: Rows, id: OpId, i: Intent) {
    id in rows && (id == i.opId || rows[id].key == KeyOf(i))
  }

  function NewRow(i: Intent, now: Time): (r: Row)
    ensures FreshRow(r) && r.id == i.opId && r.key == KeyOf(i) && SameIntent(r, i)
    ensures r.runId == i.runId && r.callId == i.callId && r.supported == i.supported && r.createdAt == now
  {
    Row(i.opId, KeyOf(i), i.runId, i.callId, i.tool, ArgsHmac(i.tool, i.args), i.supported,
        Prepared, if i.supported then Pending else NotRequired, 0, 0,
        None, None, None, None, NO_EVIDENCE, now, now, 1)
  }

  /** A row that was made for an intent says whose it is and what was asked. */
  predicate Describes(r: Row, i: Intent, now: Time) {
    && r.id == i.opId && r.key == KeyOf(i) && r.runId == i.runId && r.callId == i.callId
    && r.tool == i.tool && r.argsHmac == ArgsHmac(i.tool, i.args) && r.supported == i.supported && r.createdAt == now
  }

  /** Two intents have one key exactly if both name it, or both leave it and ask for the same call. */
  lemma {:induction false} KeysAgree(a: Intent, b: Intent)
    ensures KeyOf(a) == KeyOf(b) <==>
            if a.suppliedKey.GetOr("") != "" || b.suppliedKey.GetOr("") != ""
            then a.suppliedKey.GetOr("") == b.suppliedKey.GetOr("")
            else a.conversation == b.conversation && a.callId == b.callId && a.tool == b.tool && a.args == b.args
  {
  }

  /** A row answers an intent exactly if it was made for the same tool and arguments. */
  lemma {:induction false} IntentsAgree(a: Intent, b: Intent, now: Time)
    ensures SameIntent(NewRow(a, now), b) <==> a.tool == b.tool && a.args == b.args
  {
  }

  /** The table invariant: sound rows, filed under their id, with distinct keys. */
  ghost predicate TableInv(rows: Rows, cfg: Settings) {
    && (forall id :: id in rows ==> rows[id].id == id && RowInv(rows[id], cfg))
    && (forall a, b :: a in rows && b in rows && rows[a].key == rows[b].key ==> a == b)
  }

  function ApplyAt(rows: Rows, id: OpId, c: Call, cfg: Settings): (rows': Rows)
    requires id in rows
  {
    rows[id := Apply(rows[id], c, cfg)]
  }

  /** A bulk UPDATE: every row that the call accepts is changed, in one statement. */
  function ApplyAll(rows: Rows, c: Call, cfg: Settings): (rows': Rows)
  {
    map id | id in rows :: Apply(rows[id], c, cfg)
  }

  lemma {:induction false} ApplyAtKeepsTable(rows: Rows, id: OpId, c: Call, cfg: Settings)
    requires TableInv(rows, cfg) && id in rows
    ensures TableInv(ApplyAt(rows, id, c, cfg), cfg)
  {
    ApplyKeepsInv(rows[id], c, cfg);
  }

  lemma {:induction false} ApplyAllKeepsTable(rows: Rows, c: Call, cfg: Settings)
    requires TableInv(rows, cfg)
    ensures TableInv(ApplyAll(rows, c, cfg), cfg)
  {
    forall id | id in rows
      ensures RowInv(Apply(rows[id], c, cfg), cfg) && Forward(rows[id], Apply(rows[id], c, cfg))
    {
      ApplyKeepsInv(rows[id], c, cfg);
    }
  }

  lemma {:induction false} InsertKeepsTable(rows: Rows, r: Row, cfg: Settings)
    requires TableInv(rows, cfg) && FreshRow(r) && r.id !in rows
    requires forall id :: id in rows ==> rows[id].key != r.key
    ensures TableInv(rows[r.id := r], cfg)
  {
  }

  /** The filter and SET clause of the stale-execution UPDATE, column by column. */
  function SetStaleExecution(r: Row, now: Time, cfg: Settings): (r': Row)
    ensures r' == Apply(r, RecoverExecution(now), cfg)
  {
    if r.exec == Executing && (r.leaseExpires.None? || r.leaseExpires.value < now)
    then r.(exec := Unknown, ver := Pending, leaseOwner := None, leaseExpires := None,
            verOwner := None, verExpires := None, version := r.version + 1, updatedAt := now)
    else r
  }

  /** The filter and SET clause of the stale-verification UPDATE, column by column. */
  function SetStaleVerification(r: Row, now: Time, cfg: Settings): (r': Row)
    ensures r' == Apply(r, RecoverVerification(now), cfg)
  {
    if r.ver == Verifying && (r.verExpires.None? || r.verExpires.value < now)
    then r.(ver := Inconclusive, evidence := Evidence(VerificationLeaseExpired, false),
            verOwner := None, verExpires := None, version := r.version + 1, updatedAt := now)
    else r
  }

  /** What Stop promises for one row. */
  predicate Converged(r: Row, r': Row, run: RunId) {
    if r.runId != run || ExecRank(r.exec) == 2 then r' == r
    else if r.exec == Prepared then
      r'.exec == Cancelled && r'.attempts == r.attempts && r'.ver == NotRequired
    else
      r'.exec == Unknown && r'.attempts == r.attempts && r'.ver == Pending
  }

  lemma {:induction false} StopConvergesRow(r: Row, run: RunId, now: Time, cfg: Settings)
    requires RowInv(r, cfg)
    ensures Converged(r, Apply(Apply(r, StopPrepared(run, now), cfg), StopExecuting(run, now), cfg), run)
  {
  }

  lemma {:induction false} UpdateTwice(rows: Rows, id: OpId, a: Row, b: Row)
    ensures rows[id := a][id := b] == rows[id := b]
  {
  }

  /** A sent row is up for verification by `owner`: nobody else holds it, and the budget is not spent. */
  predicate Grantable(r: Row, owner: Owner, now: Time, cfg: Settings) {
    && (r.ver == Pending || r.ver == Inconclusive
        || (r.ver == Verifying && (r.verOwner == Some(owner) || r.verExpires.None? || r.verExpires.value <= now)))
    && r.verAttempts < cfg.maxAttempts && now - r.createdAt < cfg.maxAge
  }

  /** What a claim makes of a sent row: the budget is looked at before the lease. */
  method ClaimRow(op: Row, owner: Owner, now: Time, cfg: Settings) returns (op': Row, granted: bool)
    requires Verifiable(op.exec)
    ensures op' == Apply(op, Claim(owner, now), cfg)
    ensures granted <==> Claims(op, Claim(owner, now), cfg)
    ensures granted <==> Grantable(op, owner, now, cfg)
  {
    op' := op;
    if Settled(op.ver) || op.ver == NotRequired { return op', false; }
    if BudgetExhausted(op, now, cfg) {
      op' := op'.(ver := NeedsReview, evidence := Evidence(VerificationBudgetExhausted, false));
      op' := op'.(verOwner := None, verExpires := None);
      op' := op'.(version := op.version + 1, updatedAt := now);
      return op', false;
    }
    if VerLeaseLive(op, now) && op.verOwner != Some(owner) { return op', false; }
    op' := op'.(ver := Verifying, verAttempts := op.verAttempts + 1, verOwner := Some(owner));
    op' := op'.(verExpires := Some(now + VerLeaseSeconds(cfg) as real));
    op' := op'.(version := op.version + 1, updatedAt := now);
    granted := true;
  }

  class MutationJournal {
    var rows: Rows
    const cfg: Settings

    ghost predicate Valid()
      reads this
    {
      TableInv(rows, cfg)
    }

    constructor (cfg: Settings)
      ensures Valid() && rows == map[] && this.cfg == cfg
    {
      this.cfg := cfg;
      rows := map[];
    }

    /**
     Returns the existing row for the operation id or the idempotency key, or inserts a
     fresh one. The lookup and the insert race in the service; `Protocol` interleaves them.
     */
    method Prepare(i: Intent, now: Time) returns (result: Result<(Row, bool), JournalError>)
      requires Valid()
      modifies this`rows
      ensures Valid()
      ensures result.Ok? && result.value.1 ==>
                && i.opId !in old(rows)
                && rows == old(rows)[i.opId := result.value.0] && FreshRow(result.value.0)
                && Describes(result.value.0, i, now)
                && (forall id :: id in old(rows) ==> old(rows)[id].key != KeyOf(i))
      ensures !(result.Ok? && result.value.1) ==> rows == old(rows)
      ensures result.Ok? ==>
                && result.value.0.id in rows && rows[result.value.0.id] == result.value.0
                && SameIntent(result.value.0, i)
                && (result.value.0.id == i.opId || result.value.0.key == KeyOf(i))
      ensures result.Err? ==>
                result == Err(KeyCollision) && exists id :: Matches(old(rows), id, i) && !SameIntent(old(rows)[id], i)
      ensures ((exists id :: Matches(old(rows), id, i))
               && (forall id :: Matches(old(rows), id, i) ==> !SameIntent(old(rows)[id], i))) ==> result.Err?
      ensures (forall id :: !Matches(old(rows), id, i)) <==> result.Ok? && result.value.1
    {
      var matching := set id | id in rows && Matches(rows, id, i);
      if matching != {} {
        var id :| id in matching;
        assert Matches(rows, id, i);
        if !SameIntent(rows[id], i) { return Err(KeyCollision); }
        return Ok((rows[id], false));
      }
      var r := NewRow(i, now);
      assert i.opId !in matching;
      forall id | id in rows
        ensures rows[id].key != r.key
      {
        assert id !in matching;
      }
      InsertKeepsTable(rows, r, cfg);
      rows := rows[i.opId := r];
      result := Ok((r, true));
    }

    method MarkExecuting(id: OpId, owner: Owner, now: Time) returns (result: Result<Row, JournalError>)
      requires Valid()
      modifies this`rows
      ensures Valid()
      ensures id !in old(rows) ==> result == Err(NotFound) && rows == old(rows)
      ensures id in old(rows) ==>
                && rows == ApplyAt(old(rows), id, Call.MarkExecuting(owner, now), cfg)
                && (result.Ok? <==> old(rows)[id].exec == Prepared)
                && (result.Ok? ==>
                      && result.value == rows[id] && rows[id].exec == Executing && rows[id].attempts == 1
                      && rows[id].leaseOwner == Some(owner) && rows[id].leaseExpires == Some(now + cfg.execLease))
    {
      if id !in rows { return Err(NotFound); }
      ApplyAtKeepsTable(rows, id, Call.MarkExecuting(owner, now), cfg);
      var op := rows[id];
      if op.exec != Prepared {
        assert rows[id := op] == rows;
        return Err(InvalidTransition);
      }
      op := op.(exec := Executing, attempts := op.attempts + 1);
      op := op.(leaseOwner := Some(owner), leaseExpires := Some(now + cfg.execLease));
      op := op.(version := op.version + 1, updatedAt := now);
      assert op == Apply(rows[id], Call.MarkExecuting(owner, now), cfg);
      rows := rows[id := op];
      result := Ok(op);
    }

    method RecordExecution(id: OpId, status: ExecutionStatus, now: Time)
      returns (result: Result<Row, JournalError>)
      requires Valid()
      modifies this`rows
      ensures Valid()
      ensures id !in old(rows) ==> result.Err? && rows == old(rows)
      ensures id in old(rows) ==>
                && rows == ApplyAt(old(rows), id, Call.RecordExecution(status, now), cfg)
                && (result.Ok? <==>
                      && status in {ReportedSuccess, ExecFailed, Unknown, Cancelled}
                      && old(rows)[id].exec == Executing)
                && (result.Ok? ==> result.value == rows[id] && result.value.exec == status)
    {
      if id in rows {
        ApplyAtKeepsTable(rows, id, Call.RecordExecution(status, now), cfg);
        assert rows[id := rows[id]] == rows;
      }
      if !ValidOutcome(status) { return Err(InvalidTransition); }
      if id !in rows { return Err(NotFound); }
      var op := rows[id];
      if op.exec != Executing { return Err(InvalidTransition); }
      op := op.(exec := status, leaseOwner := None, leaseExpires := None);
      if status == ExecFailed || status == Cancelled {
        op := op.(ver := NotRequired, verOwner := None, verExpires := None);
      }
      op := op.(version := op.version + 1, updatedAt := now);
      assert op == Apply(rows[id], Call.RecordExecution(status, now), cfg);
      rows := rows[id := op];
      result := Ok(op);
    }

    method ClaimVerification(id: OpId, owner: Owner, now: Time)
      returns (result: Result<(Row, bool), JournalError>)
      requires Valid()
      modifies this`rows
      ensures Valid()
      ensures id !in old(rows) ==> result == Err(NotFound) && rows == old(rows)
      ensures id in old(rows) ==>
                && rows == ApplyAt(old(rows), id, Claim(owner, now), cfg)
                && (result.Err? <==> old(rows)[id].exec !in {ReportedSuccess, Unknown})
                && (result.Ok? ==>
                      && result.value.0 == rows[id]
                      && (result.value.1 ==> rows[id].ver == Verifying && rows[id].verOwner == Some(owner)
                                             && rows[id].verExpires == Some(now + VerLeaseSeconds(cfg) as real))
                      && (result.value.1 <==> Grantable(old(rows)[id], owner, now, cfg)))
    {
      if id !in rows { return Err(NotFound); }
      ApplyAtKeepsTable(rows, id, Claim(owner, now), cfg);
      assert rows[id := rows[id]] == rows;
      var op := rows[id];
      if !Verifiable(op.exec) { return Err(InvalidTransition); }
      var granted;
      op, granted := ClaimRow(op, owner, now, cfg);
      rows := rows[id := op];
      result := Ok((op, granted));
    }

    method RecordVerification(id: OpId, owner: Owner, status: VerificationStatus, evidence: Evidence, now: Time)
      returns (result: Result<Row, JournalError>)
      requires Valid()
      modifies this`rows
      ensures Valid()
      ensures id !in old(rows) ==> result.Err? && rows == old(rows)
      ensures id in old(rows) ==>
                && rows == ApplyAt(old(rows), id, Call.RecordVerification(owner, status, evidence, now), cfg)
                && (result.Ok? <==>
                      && status in {Passed, CheckFailed, Inconclusive}
                      && old(rows)[id].ver == Verifying && old(rows)[id].verOwner == Some(owner))
                && (result.Ok? <==> rows != old(rows))
                && (result.Ok? ==>
                      result.value == rows[id] && result.value.ver == status && result.value.evidence == evidence)
    {
      if id in rows {
        ApplyAtKeepsTable(rows, id, Call.RecordVerification(owner, status, evidence, now), cfg);
        assert rows[id := rows[id]] == rows;
      }
      if !ValidVerdict(status) { return Err(InvalidTransition); }
      if id !in rows { return Err(NotFound); }
      var op := rows[id];
      if op.ver != Verifying || op.verOwner != Some(owner) { return Err(InvalidTransition); }
      op := op.(ver := status, evidence := evidence, verOwner := None, verExpires := None);
      op := op.(version := op.version + 1, updatedAt := now);
      assert op == Apply(rows[id], Call.RecordVerification(owner, status, evidence, now), cfg);
      rows := rows[id := op];
      result := Ok(op);
    }

    method AbandonVerification(id: OpId, owner: Owner, reason: Reason, now: Time)
      returns (result: Result<bool, JournalError>)
      requires Valid()
      modifies this`rows
      ensures Valid()
      ensures id !in old(rows) ==> result == Err(NotFound) && rows == old(rows)
      ensures id in old(rows) ==>
                && rows == ApplyAt(old(rows), id, Abandon(owner, reason, now), cfg)
                && result == Ok(old(rows)[id].ver == Verifying && old(rows)[id].verOwner == Some(owner))
                && result == Ok(rows != old(rows))
    {
      if id !in rows { return Err(NotFound); }
      ApplyAtKeepsTable(rows, id, Abandon(owner, reason, now), cfg);
      assert rows[id := rows[id]] == rows;
      var op := rows[id];
      if op.ver != Verifying || op.verOwner != Some(owner) { return Ok(false); }
      op := op.(ver := Inconclusive, evidence := Evidence(reason, false));
      op := op.(verOwner := None, verExpires := None, version := op.version + 1, updatedAt := now);
      assert op == Apply(rows[id], Abandon(owner, reason, now), cfg);
      rows := rows[id := op];
      result := Ok(true);
    }

    /** Executions whose lease ran out become ambiguous; a live lease is left alone. */
    method RecoverStaleExecutions(now: Time)
      requires Valid()
      modifies this`rows
      ensures Valid() && rows == ApplyAll(old(rows), RecoverExecution(now), cfg)
      ensures forall id :: id in rows && rows[id].exec == Executing ==>
                rows[id] == old(rows)[id] && rows[id].leaseExpires.value >= now
    {
      var updated := map id | id in rows :: SetStaleExecution(rows[id], now, cfg);
      assert updated == ApplyAll(rows, RecoverExecution(now), cfg);
      ApplyAllKeepsTable(rows, RecoverExecution(now), cfg);
      rows := updated;
    }

    /** Verifications whose lease ran out are released; a live lease is left alone. */
    method RecoverStaleVerifications(now: Time)
      requires Valid()
      modifies this`rows
      ensures Valid() && rows == ApplyAll(old(rows), RecoverVerification(now), cfg)
      ensures forall id :: id in rows && rows[id].ver == Verifying ==>
                rows[id] == old(rows)[id] && rows[id].verExpires.value >= now
    {
      var updated := map id | id in rows :: SetStaleVerification(rows[id], now, cfg);
      assert updated == ApplyAll(rows, RecoverVerification(now), cfg);
      ApplyAllKeepsTable(rows, RecoverVerification(now), cfg);
      rows := updated;
    }

    /** Stop convergence: a run's unsent operations are cancelled, its sent ones become ambiguous. */
    method ConvergeStoppedRun(run: RunId, now: Time)
      requires Valid()
      modifies this`rows
      ensures Valid() && rows.Keys == old(rows).Keys
      ensures forall id :: id in rows ==> Converged(old(rows)[id], rows[id], run)
    {
      ghost var was := rows;
      ApplyAllKeepsTable(rows, StopPrepared(run, now), cfg);
      rows := ApplyAll(rows, StopPrepared(run, now), cfg);
      ApplyAllKeepsTable(rows, StopExecuting(run, now), cfg);
      rows := ApplyAll(rows, StopExecuting(run, now), cfg);
      forall id | id in rows
        ensures Converged(was[id], rows[id], run)
      {
        StopConvergesRow(was[id], run, now, cfg);
      }
    }
  }
}
