/** One tool execution, undisturbed: approval, journal, external call, outcome record. */
module ToolExecutor {
  import opened Common
  import opened Journal
  import opened JournalStore
  import AgentGraph

  /** How the external call ended. */
  datatype External = Succeeded | ReportedError | Raised | CancelledInFlight

  /** Everything that one execution meets on its way. */
  datatype Circumstances = Circumstances(
    refused: bool,              // unknown tool, bad parameters, policy denial, unsupported plan
    needsApproval: bool,
    decision: Option<bool>,
    controlled: bool,           // a journalled infrastructure mutation
    stampRaises: bool,          // the manifest cannot carry the markers
    external: External)

  datatype Outcome =
    | Reply(meta: Option<AgentGraph.Op>)
    | ApprovalPending
    | CancelledError

  /** What marking and then recording an ambiguous or successful outcome leaves behind. */
  lemma {:induction false} MarkedAndRecorded(r: Row, runId: RunId, outcome: ExecutionStatus, now: Time, cfg: Settings)
    requires RowInv(r, cfg) && r.exec == Prepared && Verifiable(outcome)
    ensures var marked := Apply(r, MarkExecuting(runId, now), cfg);
            var recorded := Apply(marked, RecordExecution(outcome, now), cfg);
            && Unfinished(marked, r, runId, now, cfg)
            && recorded.exec == outcome && recorded.ver == r.ver && recorded.attempts == 1
            && recorded.supported == r.supported && recorded.key == r.key && recorded.leaseOwner == None
  {
  }

  /** The execution was marked by this run, and nothing has been recorded: the lease runs. */
  predicate Unfinished(row: Row, r: Row, runId: RunId, now: Time, cfg: Settings) {
    && row.exec == Executing && row.ver == r.ver && row.attempts == 1
    && row.supported == r.supported && row.key == r.key
    && row.leaseOwner == Some(runId) && row.leaseExpires == Some(now + cfg.execLease)
  }

  /** The call is permitted at all: not refused, and approved if approval is needed. */
  predicate Permitted(c: Circumstances) {
    !c.refused && (c.needsApproval ==> c.decision == Some(true))
  }

  /**
   How sending the prepared row `r` ends: what the journal then says, for each way in which the
   external call can end, and what is answered. A failed stamp or an exception leaves the
   execution open, and the answer without a block.
   */
  predicate SentAs(r: Row, row: Row, runId: RunId, c: Circumstances, now: Time, cfg: Settings, outcome: Outcome) {
    if c.stampRaises then Unfinished(row, r, runId, now, cfg) && outcome == Reply(None)
    else
      && row.attempts == 1 && row.ver == r.ver && row.supported == r.supported && row.key == r.key
      && match c.external
         case Succeeded => row.exec == ReportedSuccess && outcome == Reply(Some(AgentGraph.Op(r.id, true)))
         case ReportedError => row.exec == Unknown && outcome == Reply(Some(AgentGraph.Op(r.id, true)))
         case CancelledInFlight => row.exec == Unknown && outcome == CancelledError
         case Raised => Unfinished(row, r, runId, now, cfg) && outcome == Reply(None)
  }

  /** How a request for a row that is already under way or done is answered. */
  predicate AnsweredAs(row: Row, outcome: Outcome) {
    if row.exec == ReportedSuccess || row.exec == Unknown
    then
      var open := row.ver == Pending || row.ver == Verifying || row.ver == Inconclusive;
      outcome == Reply(Some(AgentGraph.Op(row.id, open)))
    else outcome == Reply(None)
  }

  class Executor {
    const journal: MutationJournal
    var calls: seq<OpId>   // external mutation calls, as operation ids

    constructor (journal: MutationJournal)
      ensures this.journal == journal && calls == []
    {
      this.journal := journal;
      calls := [];
    }

    /** Marks, stamps, calls and records a prepared operation. */
    method SendMutation(id: OpId, runId: RunId, c: Circumstances, now: Time) returns (outcome: Outcome)
      requires journal.Valid() && id in journal.rows && journal.rows[id].exec == Prepared
      modifies this`calls, journal`rows
      ensures journal.Valid() && id in journal.rows
      ensures journal.rows == old(journal.rows)[id := journal.rows[id]]
      ensures calls == if c.stampRaises then old(calls) else old(calls) + [id]
      ensures SentAs(old(journal.rows)[id], journal.rows[id], runId, c, now, journal.cfg, outcome)
    {
      ghost var rows := journal.rows;
      ghost var r := rows[id];
      assert RowInv(r, journal.cfg) && r.id == id;
      MarkedAndRecorded(r, runId, Unknown, now, journal.cfg);
      var marked := journal.MarkExecuting(id, runId, now);
      ghost var sent := journal.rows[id];
      if c.stampRaises { return Reply(None); }
      calls := calls + [id];
      if c.external == Raised { return Reply(None); }
      var status := if c.external == Succeeded then ReportedSuccess else Unknown;
      MarkedAndRecorded(r, runId, status, now, journal.cfg);
      var _ := journal.RecordExecution(id, status, now);
      UpdateTwice(rows, id, sent, journal.rows[id]);
      outcome := if c.external == CancelledInFlight then CancelledError else Reply(Some(AgentGraph.Op(id, true)));
    }

    /** Goes on with the row that `Prepare` returned: a repeated request is answered from the journal. */
    method Proceed(row: Row, created: bool, runId: RunId, c: Circumstances, now: Time) returns (outcome: Outcome)
      requires journal.Valid() && row.id in journal.rows && journal.rows[row.id] == row
      requires created ==> row.exec == Prepared
      modifies this`calls, journal`rows
      ensures journal.Valid() && row.id in journal.rows
      ensures journal.rows == old(journal.rows)[row.id := journal.rows[row.id]]
      ensures row.exec == Prepared ==>
                && calls == (if c.stampRaises then old(calls) else old(calls) + [row.id])
                && SentAs(row, journal.rows[row.id], runId, c, now, journal.cfg, outcome)
      ensures row.exec != Prepared ==>
                calls == old(calls) && journal.rows == old(journal.rows) && AnsweredAs(row, outcome)
    {
      assert RowInv(row, journal.cfg);
      assert journal.rows == journal.rows[row.id := row];
      if !created {
        if row.ver == Passed || row.ver == NeedsReview { return Reply(Some(AgentGraph.Op(row.id, false))); }
        if Verifiable(row.exec) { return Reply(Some(AgentGraph.Op(row.id, AgentGraph.StillOpen(row.ver)))); }
        if row.exec != Prepared { return Reply(None); }
      }
      outcome := SendMutation(row.id, runId, c, now);
    }

    /**
     The whole execution. Nothing is journalled or sent unless the call is permitted; `before`
     is the row that the journal then prepared or found for it, unless that row has another
     intent. A prepared row is sent, once, and any other is answered from the journal.
     */
    method Execute(i: Intent, c: Circumstances, now: Time) returns (outcome: Outcome, ghost before: Option<Row>)
      requires journal.Valid()
      modifies this`calls, journal`rows
      ensures journal.Valid()
      ensures outcome.ApprovalPending? <==> !c.refused && c.needsApproval && c.decision.None?
      ensures before.Some? ==> Permitted(c) && c.controlled
      ensures !outcome.ApprovalPending? && !(Permitted(c) && c.controlled) ==>
                outcome == if Permitted(c) && c.external == CancelledInFlight then CancelledError else Reply(None)
      ensures before.None? ==> journal.rows == old(journal.rows) && calls == old(calls)
      ensures before.None? && Permitted(c) && c.controlled ==>
                && outcome == Reply(None)
                && exists x :: Matches(old(journal.rows), x, i) && !SameIntent(old(journal.rows)[x], i)
      ensures before.Some? ==>
                var row := before.value;
                && SameIntent(row, i) && row.id in journal.rows
                && (if Matches(old(journal.rows), row.id, i) then old(journal.rows)[row.id] == row
                    else row.id == i.opId && FreshRow(row) && forall x :: !Matches(old(journal.rows), x, i))
                && journal.rows == old(journal.rows)[row.id := journal.rows[row.id]]
                && (if row.exec == Prepared
                    then && calls == (if c.stampRaises then old(calls) else old(calls) + [row.id])
                         && SentAs(row, journal.rows[row.id], i.runId, c, now, journal.cfg, outcome)
                    else calls == old(calls) && journal.rows[row.id] == row && AnsweredAs(row, outcome))
    {
      before := None;
      if c.refused { return Reply(None), before; }
      if c.needsApproval {
        if c.decision.None? { return ApprovalPending, before; }
        if !c.decision.value { return Reply(None), before; }
      }
      if !c.controlled {
        return if c.external == CancelledInFlight then CancelledError else Reply(None), before;
      }
      ghost var rows := journal.rows;
      var prepared := journal.Prepare(i, now);
      if prepared.Err? { return Reply(None), before; }
      var row, created := prepared.value.0, prepared.value.1;
      before := Some(row);
      outcome := Proceed(row, created, i.runId, c, now);
      UpdateTwice(rows, row.id, row, journal.rows[row.id]);
    }
  }
}
