/**
 The mutation-control protocol: any number of executors, verifiers, recovery passes,
 Stop requests and crashes, interleaved over one journal table and one external system.
 */
module Protocol {
  import opened Common
  import opened Journal
  import opened JournalStore

  /** Where an executor stands. The lookup and the insert of `prepare` are separate steps. */
  datatype Pc =
    | LookingUp(intent: Intent)
    | Inserting(intent: Intent)
    | Ready(intent: Intent, id: OpId)
    | Armed(intent: Intent, id: OpId)
    | Called(intent: Intent, id: OpId)
    | Done

  /** One external mutation call: the operation it carried and the key its caller asked for. */
  datatype Sent = Sent(id: OpId, asked: Key)

  /** `sent` is the log of external mutation calls, oldest first. */
  datatype State = State(rows: Rows, pcs: map<nat, Pc>, sent: seq<Sent>)
  {
    predicate WasSent(id: OpId) {
      exists i :: 0 <= i < |sent| && sent[i].id == id
    }
  }

  datatype Step =
    | Start(e: nat, intent: Intent)
    | Lookup(e: nat, hit: Option<OpId>)
    | Insert(e: nat, clash: Option<OpId>, now: Time)
    | Mark(e: nat, now: Time)
    | Send(e: nat)
    | Report(e: nat, outcome: ExecutionStatus, now: Time)
    | Crash(e: nat)
    | Verify(id: OpId, call: Call)
    | Bulk(call: Call)

  predicate Names(r: Row, i: Intent) {
    r.id == i.opId || r.key == KeyOf(i)
  }

  /** The duplicate-suppression branches: only a row still PREPARED may go on. */
  function Decide(i: Intent, seen: Row): (pc: Pc)
    ensures pc == Done || pc == Ready(i, seen.id)
  {
    if !SameIntent(seen, i) then Done
    else if seen.ver == Passed || seen.ver == NeedsReview then Done
    else if Verifiable(seen.exec) then Done
    else if seen.exec != Prepared then Done
    else Ready(i, seen.id)
  }

  /** A verdict that the verifier can hand to the journal (see `Polling.PollUntilVerdict`). */
  predicate Honest(verdict: VerificationStatus, e: Evidence) {
    verdict == Passed ==> !e.partialCommit && e.reason != PartialCommitDetected
  }

  predicate VerifierCall(c: Call) {
    c.Claim? || c.Abandon? || (c.RecordVerification? && Honest(c.verdict, c.evidence))
  }

  predicate BulkCall(c: Call) {
    c.RecoverExecution? || c.RecoverVerification? || c.StopPrepared? || c.StopExecuting?
  }

  ghost predicate Enabled(s: State, step: Step) {
    match step
    case Start(e, _) => e !in s.pcs
    case Lookup(e, hit) =>
      && e in s.pcs && s.pcs[e].LookingUp?
      && (match hit
          case Some(id) => id in s.rows && Names(s.rows[id], s.pcs[e].intent)
          case None => forall id :: id in s.rows ==> !Names(s.rows[id], s.pcs[e].intent))
    case Insert(e, clash, _) =>
      && e in s.pcs && s.pcs[e].Inserting?
      && (match clash
          case Some(id) => id in s.rows && s.rows[id].key == KeyOf(s.pcs[e].intent)
          case None => forall id :: id in s.rows ==> s.rows[id].key != KeyOf(s.pcs[e].intent))
    case Mark(e, _) => e in s.pcs && s.pcs[e].Ready? && s.pcs[e].id in s.rows
    case Send(e) => e in s.pcs && s.pcs[e].Armed?
    case Report(e, outcome, _) =>
      e in s.pcs && s.pcs[e].Called? && s.pcs[e].id in s.rows && Verifiable(outcome)
    case Crash(e) => e in s.pcs
    case Verify(id, call) => id in s.rows && VerifierCall(call)
    case Bulk(call) => BulkCall(call)
  }

  /** The row table after a step. */
  function RowsAfter(s: State, step: Step, cfg: Settings): (rows: Rows)
  {
    match step
    case Insert(e, clash, now) =>
      if e in s.pcs && s.pcs[e].Inserting? && clash.None? && s.pcs[e].intent.opId !in s.rows
      then s.rows[s.pcs[e].intent.opId := NewRow(s.pcs[e].intent, now)]
      else s.rows
    case Mark(e, now) =>
      if e in s.pcs && s.pcs[e].Ready? && s.pcs[e].id in s.rows
      then ApplyAt(s.rows, s.pcs[e].id, MarkExecuting(s.pcs[e].intent.runId, now), cfg)
      else s.rows
    case Report(e, outcome, now) =>
      if e in s.pcs && s.pcs[e].Called? && s.pcs[e].id in s.rows
      then ApplyAt(s.rows, s.pcs[e].id, RecordExecution(outcome, now), cfg)
      else s.rows
    case Verify(id, call) => if id in s.rows then ApplyAt(s.rows, id, call, cfg) else s.rows
    case Bulk(call) => ApplyAll(s.rows, call, cfg)
    case _ => s.rows
  }

  function PcAfter(s: State, step: Step): (pc: Pc)
    requires !step.Start? && !step.Verify? && !step.Bulk? && step.e in s.pcs
  {
    var pc := s.pcs[step.e];
    match step
    case Lookup(_, hit) =>
      if !pc.LookingUp? then pc
      else if hit.Some? && hit.value in s.rows then Decide(pc.intent, s.rows[hit.value])
      else Inserting(pc.intent)
    case Insert(_, clash, _) =>
      if !pc.Inserting? then pc
      else if clash.Some? && clash.value in s.rows then Decide(pc.intent, s.rows[clash.value])
      else if pc.intent.opId in s.rows then Done
      else Ready(pc.intent, pc.intent.opId)
    case Mark(_, _) =>
      if pc.Ready? && pc.id in s.rows && s.rows[pc.id].exec == Prepared
      then Armed(pc.intent, pc.id) else Done
    case Send(_) => if pc.Armed? then Called(pc.intent, pc.id) else pc
    case _ => Done
  }

  function After(s: State, step: Step, cfg: Settings): (s': State)
  {
    var rows := RowsAfter(s, step, cfg);
    if step.Verify? || step.Bulk? then s.(rows := rows)
    else if step.Start? then s.(pcs := s.pcs[step.e := LookingUp(step.intent)])
    else if step.e !in s.pcs then s
    else State(rows, s.pcs[step.e := PcAfter(s, step)], SentAfter(s, step))
  }

  function SentAfter(s: State, step: Step): (sent: seq<Sent>)
  {
    if step.Send? && step.e in s.pcs && s.pcs[step.e].Armed?
    then s.sent + [Sent(s.pcs[step.e].id, KeyOf(s.pcs[step.e].intent))]
    else s.sent
  }

  // ---------------------------------------------------------------- invariant

  ghost predicate SendInv(s: State) {
    && (forall e :: e in s.pcs && HasRow(s.pcs[e]) ==> s.pcs[e].id in s.rows)
    && (forall e :: e in s.pcs && s.pcs[e].Armed? ==>
          s.rows[s.pcs[e].id].attempts == 1 && !s.WasSent(s.pcs[e].id))
    && (forall e, f :: e in s.pcs && f in s.pcs && BothArmed(s.pcs[e], s.pcs[f]) ==> e == f)
    && (forall i :: 0 <= i < |s.sent| ==>
          s.sent[i].id in s.rows && s.rows[s.sent[i].id].attempts == 1)
    && (forall i, j :: 0 <= i < j < |s.sent| ==> s.sent[i].id != s.sent[j].id)
  }

  predicate HasRow(pc: Pc) {
    pc.Ready? || pc.Armed? || pc.Called?
  }

  predicate BothArmed(p: Pc, q: Pc) {
    p.Armed? && q.Armed? && p.id == q.id
  }

  /** A PASSED row never carries evidence of a partial commit. */
  predicate HonestRow(r: Row) {
    Honest(r.ver, r.evidence)
  }

  ghost predicate Inv(s: State, cfg: Settings) {
    TableOk(s.rows, cfg) && SendInv(s)
  }

  /** How a step may change the table: old rows move forward, new rows are fresh. */
  ghost predicate RowsForward(rows: Rows, rows': Rows) {
    && (forall id :: id in rows ==> id in rows' && Forward(rows[id], rows'[id]))
    && (forall id :: id in rows' && id !in rows ==> FreshRow(rows'[id]))
  }

  ghost predicate TableOk(rows: Rows, cfg: Settings) {
    TableInv(rows, cfg) && forall id :: id in rows ==> HonestRow(rows[id])
  }

  lemma {:induction false} HonestStep(r: Row, c: Call, cfg: Settings)
    requires HonestRow(r) && (c.RecordVerification? ==> Honest(c.verdict, c.evidence))
    ensures HonestRow(Apply(r, c, cfg))
  {
  }

  lemma {:induction false} RowsForwardRefl(rows: Rows)
    ensures RowsForward(rows, rows)
  {
    forall x | x in rows ensures Forward(rows[x], rows[x]) { ForwardRefl(rows[x]); }
  }

  /** Applying one call to one row keeps everything that concerns the table. */
  lemma {:induction false} ApplyAtStep(rows: Rows, id: OpId, c: Call, cfg: Settings)
    requires TableOk(rows, cfg) && id in rows
    requires c.RecordVerification? ==> Honest(c.verdict, c.evidence)
    ensures TableOk(ApplyAt(rows, id, c, cfg), cfg)
    ensures RowsForward(rows, ApplyAt(rows, id, c, cfg))
  {
    ApplyAtKeepsTable(rows, id, c, cfg);
    ApplyKeepsInv(rows[id], c, cfg);
    HonestStep(rows[id], c, cfg);
    RowsForwardRefl(rows);
  }

  lemma {:induction false} ApplyAllStep(rows: Rows, c: Call, cfg: Settings)
    requires TableOk(rows, cfg) && BulkCall(c)
    ensures TableOk(ApplyAll(rows, c, cfg), cfg)
    ensures RowsForward(rows, ApplyAll(rows, c, cfg))
  {
    ApplyAllKeepsTable(rows, c, cfg);
    forall x | x in rows
      ensures Forward(rows[x], Apply(rows[x], c, cfg)) && HonestRow(Apply(rows[x], c, cfg))
    {
      ApplyKeepsInv(rows[x], c, cfg);
      HonestStep(rows[x], c, cfg);
    }
  }

  lemma {:induction false} InsertStep(rows: Rows, i: Intent, now: Time, cfg: Settings)
    requires TableOk(rows, cfg) && i.opId !in rows
    requires forall id :: id in rows ==> rows[id].key != KeyOf(i)
    ensures TableOk(rows[i.opId := NewRow(i, now)], cfg)
    ensures RowsForward(rows, rows[i.opId := NewRow(i, now)])
  {
    InsertKeepsTable(rows, NewRow(i, now), cfg);
    RowsForwardRefl(rows);
  }

  lemma {:induction false} StepMovesTableForward(s: State, step: Step, cfg: Settings)
    requires TableOk(s.rows, cfg) && Enabled(s, step)
    ensures TableOk(RowsAfter(s, step, cfg), cfg)
    ensures RowsForward(s.rows, RowsAfter(s, step, cfg))
  {
    if step.Mark? {
      ApplyAtStep(s.rows, s.pcs[step.e].id, MarkExecuting(s.pcs[step.e].intent.runId, step.now), cfg);
    } else if step.Report? {
      ApplyAtStep(s.rows, s.pcs[step.e].id, RecordExecution(step.outcome, step.now), cfg);
    } else if step.Verify? {
      ApplyAtStep(s.rows, step.id, step.call, cfg);
    } else if step.Bulk? {
      ApplyAllStep(s.rows, step.call, cfg);
    } else if step.Insert? && step.clash.None? && s.pcs[step.e].intent.opId !in s.rows {
      InsertStep(s.rows, s.pcs[step.e].intent, step.now, cfg);
    } else {
      RowsForwardRefl(s.rows);
    }
  }

  /** Rows moving forward cannot disturb the accounting of calls already made or armed. */
  lemma {:induction false} ForwardKeepsSendInv(s: State, rows': Rows, cfg: Settings)
    requires SendInv(s) && RowsForward(s.rows, rows') && TableOk(rows', cfg)
    ensures SendInv(s.(rows := rows'))
  {
  }

  lemma {:induction false} QuietPcKeepsSendInv(s: State, e: nat, pc: Pc)
    requires SendInv(s) && !pc.Armed? && (HasRow(pc) ==> pc.id in s.rows)
    ensures SendInv(s.(pcs := s.pcs[e := pc]))
  {
  }

  /** Arming is safe for a row that nobody is armed for and that was not sent. */
  lemma {:induction false} ArmingKeepsSendInv(s: State, e: nat, pc: Pc)
    requires SendInv(s) && pc.Armed? && pc.id in s.rows && s.rows[pc.id].attempts == 1
    requires !s.WasSent(pc.id)
    requires forall f :: f in s.pcs && s.pcs[f].Armed? ==> s.pcs[f].id != pc.id
    ensures SendInv(s.(pcs := s.pcs[e := pc]))
  {
  }

  lemma {:induction false} SendingKeepsSendInv(s: State, e: nat)
    requires SendInv(s) && e in s.pcs && s.pcs[e].Armed?
    ensures SendInv(State(s.rows, s.pcs[e := Called(s.pcs[e].intent, s.pcs[e].id)], SentAfter(s, Send(e))))
  {
    var s' := State(s.rows, s.pcs[e := Called(s.pcs[e].intent, s.pcs[e].id)], SentAfter(s, Send(e)));
    forall f | f in s'.pcs && s'.pcs[f].Armed?
      ensures !s'.WasSent(s'.pcs[f].id)
    {
      assert !BothArmed(s.pcs[e], s.pcs[f]);
      assert !s.WasSent(s.pcs[f].id);
    }
    forall i, j | 0 <= i < j < |s'.sent|
      ensures s'.sent[i].id != s'.sent[j].id
    {
      assert !s.WasSent(s.pcs[e].id);
    }
  }

  /** PREPARED means no attempt yet: nobody is armed for the row, and it was not sent. */
  lemma {:induction false} PreparedIsUntouched(s: State, id: OpId, cfg: Settings)
    requires Inv(s, cfg) && id in s.rows && s.rows[id].exec == Prepared
    ensures s.rows[id].attempts == 0 && !s.WasSent(id)
    ensures forall f :: f in s.pcs && s.pcs[f].Armed? ==> s.pcs[f].id != id
  {
    assert RowInv(s.rows[id], cfg);
  }

  lemma {:induction false} MarkKeepsSendInv(s: State, step: Step, cfg: Settings)
    requires Inv(s, cfg) && Enabled(s, step) && step.Mark?
    ensures SendInv(After(s, step, cfg))
  {
    StepMovesTableForward(s, step, cfg);
    var mid := s.(rows := RowsAfter(s, step, cfg));
    ForwardKeepsSendInv(s, mid.rows, cfg);
    var pc := PcAfter(s, step);
    if pc.Armed? {
      PreparedIsUntouched(s, pc.id, cfg);
      assert mid.rows[pc.id].attempts == 1;
      ArmingKeepsSendInv(mid, step.e, pc);
    } else {
      QuietPcKeepsSendInv(mid, step.e, pc);
    }
  }

  lemma {:induction false} QuietPcHasItsRow(s: State, step: Step, cfg: Settings)
    requires TableOk(s.rows, cfg) && Enabled(s, step) && !step.Mark? && !step.Send?
    requires !step.Start? && !step.Verify? && !step.Bulk?
    ensures var pc := PcAfter(s, step); !pc.Armed? && (HasRow(pc) ==> pc.id in RowsAfter(s, step, cfg))
  {
  }

  /** An executor step other than marking and sending arms nobody and sends nothing. */
  lemma {:induction false} QuietStepKeepsSendInv(s: State, step: Step, cfg: Settings)
    requires Inv(s, cfg) && Enabled(s, step) && !step.Mark? && !step.Send?
    requires !step.Start? && !step.Verify? && !step.Bulk?
    ensures SendInv(After(s, step, cfg))
  {
    StepMovesTableForward(s, step, cfg);
    var mid := s.(rows := RowsAfter(s, step, cfg));
    ForwardKeepsSendInv(s, mid.rows, cfg);
    QuietPcHasItsRow(s, step, cfg);
    QuietPcKeepsSendInv(mid, step.e, PcAfter(s, step));
    assert After(s, step, cfg) == mid.(pcs := mid.pcs[step.e := PcAfter(s, step)]);
  }

  lemma {:induction false} StepKeepsSendInv(s: State, step: Step, cfg: Settings)
    requires Inv(s, cfg) && Enabled(s, step)
    ensures SendInv(After(s, step, cfg))
  {
    if step.Mark? {
      MarkKeepsSendInv(s, step, cfg);
    } else if step.Send? {
      SendingKeepsSendInv(s, step.e);
    } else if step.Start? {
      QuietPcKeepsSendInv(s, step.e, LookingUp(step.intent));
    } else if step.Verify? || step.Bulk? {
      StepMovesTableForward(s, step, cfg);
      ForwardKeepsSendInv(s, RowsAfter(s, step, cfg), cfg);
    } else {
      QuietStepKeepsSendInv(s, step, cfg);
    }
  }

  lemma {:induction false} StepKeepsInv(s: State, step: Step, cfg: Settings)
    requires Inv(s, cfg) && Enabled(s, step)
    ensures Inv(After(s, step, cfg), cfg)
    ensures RowsForward(s.rows, After(s, step, cfg).rows)
  {
    StepMovesTableForward(s, step, cfg);
    StepKeepsSendInv(s, step, cfg);
    assert After(s, step, cfg).rows == RowsAfter(s, step, cfg);
  }

  // ---------------------------------------------------------------- behaviours

  const INIT := State(map[], map[], [])

  ghost predicate Behavior(states: seq<State>, steps: seq<Step>, cfg: Settings) {
    && |states| == |steps| + 1 && states[0] == INIT
    && forall k :: 0 <= k < |steps| ==>
         Enabled(states[k], steps[k]) && states[k + 1] == After(states[k], steps[k], cfg)
  }

  lemma {:induction false} BehaviorInv(states: seq<State>, steps: seq<Step>, cfg: Settings, k: nat)
    requires Behavior(states, steps, cfg) && k < |states|
    ensures Inv(states[k], cfg)
  {
    if k > 0 {
      BehaviorInv(states, steps, cfg, k - 1);
      StepKeepsInv(states[k - 1], steps[k - 1], cfg);
    }
  }

  lemma {:induction false} RowsLastForever(
    states: seq<State>, steps: seq<Step>, cfg: Settings, j: nat, k: nat, id: OpId)
    requires Behavior(states, steps, cfg) && j <= k < |states| && id in states[j].rows
    ensures id in states[k].rows && Forward(states[j].rows[id], states[k].rows[id])
    decreases k - j
  {
    BehaviorInv(states, steps, cfg, j);
    if j < k {
      StepKeepsInv(states[j], steps[j], cfg);
      RowsLastForever(states, steps, cfg, j + 1, k, id);
    } else {
      ForwardRefl(states[j].rows[id]);
    }
  }

  /**
   In every interleaving, each idempotency key has at most one row, and no two external
   mutation calls are ever made under the same row, hence under the same row key.
   */
  lemma {:induction false} AtMostOneCallPerKey(states: seq<State>, steps: seq<Step>, cfg: Settings, k: nat)
    requires Behavior(states, steps, cfg) && k < |states|
    ensures var s := states[k];
            && (forall a, b :: a in s.rows && b in s.rows && s.rows[a].key == s.rows[b].key ==> a == b)
            && (forall i :: 0 <= i < |s.sent| ==> s.sent[i].id in s.rows)
            && (forall i, j :: 0 <= i < j < |s.sent| ==>
                  s.rows[s.sent[i].id].key != s.rows[s.sent[j].id].key)
  {
    BehaviorInv(states, steps, cfg, k);
  }

  /**
   The one way to go on with the row of another key: `prepare` looks rows up by id or key, and
   this lookup finds, under the operation id, a row that was prepared under a different key.
   */
  predicate Aliased(s: State, step: Step) {
    && step.Lookup? && step.hit.Some? && step.e in s.pcs && s.pcs[step.e].LookingUp? && step.hit.value in s.rows
    && s.rows[step.hit.value].key != KeyOf(s.pcs[step.e].intent)
    && PcAfter(s, step).Ready?
  }

  /** The executor works on the row of the key it asked for. */
  predicate AskedPc(pc: Pc, rows: Rows) {
    HasRow(pc) ==> pc.id in rows && rows[pc.id].key == KeyOf(pc.intent)
  }

  predicate AskedSent(c: Sent, rows: Rows) {
    c.id in rows && rows[c.id].key == c.asked
  }

  ghost predicate AskedInv(s: State) {
    && (forall e :: e in s.pcs ==> AskedPc(s.pcs[e], s.rows))
    && (forall i :: 0 <= i < |s.sent| ==> AskedSent(s.sent[i], s.rows))
  }

  lemma {:induction false} PcKeepsAsked(s: State, step: Step, cfg: Settings)
    requires AskedInv(s) && Enabled(s, step) && !Aliased(s, step) && TableOk(s.rows, cfg)
    requires !step.Start? && !step.Verify? && !step.Bulk?
    requires RowsForward(s.rows, RowsAfter(s, step, cfg))
    ensures AskedPc(PcAfter(s, step), RowsAfter(s, step, cfg))
  {
    assert AskedPc(s.pcs[step.e], s.rows);
  }

  lemma {:induction false} ForwardKeepsAsked(s: State, rows': Rows)
    requires AskedInv(s) && RowsForward(s.rows, rows')
    ensures AskedInv(s.(rows := rows'))
  {
  }

  lemma {:induction false} SentKeepsAsked(s: State, step: Step)
    requires AskedInv(s) && Enabled(s, step)
    ensures forall i :: 0 <= i < |SentAfter(s, step)| ==> AskedSent(SentAfter(s, step)[i], s.rows)
  {
    if step.Send? { assert AskedPc(s.pcs[step.e], s.rows); }
  }

  lemma {:induction false} StepKeepsAskedInv(s: State, step: Step, cfg: Settings)
    requires TableOk(s.rows, cfg) && AskedInv(s) && Enabled(s, step) && !Aliased(s, step)
    ensures AskedInv(After(s, step, cfg))
  {
    StepMovesTableForward(s, step, cfg);
    SentKeepsAsked(s, step);
    ForwardKeepsAsked(s.(sent := SentAfter(s, step)), RowsAfter(s, step, cfg));
    if !step.Start? && !step.Verify? && !step.Bulk? {
      PcKeepsAsked(s, step, cfg);
    }
    AskedAfter(s, step, cfg);
  }

  lemma {:induction false} AskedAfter(s: State, step: Step, cfg: Settings)
    requires Enabled(s, step) && AskedInv(State(RowsAfter(s, step, cfg), s.pcs, SentAfter(s, step)))
    requires !step.Start? && !step.Verify? && !step.Bulk? ==> AskedPc(PcAfter(s, step), RowsAfter(s, step, cfg))
    ensures AskedInv(After(s, step, cfg))
  {
  }

  lemma {:induction false} BehaviorAskedInv(states: seq<State>, steps: seq<Step>, cfg: Settings, k: nat)
    requires Behavior(states, steps, cfg) && k < |states|
    requires forall i :: 0 <= i < |steps| ==> !Aliased(states[i], steps[i])
    ensures AskedInv(states[k])
  {
    if k > 0 {
      BehaviorAskedInv(states, steps, cfg, k - 1);
      BehaviorInv(states, steps, cfg, k - 1);
      StepKeepsAskedInv(states[k - 1], steps[k - 1], cfg);
    }
  }

  /**
   However often a tool call is replayed, by whichever run, worker or stale checkpoint, the
   mutation it asks for is sent at most once, unless some lookup is answered with the row of
   another key.
   */
  lemma {:induction false} AtMostOneCallPerIntent(states: seq<State>, steps: seq<Step>, cfg: Settings, k: nat)
    requires Behavior(states, steps, cfg) && k < |states|
    requires forall i :: 0 <= i < |steps| ==> !Aliased(states[i], steps[i])
    ensures forall i, j :: 0 <= i < j < |states[k].sent| ==>
              states[k].sent[i].asked != states[k].sent[j].asked
  {
    AtMostOneCallPerKey(states, steps, cfg, k);
    BehaviorAskedInv(states, steps, cfg, k);
    var s := states[k];
    forall i, j | 0 <= i < j < |s.sent| ensures s.sent[i].asked != s.sent[j].asked {
      assert AskedSent(s.sent[i], s.rows) && AskedSent(s.sent[j], s.rows);
    }
  }

  // What an executor works on is what it asked for.

  /** The row that an executor goes on with was made for its tool and arguments. */
  predicate WantedPc(pc: Pc, rows: Rows) {
    HasRow(pc) ==> pc.id in rows && rows[pc.id].tool == pc.intent.tool
                   && rows[pc.id].argsHmac == ArgsHmac(pc.intent.tool, pc.intent.args)
  }

  lemma {:induction false} ForwardKeepsWanted(pc: Pc, rows: Rows, rows': Rows)
    requires WantedPc(pc, rows) && RowsForward(rows, rows')
    ensures WantedPc(pc, rows')
  {
    if HasRow(pc) {
      assert Forward(rows[pc.id], rows'[pc.id]);
    }
  }

  lemma {:induction false} PcStaysWanted(s: State, step: Step, cfg: Settings)
    requires TableOk(s.rows, cfg) && Enabled(s, step) && RowsForward(s.rows, RowsAfter(s, step, cfg))
    requires !step.Start? && !step.Verify? && !step.Bulk? && WantedPc(s.pcs[step.e], s.rows)
    ensures WantedPc(PcAfter(s, step), RowsAfter(s, step, cfg))
  {
    var pc := PcAfter(s, step);
    if step.Insert? && step.clash.None? && s.pcs[step.e].intent.opId !in s.rows {
      assert RowsAfter(s, step, cfg)[pc.id] == NewRow(pc.intent, step.now);
    } else {
      assert WantedPc(pc, s.rows);
      ForwardKeepsWanted(pc, s.rows, RowsAfter(s, step, cfg));
    }
  }

  lemma {:induction false} StepKeepsWanted(s: State, step: Step, cfg: Settings)
    requires TableOk(s.rows, cfg) && Enabled(s, step) && forall e :: e in s.pcs ==> WantedPc(s.pcs[e], s.rows)
    ensures forall e :: e in After(s, step, cfg).pcs ==> WantedPc(After(s, step, cfg).pcs[e], After(s, step, cfg).rows)
  {
    StepMovesTableForward(s, step, cfg);
    var s' := After(s, step, cfg);
    var moved := !step.Start? && !step.Verify? && !step.Bulk?;
    forall e | e in s'.pcs ensures WantedPc(s'.pcs[e], s'.rows) {
      if moved && step.e == e {
        PcStaysWanted(s, step, cfg);
      } else if e in s.pcs && s'.pcs[e] == s.pcs[e] {
        ForwardKeepsWanted(s.pcs[e], s.rows, s'.rows);
      }
    }
  }

  /** In every interleaving, no executor marks or sends a row of another tool or other arguments. */
  lemma {:induction false} OnlyTheWantedIsSent(states: seq<State>, steps: seq<Step>, cfg: Settings, k: nat)
    requires Behavior(states, steps, cfg) && k < |states|
    ensures forall e :: e in states[k].pcs ==> WantedPc(states[k].pcs[e], states[k].rows)
  {
    if k > 0 {
      OnlyTheWantedIsSent(states, steps, cfg, k - 1);
      BehaviorInv(states, steps, cfg, k - 1);
      StepKeepsWanted(states[k - 1], steps[k - 1], cfg);
    }
  }

  // One operation id under two keys.

  lemma {:induction false} Extend(states: seq<State>, steps: seq<Step>, cfg: Settings, step: Step, next: State)
    returns (states': seq<State>, steps': seq<Step>)
    requires Behavior(states, steps, cfg) && Enabled(states[|steps|], step)
    requires next == After(states[|steps|], step, cfg)
    ensures Behavior(states', steps', cfg) && states'[|steps'|] == next
  {
    states', steps' := states + [next], steps + [step];
  }

  /** A new executor whose intent has no row yet prepares one. */
  lemma {:induction false} PrepareNew(states: seq<State>, steps: seq<Step>, cfg: Settings, e: nat, i: Intent, now: Time)
    returns (states': seq<State>, steps': seq<Step>)
    requires Behavior(states, steps, cfg) && e !in states[|steps|].pcs
    requires forall id :: id in states[|steps|].rows ==> id != i.opId && !Names(states[|steps|].rows[id], i)
    ensures Behavior(states', steps', cfg)
    ensures var s := states[|steps|];
            states'[|steps'|] == State(s.rows[i.opId := NewRow(i, now)], s.pcs[e := Ready(i, i.opId)], s.sent)
  {
    var s := states[|steps|];
    var s1 := s.(pcs := s.pcs[e := LookingUp(i)]);
    states', steps' := Extend(states, steps, cfg, Start(e, i), s1);
    var s2 := s.(pcs := s.pcs[e := Inserting(i)]);
    assert s1.pcs[e := Inserting(i)] == s2.pcs;
    states', steps' := Extend(states', steps', cfg, Lookup(e, None), s2);
    var s3 := State(s.rows[i.opId := NewRow(i, now)], s.pcs[e := Ready(i, i.opId)], s.sent);
    assert s2.pcs[e := Ready(i, i.opId)] == s3.pcs;
    states', steps' := Extend(states', steps', cfg, Insert(e, None, now), s3);
  }

  /** A new executor is answered with a prepared row of the same operation id and intent. */
  lemma {:induction false} JoinPrepared(states: seq<State>, steps: seq<Step>, cfg: Settings, e: nat, i: Intent)
    returns (states': seq<State>, steps': seq<Step>)
    requires Behavior(states, steps, cfg) && e !in states[|steps|].pcs && i.opId in states[|steps|].rows
    requires var r := states[|steps|].rows[i.opId];
             r.id == i.opId && SameIntent(r, i) && r.exec == Prepared && (r.ver == Pending || r.ver == NotRequired)
    ensures Behavior(states', steps', cfg)
    ensures var s := states[|steps|]; states'[|steps'|] == s.(pcs := s.pcs[e := Ready(i, i.opId)])
  {
    var s := states[|steps|];
    var s1 := s.(pcs := s.pcs[e := LookingUp(i)]);
    states', steps' := Extend(states, steps, cfg, Start(e, i), s1);
    var s2 := s.(pcs := s.pcs[e := Ready(i, i.opId)]);
    assert s1.pcs[e := Ready(i, i.opId)] == s2.pcs;
    states', steps' := Extend(states', steps', cfg, Lookup(e, Some(i.opId)), s2);
  }

  /** An executor that is ready on a prepared row sends it. */
  lemma {:induction false} MarkAndSend(states: seq<State>, steps: seq<Step>, cfg: Settings, e: nat, now: Time)
    returns (states': seq<State>, steps': seq<Step>)
    requires Behavior(states, steps, cfg) && e in states[|steps|].pcs && states[|steps|].pcs[e].Ready?
    requires var s := states[|steps|]; s.pcs[e].id in s.rows && s.rows[s.pcs[e].id].exec == Prepared
    ensures Behavior(states', steps', cfg)
    ensures var s := states[|steps|];
            var i, id := s.pcs[e].intent, s.pcs[e].id;
            states'[|steps'|] == State(ApplyAt(s.rows, id, MarkExecuting(i.runId, now), cfg),
                                       s.pcs[e := Called(i, id)], s.sent + [Sent(id, KeyOf(i))])
  {
    var s := states[|steps|];
    var i, id := s.pcs[e].intent, s.pcs[e].id;
    var rows' := ApplyAt(s.rows, id, MarkExecuting(i.runId, now), cfg);
    var s1 := State(rows', s.pcs[e := Armed(i, id)], s.sent);
    states', steps' := Extend(states, steps, cfg, Mark(e, now), s1);
    var s2 := State(rows', s.pcs[e := Called(i, id)], s.sent + [Sent(id, KeyOf(i))]);
    assert s1.pcs[e := Called(i, id)] == s2.pcs;
    states', steps' := Extend(states', steps', cfg, Send(e), s2);
  }

  /**
   One operation id under two keys breaks the promise, whatever the keys are: `b` is answered
   with the row that `a` prepared, so its own key is still free for `c`, and the mutation that
   `b` and `c` ask for is sent twice.
   */
  lemma {:induction false} TwoKeysForOneIdSendTwice(a: Intent, b: Intent, c: Intent, cfg: Settings, now: Time)
    returns (states: seq<State>, steps: seq<Step>)
    requires a.opId == b.opId != c.opId && KeyOf(a) != KeyOf(b) == KeyOf(c) && a.tool == b.tool && a.args == b.args
    ensures Behavior(states, steps, cfg)
    ensures states[|steps|].sent == [Sent(a.opId, KeyOf(b)), Sent(c.opId, KeyOf(b))]
  {
    states, steps := [INIT], [];
    states, steps := PrepareNew(states, steps, cfg, 0, a, now);
    states, steps := JoinPrepared(states, steps, cfg, 1, b);
    states, steps := MarkAndSend(states, steps, cfg, 1, now);
    var s := states[|steps|];
    assert s.rows.Keys == {a.opId} && s.rows[a.opId].key == KeyOf(a) && s.rows[a.opId].id == a.opId;
    states, steps := PrepareNew(states, steps, cfg, 2, c, now);
    states, steps := MarkAndSend(states, steps, cfg, 2, now);
  }

  /**
   The condition is exact. After any behaviour in which some call was asked for under the key
   of `c`, one more lookup that is answered with the row of another key is enough to ask for
   that call again; `id` and `text` are any operation id and key text not in use.
   */
  lemma {:induction false} OneAliasedLookupSendsAgain(
    states: seq<State>, steps: seq<Step>, cfg: Settings, c: Intent, id: OpId, text: string, e: nat, f: nat, now: Time)
    returns (states': seq<State>, steps': seq<Step>)
    requires Behavior(states, steps, cfg) && e != f && e !in states[|steps|].pcs && f !in states[|steps|].pcs
    requires text != "" && Supplied(text) != KeyOf(c) && id !in states[|steps|].rows
    requires forall x :: x in states[|steps|].rows ==> states[|steps|].rows[x].key != Supplied(text)
    ensures Behavior(states', steps', cfg)
    ensures states'[|steps'|].sent == states[|steps|].sent + [Sent(id, KeyOf(c))]
  {
    BehaviorInv(states, steps, cfg, |steps|);
    var a, b := c.(opId := id, suppliedKey := Some(text)), c.(opId := id);
    assert KeyOf(b) == KeyOf(c);
    states', steps' := PrepareNew(states, steps, cfg, e, a, now);
    states', steps' := JoinPrepared(states', steps', cfg, f, b);
    states', steps' := MarkAndSend(states', steps', cfg, f, now);
  }

  /**
   Journal safety over whole behaviours: rows are never lost, execution never moves back,
   a settled verification freezes its row, leases match statuses, and the attempt counters
   and the version stay within their bounds.
   */
  lemma {:induction false} ReachableRowsAreSound(
    states: seq<State>, steps: seq<Step>, cfg: Settings, j: nat, k: nat, id: OpId)
    requires Behavior(states, steps, cfg) && j <= k < |states| && id in states[j].rows
    ensures id in states[k].rows
    ensures var r, r' := states[j].rows[id], states[k].rows[id];
            && Forward(r, r') && RowInv(r', cfg)
            && r'.attempts <= 1 && r'.verAttempts <= cfg.maxAttempts
            && r'.version <= 2 * cfg.maxAttempts + 4
  {
    RowsLastForever(states, steps, cfg, j, k, id);
    BehaviorInv(states, steps, cfg, k);
    assert RowInv(states[k].rows[id], cfg);
  }

  /** An operation still PREPARED when Stop converges on its run is never sent, ever after. */
  lemma {:induction false} StoppedBeforeSendIsNeverSent(
    states: seq<State>, steps: seq<Step>, cfg: Settings, j: nat, k: nat, id: OpId)
    requires Behavior(states, steps, cfg) && j < k < |states|
    requires id in states[j].rows && states[j].rows[id].exec == Prepared
    requires steps[j].Bulk? && steps[j].call.StopPrepared?
    requires steps[j].call.runId == states[j].rows[id].runId
    ensures id in states[k].rows && states[k].rows[id].exec == Cancelled
    ensures !states[k].WasSent(id)
  {
    BehaviorInv(states, steps, cfg, j);
    BehaviorInv(states, steps, cfg, k);
    assert states[j + 1] == After(states[j], steps[j], cfg);
    assert states[j + 1].rows[id] == Apply(states[j].rows[id], steps[j].call, cfg);
    var r := states[j + 1].rows[id];
    assert r.exec == Cancelled && r.attempts == 0;
    CancelledUnsentIsFrozen(states, steps, cfg, j + 1, k, id);
  }

  lemma {:induction false} CancelledUnsentIsFrozen(
    states: seq<State>, steps: seq<Step>, cfg: Settings, j: nat, k: nat, id: OpId)
    requires Behavior(states, steps, cfg) && j <= k < |states|
    requires id in states[j].rows && states[j].rows[id].exec == Cancelled && states[j].rows[id].attempts == 0
    ensures id in states[k].rows && states[k].rows[id].exec == Cancelled && states[k].rows[id].attempts == 0
    decreases k - j
  {
    if j < k {
      BehaviorInv(states, steps, cfg, j);
      StepMovesTableForward(states[j], steps[j], cfg);
      StepActsAsCall(states[j], steps[j], cfg, id);
      CancelledUnsentIsFrozen(states, steps, cfg, j + 1, k, id);
    }
  }

  /** The journal call that a step makes on the row `id`, if it makes one. */
  function CallOn(s: State, step: Step, id: OpId): (c: Option<Call>) {
    match step
    case Mark(e, now) =>
      if e in s.pcs && s.pcs[e].Ready? && s.pcs[e].id == id
      then Some(MarkExecuting(s.pcs[e].intent.runId, now)) else None
    case Report(e, outcome, now) =>
      if e in s.pcs && s.pcs[e].Called? && s.pcs[e].id == id then Some(RecordExecution(outcome, now)) else None
    case Verify(x, call) => if x == id then Some(call) else None
    case Bulk(call) => Some(call)
    case _ => None
  }

  /** Every step changes every existing row by exactly the journal call that it makes on it. */
  lemma {:induction false} StepMakesItsCall(s: State, step: Step, cfg: Settings, id: OpId)
    requires Enabled(s, step) && id in s.rows
    ensures id in After(s, step, cfg).rows
    ensures After(s, step, cfg).rows[id]
         == if CallOn(s, step, id).Some? then Apply(s.rows[id], CallOn(s, step, id).value, cfg) else s.rows[id]
  {
  }

  /** Seen from one existing row, every step of the protocol is one journal call or nothing. */
  lemma {:induction false} StepActsAsCall(s: State, step: Step, cfg: Settings, id: OpId)
    requires Inv(s, cfg) && Enabled(s, step) && id in s.rows
    ensures var rows' := RowsAfter(s, step, cfg);
            id in rows' && (rows'[id] == s.rows[id] || exists c :: rows'[id] == Apply(s.rows[id], c, cfg))
  {
  }

  lemma {:induction false} RunAppendOne(r: Row, calls: seq<Call>, c: Call, cfg: Settings)
    ensures Run(r, calls + [c], cfg) == Apply(Run(r, calls, cfg), c, cfg)
  {
    RunAppend(r, calls, [c], cfg);
    RunOne(Run(r, calls, cfg), c, cfg);
  }

  /** How a row of a reachable state came about: it is new, or one call away from what it was. */
  lemma {:induction false} RowStep(states: seq<State>, steps: seq<Step>, cfg: Settings, k: nat, id: OpId)
    requires Behavior(states, steps, cfg) && 0 < k < |states| && id in states[k].rows
    ensures var was, now := states[k - 1].rows, states[k].rows[id];
            if id in was then now == was[id] || exists c :: now == Apply(was[id], c, cfg) else FreshRow(now)
  {
    BehaviorInv(states, steps, cfg, k - 1);
    var s, step := states[k - 1], steps[k - 1];
    assert states[k].rows == RowsAfter(s, step, cfg);
    if id in s.rows {
      StepActsAsCall(s, step, cfg, id);
    } else {
      StepMovesTableForward(s, step, cfg);
    }
  }

  /** Every row of every reachable state is one that `Journal.Run` produces from a fresh row. */
  lemma {:induction false} RowsAreRuns(states: seq<State>, steps: seq<Step>, cfg: Settings, k: nat, id: OpId)
    returns (row0: Row, calls: seq<Call>)
    requires Behavior(states, steps, cfg) && k < |states| && id in states[k].rows
    ensures FreshRow(row0) && states[k].rows[id] == Run(row0, calls, cfg)
  {
    RowStep(states, steps, cfg, k, id);
    var now := states[k].rows[id];
    if id !in states[k - 1].rows {
      row0, calls := now, [];
    } else {
      row0, calls := RowsAreRuns(states, steps, cfg, k - 1, id);
      var before := states[k - 1].rows[id];
      if now != before {
        var c :| now == Apply(before, c, cfg);
        RunAppendOne(row0, calls, c, cfg);
        calls := calls + [c];
      }
    }
  }
}
