/** What the user sees of a mutation: the chat projection and the reliability badge. */
module Presentation {
  import opened Common
  import opened Journal
  import Protocol

  /** The status shown for a tool; `Earlier` is whatever the chat had before. */
  datatype ChatStatus = Completed | Errored | CancelledByStop | InProgress | Earlier(text: string)

  /** The texts that the projection writes. */
  datatype Note =
    | VerifiedNote | ReviewNote | FailedNote | NotStartedNote | ReconcilingNote | EarlierNote(text: string)

  /** The tool execution shown in a chat segment; absent keys are `None`. */
  datatype Execution = Execution(
    callId: string, status: ChatStatus, error: Option<Note>, result: Option<Note>,
    operationId: Option<OpId>, exec: Option<ExecutionStatus>, ver: Option<VerificationStatus>,
    reason: Option<Reason>, partialCommit: bool, unverified: bool)

  datatype Segment = ToolSegment(id: string, execution: Option<Execution>) | OtherSegment(body: string)

  datatype Message = Assistant(segments: Option<seq<Segment>>) | OtherMessage(body: string)

  /** The reasons that may leave the journal: those of the published list. */
  predicate SafeReason(r: Reason) {
    !r.NoReason? && !r.Unlisted?
  }

  /** `by_call_id[...]`: operations without a call id are skipped, a later one replaces an earlier one. */
  function ByCallId(ops: seq<Row>, callId: string): (hit: Option<Row>) {
    if ops == [] then None
    else
      var last := ops[|ops| - 1];
      if last.callId != "" && last.callId == callId then Some(last) else ByCallId(ops[..|ops| - 1], callId)
  }

  /** Overlay one journal row on the execution it belongs to. */
  function Overlay(e: Execution, r: Row): (e': Execution)
    ensures e'.callId == e.callId
  {
    var base := e.(operationId := Some(r.id), exec := Some(r.exec), ver := Some(r.ver),
                   reason := if SafeReason(r.evidence.reason) then Some(r.evidence.reason) else None,
                   partialCommit := r.evidence.partialCommit || r.evidence.reason == PartialCommitDetected,
                   unverified := r.ver == Pending || r.ver == Verifying || r.ver == Inconclusive);
    if r.ver == Passed then base.(status := Completed, error := None, result := Some(VerifiedNote))
    else if r.ver == NeedsReview then base.(status := Errored, error := Some(ReviewNote))
    else if r.ver == CheckFailed then base.(status := Errored, error := Some(FailedNote))
    else if r.exec == Cancelled then base.(status := CancelledByStop)
    else if r.exec == ExecFailed then base.(status := Errored, error := Some(NotStartedNote))
    else if r.exec != Prepared then base.(status := InProgress, result := Some(ReconcilingNote))
    else base
  }

  /** The call id a segment is looked up by. */
  function CallIdOf(seg: Segment): (id: string)
    requires seg.ToolSegment? && seg.execution.Some?
  {
    if seg.execution.value.callId != "" then seg.execution.value.callId else seg.id
  }

  function ProjectSegment(seg: Segment, ops: seq<Row>): (seg': Segment) {
    if !seg.ToolSegment? || seg.execution.None? then seg
    else
      var hit := ByCallId(ops, CallIdOf(seg));
      if hit.None? then seg else seg.(execution := Some(Overlay(seg.execution.value, hit.value)))
  }

  function ProjectMessage(m: Message, ops: seq<Row>): (m': Message) {
    if !m.Assistant? || m.segments.None? then m
    else
      var segs := m.segments.value;
      Assistant(Some(seq(|segs|, i requires 0 <= i < |segs| => ProjectSegment(segs[i], ops))))
  }

  function Project(ms: seq<Message>, ops: seq<Row>): (ms': seq<Message>)
    ensures |ms'| == |ms|
  {
    seq(|ms|, i requires 0 <= i < |ms| => ProjectMessage(ms[i], ops))
  }

  // What is shown where, without reference to how it is computed.

  /** The last operation of the list that belongs to a call id. */
  predicate LastOf(ops: seq<Row>, callId: string, j: nat) {
    && j < |ops| && ops[j].callId != "" && ops[j].callId == callId
    && forall m :: j < m < |ops| ==> ops[m].callId != callId
  }

  lemma {:induction false} ByCallIdIsLast(ops: seq<Row>, callId: string)
    ensures forall j: nat :: LastOf(ops, callId, j) ==> ByCallId(ops, callId) == Some(ops[j])
    ensures (forall j :: 0 <= j < |ops| ==> ops[j].callId == "" || ops[j].callId != callId) ==>
              ByCallId(ops, callId) == None
  {
    if ops != [] {
      var n := |ops| - 1;
      ByCallIdIsLast(ops[..n], callId);
      forall j: nat | LastOf(ops, callId, j) ensures ByCallId(ops, callId) == Some(ops[j]) {
        if j < n { assert LastOf(ops[..n], callId, j); }
      }
    }
  }

  /** A tool segment shows the last operation of its call id, or else of its own id; all else is as it was. */
  ghost predicate ShownFor(seg: Segment, shown: Segment, ops: seq<Row>) {
    if !seg.ToolSegment? || seg.execution.None? then shown == seg
    else
      var e := seg.execution.value;
      var id := if e.callId != "" then e.callId else seg.id;
      && (forall j: nat :: LastOf(ops, id, j) ==> shown == ToolSegment(seg.id, Some(Overlay(e, ops[j]))))
      && ((forall j :: 0 <= j < |ops| ==> ops[j].callId == "" || ops[j].callId != id) ==> shown == seg)
  }

  lemma {:induction false} SegmentIsShown(seg: Segment, ops: seq<Row>)
    ensures ShownFor(seg, ProjectSegment(seg, ops), ops)
  {
    if seg.ToolSegment? && seg.execution.Some? { ByCallIdIsLast(ops, CallIdOf(seg)); }
  }

  ghost predicate MessageShownFor(m: Message, shown: Message, ops: seq<Row>) {
    if !m.Assistant? || m.segments.None? then shown == m
    else
      && shown.Assistant? && shown.segments.Some? && |shown.segments.value| == |m.segments.value|
      && forall i :: 0 <= i < |m.segments.value| ==> ShownFor(m.segments.value[i], shown.segments.value[i], ops)
  }

  lemma {:induction false} MessageIsShown(m: Message, ops: seq<Row>)
    ensures MessageShownFor(m, ProjectMessage(m, ops), ops)
  {
    if m.Assistant? && m.segments.Some? {
      var segs := m.segments.value;
      forall i | 0 <= i < |segs| ensures ShownFor(segs[i], ProjectSegment(segs[i], ops), ops) {
        SegmentIsShown(segs[i], ops);
      }
    }
  }

  /** The projection as it runs: segments of the copied messages are edited one after another. */
  method ProjectMutationOperations(messages: seq<Message>, ops: seq<Row>) returns (projected: seq<Message>)
    ensures projected == Project(messages, ops)
    ensures |projected| == |messages|
    ensures forall i :: 0 <= i < |messages| ==> MessageShownFor(messages[i], projected[i], ops)
  {
    forall i | 0 <= i < |messages| ensures MessageShownFor(messages[i], ProjectMessage(messages[i], ops), ops) {
      MessageIsShown(messages[i], ops);
    }
    projected := messages;
    for i := 0 to |messages|
      invariant |projected| == |messages|
      invariant forall k :: 0 <= k < |messages| ==>
                  projected[k] == if k < i then ProjectMessage(messages[k], ops) else messages[k]
    {
      if messages[i].Assistant? && messages[i].segments.Some? {
        var segs := messages[i].segments.value;
        for j := 0 to |segs|
          invariant |segs| == |messages[i].segments.value|
          invariant forall k :: 0 <= k < |segs| ==>
                      segs[k] == if k < j then ProjectSegment(messages[i].segments.value[k], ops)
                                 else messages[i].segments.value[k]
        {
          if segs[j].ToolSegment? && segs[j].execution.Some? {
            var op := ByCallId(ops, CallIdOf(segs[j]));
            if op.Some? {
              segs := segs[j := segs[j].(execution := Some(Overlay(segs[j].execution.value, op.value)))];
            }
          }
        }
        assert segs == ProjectMessage(messages[i], ops).segments.value;
        projected := projected[i := Assistant(Some(segs))];
      }
    }
  }

  lemma {:induction false} OverlayTwice(e: Execution, r: Row)
    ensures Overlay(Overlay(e, r), r) == Overlay(e, r)
  {
  }

  lemma {:induction false} ProjectSegmentTwice(seg: Segment, ops: seq<Row>)
    ensures ProjectSegment(ProjectSegment(seg, ops), ops) == ProjectSegment(seg, ops)
  {
    if seg.ToolSegment? && seg.execution.Some? {
      var hit := ByCallId(ops, CallIdOf(seg));
      if hit.Some? {
        OverlayTwice(seg.execution.value, hit.value);
      }
    }
  }

  /** Projecting is idempotent, for every history and every journal. */
  lemma {:induction false} ProjectionIsIdempotent(ms: seq<Message>, ops: seq<Row>)
    ensures Project(Project(ms, ops), ops) == Project(ms, ops)
  {
    forall i | 0 <= i < |ms|
      ensures ProjectMessage(ProjectMessage(ms[i], ops), ops) == ProjectMessage(ms[i], ops)
    {
      if ms[i].Assistant? && ms[i].segments.Some? {
        var segs := ms[i].segments.value;
        forall j | 0 <= j < |segs|
          ensures ProjectSegment(ProjectSegment(segs[j], ops), ops) == ProjectSegment(segs[j], ops)
        {
          ProjectSegmentTwice(segs[j], ops);
        }
        var once := ProjectMessage(ms[i], ops);
        assert ProjectMessage(once, ops).segments.value == once.segments.value;
      }
    }
  }

  // ---------------------------------------------------------------- the badge

  datatype Tone = Progress | Success | Warning | Danger

  /** The reliability badge of an execution; `None` when nothing is shown. */
  function Badge(e: Execution): (tone: Option<Tone>) {
    if e.partialCommit || e.reason == Some(PartialCommitDetected) then Some(Danger)
    else if e.ver == Some(NeedsReview) then Some(Warning)
    else if e.ver == Some(CheckFailed) then Some(Danger)
    else if e.ver == Some(Passed) then Some(Success)
    else if e.ver == Some(Inconclusive) then Some(Warning)
    else if e.ver == Some(Pending) || e.ver == Some(Verifying) then Some(Progress)
    else if e.exec == Some(Unknown) then Some(Warning)
    else None
  }

  lemma {:induction false} UniqueCallIdIsFound(ops: seq<Row>, i: nat)
    requires i < |ops| && ops[i].callId != ""
    requires forall j :: 0 <= j < |ops| && ops[j].callId == ops[i].callId ==> ops[j] == ops[i]
    ensures ByCallId(ops, ops[i].callId) == Some(ops[i])
    decreases |ops|
  {
    var n := |ops| - 1;
    if ops[n].callId != ops[i].callId {
      assert ops[..n][i] == ops[i];
      UniqueCallIdIsFound(ops[..n], i);
    }
  }

  /** The verification found, or was told of, a partial commit. */
  predicate Partial(r: Row) {
    r.evidence.partialCommit || r.evidence.reason == PartialCommitDetected
  }

  /** What the chat says of an operation that was marked for sending or cancelled, case by case. */
  predicate ChatSays(shown: Execution, e: Execution, r: Row) {
    && shown.operationId == Some(r.id) && shown.exec == Some(r.exec) && shown.ver == Some(r.ver)
    && (shown.status == Completed <==> r.ver == Passed)
    && (shown.status == Errored <==> r.ver == CheckFailed || r.ver == NeedsReview || r.exec == ExecFailed)
    && (shown.status == CancelledByStop <==> r.exec == Cancelled)
    && (shown.status == InProgress <==>
          r.exec == Executing
          || ((r.exec == ReportedSuccess || r.exec == Unknown)
              && (r.ver == Pending || r.ver == Verifying || r.ver == Inconclusive || r.ver == NotRequired)))
    && (r.ver == Passed ==> shown.error == None && shown.result == Some(VerifiedNote))
    && (r.ver == NeedsReview ==> shown.error == Some(ReviewNote))
    && (r.ver == CheckFailed ==> shown.error == Some(FailedNote))
    && (r.exec == ExecFailed ==> shown.error == Some(NotStartedNote))
    && (shown.status == CancelledByStop ==> shown.error == e.error && shown.result == e.result)
    && (shown.status == InProgress ==> shown.result == Some(ReconcilingNote) && shown.error == e.error)
    && (shown.unverified <==> r.ver == Pending || r.ver == Verifying || r.ver == Inconclusive)
    && (shown.partialCommit <==> Partial(r))
    && (shown.reason.Some? ==> shown.reason == Some(r.evidence.reason))
    && (shown.reason.None? <==> r.evidence.reason.NoReason? || r.evidence.reason.Unlisted?)
  }

  /** What the badge says, case by case. */
  predicate BadgeSays(tone: Option<Tone>, r: Row) {
    && (tone == Some(Danger) <==> Partial(r) || r.ver == CheckFailed)
    && (tone == Some(Success) <==> r.ver == Passed)
    && (tone == Some(Warning) <==>
          !Partial(r) && (r.ver == NeedsReview || r.ver == Inconclusive || (r.ver == NotRequired && r.exec == Unknown)))
    && (tone == Some(Progress) <==> !Partial(r) && (r.ver == Pending || r.ver == Verifying))
  }

  lemma {:induction false} OverlayTellsTheTruth(e: Execution, r: Row, cfg: Settings)
    requires RowInv(r, cfg) && Protocol.HonestRow(r) && r.exec != Prepared
    ensures ChatSays(Overlay(e, r), e, r)
  {
  }

  lemma {:induction false} BadgeTellsTheTruth(e: Execution, r: Row, cfg: Settings)
    requires RowInv(r, cfg) && Protocol.HonestRow(r)
    ensures BadgeSays(Badge(Overlay(e, r)), r)
  {
  }

  /** An operation that is only prepared leaves the status and the notes as they were. */
  lemma {:induction false} PreparedShowsNothing(e: Execution, r: Row, cfg: Settings)
    requires RowInv(r, cfg) && r.exec == Prepared
    ensures Overlay(e, r).status == e.status && Overlay(e, r).error == e.error && Overlay(e, r).result == e.result
  {
  }

  /**
   End-to-end truthfulness: in every reachable state, for every operation that is past
   PREPARED and whose call id is unique among the listed rows, the chat and the badge say what
   the journal says, case by case; in particular "completed" and success exactly for PASSED.
   */
  lemma {:induction false} ChatTellsTheTruth(
    states: seq<Protocol.State>, steps: seq<Protocol.Step>, cfg: Settings, k: nat,
    ops: seq<Row>, i: nat, seg: Segment)
    requires Protocol.Behavior(states, steps, cfg) && k < |states|
    requires forall j :: 0 <= j < |ops| ==> ops[j].id in states[k].rows && ops[j] == states[k].rows[ops[j].id]
    requires i < |ops| && ops[i].exec != Prepared && ops[i].callId != ""
    requires forall j :: 0 <= j < |ops| && ops[j].callId == ops[i].callId ==> ops[j] == ops[i]
    requires seg.ToolSegment? && seg.execution.Some? && CallIdOf(seg) == ops[i].callId
    ensures var shown := ProjectSegment(seg, ops).execution.value;
            && ChatSays(shown, seg.execution.value, ops[i]) && BadgeSays(Badge(shown), ops[i])
            && (shown.status == Completed <==> ops[i].ver == Passed)
            && (Badge(shown) == Some(Success) <==> ops[i].ver == Passed)
  {
    Protocol.BehaviorInv(states, steps, cfg, k);
    UniqueCallIdIsFound(ops, i);
    OverlayTellsTheTruth(seg.execution.value, ops[i], cfg);
    BadgeTellsTheTruth(seg.execution.value, ops[i], cfg);
  }
}
