/** Deterministic postcondition checks of a controlled mutation. */
module Verifier {
  import opened Common
  import opened JsonTree
  import opened Match
  import opened Manifest
  import Journal

  /** What one read of a target returns. A live document may be any JSON value. */
  datatype Read = ReadError(notFound: bool, terminal: bool) | BadJson | Live(doc: Json)

  /** A workload's health: whether it is good, and whether it can no longer become good. */
  datatype Health = Health(ok: bool, terminal: bool)

  // ---------------------------------------------------------------- workload health
  // `None` stands for a Python exception, here and below.

  /** `d.get(k) or {}`, then used as a mapping. */
  function Section(doc: Json, key: string): (s: Option<Json>)
    requires doc.Obj?
    ensures s.Some? ==> s.value.Obj?
    ensures key in doc.fields && doc.fields[key].Obj? ==> s == Some(doc.fields[key])
    ensures key !in doc.fields || doc.fields[key] == Null ==> s == Some(Obj(map[]))
  {
    var v := Get(doc, key);
    if !Truthy(v) then Some(Obj(map[])) else if v.Obj? then Some(v) else None
  }

  /** `d.get(k) or []`, then iterated as a list of mappings. */
  function Entries(doc: Json, key: string): (s: Option<seq<Json>>)
    requires doc.Obj?
    ensures key in doc.fields && doc.fields[key].Arr? ==> s == Some(doc.fields[key].items)
    ensures key !in doc.fields || doc.fields[key] == Null ==> s == Some([])
  {
    var v := Get(doc, key);
    if !Truthy(v) then Some([]) else if v.Arr? then Some(v.items) else None
  }

  function Int(j: Json): (n: Option<int>) {
    match j
    case Num(x) => Some(Journal.Trunc(x))
    case Bool(b) => Some(if b then 1 else 0)
    case _ => None
  }

  /** `int(d.get(k) or 0)`. */
  function Count(doc: Json, key: string): (n: Option<int>)
    requires doc.Obj?
    ensures key !in doc.fields || doc.fields[key] == Null ==> n == Some(0)
    ensures forall k: int :: key in doc.fields && doc.fields[key] == Num(k as real) ==> n == Some(k)
  {
    if Truthy(Get(doc, key)) then Int(Get(doc, key)) else Some(0)
  }

  /** `int(spec.get("replicas", 1))`. */
  function Replicas(spec: Json): (n: Option<int>)
    requires spec.Obj?
    ensures "replicas" !in spec.fields ==> n == Some(1)
    ensures forall k: int :: "replicas" in spec.fields && spec.fields["replicas"] == Num(k as real) ==> n == Some(k)
  {
    if "replicas" in spec.fields then Int(spec.fields["replicas"]) else Some(1)
  }

  function DeadlineExceeded(conditions: seq<Json>): (b: Option<bool>) {
    if conditions == [] then Some(false)
    else if !conditions[0].Obj? then None
    else if Get(conditions[0], "type") == Str("Progressing") && Get(conditions[0], "status") == Str("False")
            && Get(conditions[0], "reason") == Str("ProgressDeadlineExceeded") then Some(true)
    else DeadlineExceeded(conditions[1..])
  }

  function AllReady(containers: seq<Json>): (b: Option<bool>) {
    if containers == [] then Some(true)
    else if !containers[0].Obj? then None
    else if !Truthy(Get(containers[0], "ready")) then Some(false)
    else AllReady(containers[1..])
  }

  /** The condition dictionary of a job: the last entry of a type wins. */
  function ConditionStatus(conditions: seq<Json>, kind: string, sofar: Json): (status: Option<Json>) {
    if conditions == [] then Some(sofar)
    else if !conditions[0].Obj? || Container(Get(conditions[0], "type")) then None
    else ConditionStatus(conditions[1..], kind,
                         if Get(conditions[0], "type") == Str(kind) then Get(conditions[0], "status") else sofar)
  }

  function DeploymentHealth(spec: Json, status: Json, caughtUp: bool): (h: Option<Health>)
    requires spec.Obj? && status.Obj?
  {
    var conditions :- Entries(status, "conditions");
    var exceeded :- DeadlineExceeded(conditions);
    if exceeded then Some(Health(false, true)) else
    var replicas :- Replicas(spec);
    var ready :- Count(status, "availableReplicas");
    var updated :- Count(status, "updatedReplicas");
    var unavailable :- Count(status, "unavailableReplicas");
    Some(Health(caughtUp && ready >= replicas && updated >= replicas && unavailable == 0, false))
  }

  function StatefulSetHealth(spec: Json, status: Json, caughtUp: bool): (h: Option<Health>)
    requires spec.Obj? && status.Obj?
  {
    var replicas :- Replicas(spec);
    var ready :- Count(status, "readyReplicas");
    var updated :- Count(status, "updatedReplicas");
    var revisions := Get(status, "currentRevision") == Get(status, "updateRevision");
    Some(Health(caughtUp && ready >= replicas && updated >= replicas && revisions, false))
  }

  function DaemonSetHealth(status: Json, caughtUp: bool): (h: Option<Health>)
    requires status.Obj?
  {
    var desired :- Count(status, "desiredNumberScheduled");
    var ready :- Count(status, "numberReady");
    var updated :- Count(status, "updatedNumberScheduled");
    Some(Health(caughtUp && desired > 0 && ready >= desired && updated >= desired, false))
  }

  function PodHealth(status: Json): (h: Option<Health>)
    requires status.Obj?
  {
    var containers :- Entries(status, "containerStatuses");
    var ready :- AllReady(containers);
    Some(Health(Get(status, "phase") == Str("Running") && containers != [] && ready,
                Get(status, "phase") == Str("Failed")))
  }

  function JobHealth(status: Json): (h: Option<Health>)
    requires status.Obj?
  {
    var conditions :- Entries(status, "conditions");
    var failed :- ConditionStatus(conditions, "Failed", Null);
    var complete :- ConditionStatus(conditions, "Complete", Null);
    if failed == Str("True") then Some(Health(false, true)) else Some(Health(complete == Str("True"), false))
  }

  function WorkloadHealth(resource: Json): (h: Option<Health>)
    requires resource.Obj?
    ensures h.Some? && h.value.ok ==> !h.value.terminal
  {
    var metadata :- Section(resource, "metadata");
    var spec :- Section(resource, "spec");
    var status :- Section(resource, "status");
    var generation :- Count(metadata, "generation");
    var observed :- Count(status, "observedGeneration");
    match KindOf(resource)
    case "deployment" => DeploymentHealth(spec, status, observed >= generation)
    case "statefulset" => StatefulSetHealth(spec, status, observed >= generation)
    case "daemonset" => DaemonSetHealth(status, observed >= generation)
    case "pod" => PodHealth(status)
    case "job" => JobHealth(status)
    case _ => Some(Health(true, false))
  }

  // What the early exits and the last-entry-wins dictionary above amount to.

  predicate SaysDeadlineExceeded(c: Json) {
    && c.Obj? && Get(c, "type") == Str("Progressing") && Get(c, "status") == Str("False")
    && Get(c, "reason") == Str("ProgressDeadlineExceeded")
  }

  lemma {:induction false} DeadlineExceededMeans(conditions: seq<Json>)
    requires DeadlineExceeded(conditions).Some?
    ensures DeadlineExceeded(conditions).value
            <==> exists i :: 0 <= i < |conditions| && SaysDeadlineExceeded(conditions[i])
  {
    if conditions != [] && !SaysDeadlineExceeded(conditions[0]) {
      DeadlineExceededMeans(conditions[1..]);
      if i :| 0 <= i < |conditions| && SaysDeadlineExceeded(conditions[i]) {
        assert conditions[1..][i - 1] == conditions[i];
      }
    }
  }

  lemma {:induction false} AllReadyMeans(containers: seq<Json>)
    requires AllReady(containers).Some?
    ensures AllReady(containers).value <==>
            forall i :: 0 <= i < |containers| ==> containers[i].Obj? && Truthy(Get(containers[i], "ready"))
  {
    if containers != [] && containers[0].Obj? && Truthy(Get(containers[0], "ready")) {
      AllReadyMeans(containers[1..]);
      forall i | 0 < i < |containers| ensures containers[i] == containers[1..][i - 1] { }
    }
  }

  /** Entry `i` is the newest one of its type. */
  predicate NewestOf(conditions: seq<Json>, kind: string, i: nat) {
    && i < |conditions| && conditions[i].Obj? && Get(conditions[i], "type") == Str(kind)
    && forall j :: i < j < |conditions| && conditions[j].Obj? ==> Get(conditions[j], "type") != Str(kind)
  }

  lemma {:induction false} ConditionStatusMeans(conditions: seq<Json>, kind: string, sofar: Json)
    requires ConditionStatus(conditions, kind, sofar).Some?
    ensures forall i :: 0 <= i < |conditions| ==> conditions[i].Obj?
    ensures (exists i: nat :: NewestOf(conditions, kind, i)
              && ConditionStatus(conditions, kind, sofar) == Some(Get(conditions[i], "status")))
            || ((forall i :: 0 <= i < |conditions| ==> Get(conditions[i], "type") != Str(kind))
                && ConditionStatus(conditions, kind, sofar) == Some(sofar))
    decreases |conditions|
  {
    if conditions != [] {
      var hit := Get(conditions[0], "type") == Str(kind);
      var next := if hit then Get(conditions[0], "status") else sofar;
      var rest := conditions[1..];
      ConditionStatusMeans(rest, kind, next);
      forall i | 0 < i < |conditions| ensures conditions[i] == rest[i - 1] { }
      if i: nat :| NewestOf(rest, kind, i) && ConditionStatus(rest, kind, next) == Some(Get(rest[i], "status")) {
        assert NewestOf(conditions, kind, i + 1);
      } else if hit {
        assert NewestOf(conditions, kind, 0);
      }
    }
  }

  function KindOf(resource: Json): (kind: string)
    requires resource.Obj?
  {
    if Get(resource, "kind").Str? then Lower(Get(resource, "kind").s) else ""
  }

  /** The case of the kind does not matter. */
  lemma {:induction false} KindIgnoresCase(resource: Json, kind: string)
    requires resource.Obj? && Get(resource, "kind").Str? && forall i :: 0 <= i < |kind| ==> 'a' <= kind[i] <= 'z'
    ensures KindOf(resource) == kind <==> SameIgnoringCase(Get(resource, "kind").s, kind)
  {
    LowerIgnoresCase(Get(resource, "kind").s, kind);
  }

  ghost predicate AtLeast(n: Option<int>, bound: Option<int>) {
    n.Some? && bound.Some? && n.value >= bound.value
  }

  // The evidence of a finished rollout that each kind calls for.

  ghost predicate CaughtUp(metadata: Json, status: Json)
    requires metadata.Obj? && status.Obj?
  {
    AtLeast(Count(status, "observedGeneration"), Count(metadata, "generation"))
  }

  ghost predicate DeploymentRolledOut(spec: Json, status: Json)
    requires spec.Obj? && status.Obj?
  {
    && AtLeast(Count(status, "availableReplicas"), Replicas(spec))
    && AtLeast(Count(status, "updatedReplicas"), Replicas(spec))
    && Count(status, "unavailableReplicas") == Some(0)
    && !exists c :: c in Entries(status, "conditions").GetOr([]) && SaysDeadlineExceeded(c)
  }

  ghost predicate StatefulSetRolledOut(spec: Json, status: Json)
    requires spec.Obj? && status.Obj?
  {
    && AtLeast(Count(status, "readyReplicas"), Replicas(spec))
    && AtLeast(Count(status, "updatedReplicas"), Replicas(spec))
    && Get(status, "currentRevision") == Get(status, "updateRevision")
  }

  ghost predicate DaemonSetRolledOut(status: Json)
    requires status.Obj?
  {
    var wanted := Count(status, "desiredNumberScheduled");
    && AtLeast(wanted, Some(1))
    && AtLeast(Count(status, "numberReady"), wanted) && AtLeast(Count(status, "updatedNumberScheduled"), wanted)
  }

  ghost predicate PodRuns(status: Json)
    requires status.Obj?
  {
    && Get(status, "phase") == Str("Running") && Entries(status, "containerStatuses").GetOr([]) != []
    && forall c :: c in Entries(status, "containerStatuses").GetOr([]) ==> c.Obj? && Truthy(Get(c, "ready"))
  }

  ghost predicate JobCompleted(status: Json)
    requires status.Obj?
  {
    var conditions := Entries(status, "conditions").GetOr([]);
    NewestSays(conditions, "Complete", "True") && !NewestSays(conditions, "Failed", "True")
  }

  ghost predicate RolledOut(resource: Json)
    requires resource.Obj?
    requires Section(resource, "metadata").Some? && Section(resource, "spec").Some? && Section(resource, "status").Some?
  {
    var metadata, spec := Section(resource, "metadata").value, Section(resource, "spec").value;
    var status := Section(resource, "status").value;
    match KindOf(resource)
    case "deployment" => CaughtUp(metadata, status) && DeploymentRolledOut(spec, status)
    case "statefulset" => CaughtUp(metadata, status) && StatefulSetRolledOut(spec, status)
    case "daemonset" => CaughtUp(metadata, status) && DaemonSetRolledOut(status)
    case "pod" => PodRuns(status)
    case "job" => JobCompleted(status)
    case _ => true
  }

  ghost predicate NewestSays(conditions: seq<Json>, kind: string, status: string) {
    exists i: nat :: NewestOf(conditions, kind, i) && Get(conditions[i], "status") == Str(status)
  }

  lemma {:induction false} NewestSaysIsConditionStatus(conditions: seq<Json>, kind: string, status: string)
    requires ConditionStatus(conditions, kind, Null).Some?
    ensures NewestSays(conditions, kind, status) <==> ConditionStatus(conditions, kind, Null) == Some(Str(status))
  {
    ConditionStatusMeans(conditions, kind, Null);
    if NewestSays(conditions, kind, status) {
      var i: nat :| NewestOf(conditions, kind, i) && Get(conditions[i], "status") == Str(status);
      var j: nat :| NewestOf(conditions, kind, j)
                    && ConditionStatus(conditions, kind, Null) == Some(Get(conditions[j], "status"));
      assert i == j;
    }
  }

  lemma {:induction false} HealthyDeployment(spec: Json, status: Json, caughtUp: bool)
    requires spec.Obj? && status.Obj? && DeploymentHealth(spec, status, caughtUp).Some?
    ensures DeploymentHealth(spec, status, caughtUp).value.ok <==> caughtUp && DeploymentRolledOut(spec, status)
  {
    DeadlineExceededMeans(Entries(status, "conditions").value);
  }

  lemma {:induction false} HealthyPod(status: Json)
    requires status.Obj? && PodHealth(status).Some?
    ensures PodHealth(status).value.ok <==> PodRuns(status)
  {
    AllReadyMeans(Entries(status, "containerStatuses").value);
  }

  lemma {:induction false} HealthyJob(status: Json)
    requires status.Obj? && JobHealth(status).Some?
    ensures JobHealth(status).value.ok <==> JobCompleted(status)
  {
    var conditions := Entries(status, "conditions").value;
    NewestSaysIsConditionStatus(conditions, "Failed", "True");
    NewestSaysIsConditionStatus(conditions, "Complete", "True");
  }

  /** A judged workload is healthy exactly when its rollout has finished. */
  lemma {:induction false} HealthyMeansRolledOut(resource: Json)
    requires resource.Obj? && WorkloadHealth(resource).Some?
    ensures Section(resource, "metadata").Some? && Section(resource, "spec").Some? && Section(resource, "status").Some?
    ensures WorkloadHealth(resource).value.ok <==> RolledOut(resource)
  {
    var metadata, spec := Section(resource, "metadata").value, Section(resource, "spec").value;
    var status := Section(resource, "status").value;
    match KindOf(resource)
    case "deployment" => HealthyDeployment(spec, status, CaughtUp(metadata, status));
    case "pod" => HealthyPod(status);
    case "job" => HealthyJob(status);
    case _ =>
  }

  /** What makes waiting pointless, for each kind. */
  ghost predicate Hopeless(kind: string, status: Json)
    requires status.Obj?
  {
    match kind
    case "deployment" => exists c :: c in Entries(status, "conditions").GetOr([]) && SaysDeadlineExceeded(c)
    case "pod" => Get(status, "phase") == Str("Failed")
    case "job" => NewestSays(Entries(status, "conditions").GetOr([]), "Failed", "True")
    case _ => false
  }

  lemma {:induction false} TerminalDeployment(spec: Json, status: Json, caughtUp: bool)
    requires spec.Obj? && status.Obj? && DeploymentHealth(spec, status, caughtUp).Some?
    ensures DeploymentHealth(spec, status, caughtUp).value.terminal <==> Hopeless("deployment", status)
  {
    DeadlineExceededMeans(Entries(status, "conditions").value);
  }

  lemma {:induction false} TerminalJob(status: Json)
    requires status.Obj? && JobHealth(status).Some?
    ensures JobHealth(status).value.terminal <==> Hopeless("job", status)
  {
    NewestSaysIsConditionStatus(Entries(status, "conditions").value, "Failed", "True");
  }

  /** Waiting is pointless exactly for a deployment past its deadline, a failed pod or a failed job. */
  lemma {:induction false} TerminalMeansHopeless(resource: Json)
    requires resource.Obj? && WorkloadHealth(resource).Some?
    ensures Section(resource, "status").Some?
    ensures WorkloadHealth(resource).value.terminal <==> Hopeless(KindOf(resource), Section(resource, "status").value)
  {
    var metadata, spec := Section(resource, "metadata").value, Section(resource, "spec").value;
    var status := Section(resource, "status").value;
    match KindOf(resource)
    case "deployment" => TerminalDeployment(spec, status, CaughtUp(metadata, status));
    case "job" => TerminalJob(status);
    case _ =>
  }

  // ---------------------------------------------------------------- one target

  function AnnotationsOf(doc: Json): (a: Option<Json>)
    requires doc.Obj?
    ensures a.Some? ==> a.value.Obj?
  {
    var metadata :- Section(doc, "metadata");
    Section(metadata, "annotations")
  }

  predicate MarkersMatch(annotations: Json, operation: string, hmac: string)
    requires annotations.Obj?
  {
    && Get(annotations, OPERATION_MARKER) == Str(operation)
    && Get(annotations, DESIRED_MARKER) == Str(hmac)
  }

  function DesiredSpec(t: Target): (d: Json) {
    if t.desired.Some? then t.desired.value else Obj(map[])
  }

  /** `resource.get("spec", {})`. */
  function LiveSpec(doc: Json): (s: Json)
    requires doc.Obj?
  {
    if "spec" in doc.fields then doc.fields["spec"] else Obj(map[])
  }

  /** The mutation is visible in a live document: both markers, and the whole desired spec. */
  ghost predicate Committed(t: Target, doc: Json, operation: string, hmac: string) {
    && doc.Obj? && AnnotationsOf(doc).Some?
    && MarkersMatch(AnnotationsOf(doc).value, operation, hmac)
    && Covers(DesiredSpec(t), LiveSpec(doc))
  }

  ghost predicate TargetPasses(t: Target, read: Read, operation: string, hmac: string) {
    && read.Live? && Committed(t, read.doc, operation, hmac)
    && WorkloadHealth(read.doc).Some? && WorkloadHealth(read.doc).value.ok
  }

  ghost predicate ReadRaises(read: Read) {
    read.Live? && (!read.doc.Obj? || AnnotationsOf(read.doc).None? || WorkloadHealth(read.doc).None?)
  }

  /** This target alone makes waiting pointless. */
  ghost predicate ReadIsTerminal(read: Read, operation: string) {
    match read
    case ReadError(_, terminal) => terminal
    case BadJson => false
    case Live(doc) =>
      doc.Obj? &&
      (|| (Section(doc, "status").Some? && Hopeless(KindOf(doc), Section(doc, "status").value))
       || (AnnotationsOf(doc).Some?
           && Truthy(Get(AnnotationsOf(doc).value, OPERATION_MARKER))
           && Get(AnnotationsOf(doc).value, OPERATION_MARKER) != Str(operation)))
  }

  predicate ReadIsMissing(read: Read) {
    read.ReadError? && read.notFound
  }

  // ---------------------------------------------------------------- the Kubernetes check

  datatype Probe = Probe(passed: bool, terminal: bool, evidence: Journal.Evidence)

  /** What every adapter guarantees: a pass is neither terminal nor a partial commit. */
  predicate SoundProbe(p: Probe) {
    p.passed ==> !p.terminal && !p.evidence.partialCommit && p.evidence.reason == Journal.NoReason
  }

  /** The body of the check's loop: what one answer adds to the tally. */
  datatype Finding = Finding(passed: bool, terminal: bool, committed: bool, missing: bool)

  ghost predicate IsCommitted(t: Target, read: Read, operation: string, hmac: string) {
    read.Live? && Committed(t, read.doc, operation, hmac)
  }

  ghost predicate Describes(f: Finding, t: Target, read: Read, operation: string, hmac: string) {
    && (f.passed <==> TargetPasses(t, read, operation, hmac))
    && (f.committed <==> IsCommitted(t, read, operation, hmac))
    && (f.terminal <==> ReadIsTerminal(read, operation))
    && (f.missing <==> ReadIsMissing(read))
    && (f.passed ==> !f.terminal && !f.missing)
  }

  method CheckTarget(t: Target, read: Read, operation: string, hmac: string) returns (f: Option<Finding>)
    ensures f.None? <==> ReadRaises(read)
    ensures f.Some? ==> Describes(f.value, t, read, operation, hmac)
  {
    match read {
      case ReadError(notFound, terminal) => return Some(Finding(false, terminal, false, notFound));
      case BadJson => return Some(Finding(false, false, false, false));
      case Live(resource) =>
        if !resource.Obj? { return None; }
        var annotations := AnnotationsOf(resource);
        if annotations.None? { return None; }
        var operationMatches := Get(annotations.value, OPERATION_MARKER) == Str(operation);
        var markersMatch := operationMatches && Get(annotations.value, DESIRED_MARKER) == Str(hmac);
        var conflicting := Truthy(Get(annotations.value, OPERATION_MARKER)) && !operationMatches;
        var desiredMatches := SubsetMatches(DesiredSpec(t), LiveSpec(resource));
        MatchMeansCoverage(DesiredSpec(t), LiveSpec(resource));
        var health := WorkloadHealth(resource);
        if health.None? { return None; }
        TerminalMeansHopeless(resource);
        return Some(Finding(markersMatch && desiredMatches && health.value.ok,
                            health.value.terminal || conflicting,
                            markersMatch && desiredMatches, false));
    }
  }

  /**
   One pass over the planned targets. `answers[i]` is what the cluster answered for
   `targets[i]`; `None` is an exception raised while looking at some answer.
   */
  method VerifyKubernetes(targets: seq<Target>, answers: seq<Read>, operation: string, hmac: string)
    returns (probe: Option<Probe>)
    requires |answers| == |targets|
    ensures probe.None? <==> exists i :: 0 <= i < |targets| && ReadRaises(answers[i])
    ensures probe.Some? ==>
              (probe.value.passed <==>
                 targets != []
                 && forall i :: 0 <= i < |targets| ==> TargetPasses(targets[i], answers[i], operation, hmac))
    ensures probe.Some? ==>
              (probe.value.terminal <==>
                 exists i :: 0 <= i < |targets| && ReadIsTerminal(answers[i], operation))
    ensures probe.Some? ==>
              (probe.value.evidence.partialCommit <==>
                 && (exists i :: 0 <= i < |targets| && IsCommitted(targets[i], answers[i], operation, hmac))
                 && (exists i :: 0 <= i < |targets| && ReadIsMissing(answers[i])))
    ensures probe.Some? ==> SoundProbe(probe.value)
  {
    var findings := [];
    for n := 0 to |targets|
      invariant |findings| == n
      invariant forall i :: 0 <= i < n ==>
                  !ReadRaises(answers[i]) && Describes(findings[i], targets[i], answers[i], operation, hmac)
    {
      var finding := CheckTarget(targets[n], answers[n], operation, hmac);
      if finding.None? { return None; }
      findings := findings + [finding.value];
    }
    var p := Tally(findings);
    probe := Some(p);
    assert p.passed <==> targets != [] && forall i :: 0 <= i < |targets| ==> findings[i].passed;
  }

  /** The accumulators of the loop over targets. */
  method Tally(findings: seq<Finding>) returns (p: Probe)
    ensures p.passed <==> findings != [] && forall i :: 0 <= i < |findings| ==> findings[i].passed
    ensures p.terminal <==> exists i :: 0 <= i < |findings| && findings[i].terminal
    ensures p.evidence.partialCommit <==>
              && (exists i :: 0 <= i < |findings| && findings[i].committed)
              && (exists i :: 0 <= i < |findings| && findings[i].missing)
    ensures p.evidence.reason == Journal.NoReason
  {
    var allPassed, terminalFailure := true, false;
    var committed, missing := 0, 0;
    for n := 0 to |findings|
      invariant allPassed <==> forall i :: 0 <= i < n ==> findings[i].passed
      invariant terminalFailure <==> exists i :: 0 <= i < n && findings[i].terminal
      invariant committed >= 0 && (committed > 0 <==> exists i :: 0 <= i < n && findings[i].committed)
      invariant missing >= 0 && (missing > 0 <==> exists i :: 0 <= i < n && findings[i].missing)
    {
      allPassed := allPassed && findings[n].passed;
      terminalFailure := terminalFailure || findings[n].terminal;
      if findings[n].committed { committed := committed + 1; }
      if findings[n].missing { missing := missing + 1; }
    }
    p := Probe(allPassed && findings != [], terminalFailure,
               Journal.Evidence(Journal.NoReason, committed > 0 && missing > 0));
  }

  // ---------------------------------------------------------------- completeness

  /** The live object holds one stamped document, extended only by additions. */
  predicate HoldsStamped(live: Json, doc: Json, operation: string, hmac: string) {
    && doc.Obj? && StampDocument(doc, operation, hmac).Some?
    && Extends(StampDocument(doc, operation, hmac).value, live)
  }

  predicate Healthy(live: Json) {
    live.Obj? && WorkloadHealth(live).Some? && WorkloadHealth(live).value.ok
  }

  lemma {:induction false} StampedAnnotationsSurvive(live: Json, doc: Json, operation: string, hmac: string)
    requires HoldsStamped(live, doc, operation, hmac)
    ensures AnnotationsOf(live).Some? && MarkersMatch(AnnotationsOf(live).value, operation, hmac)
  {
    var stamped := StampDocument(doc, operation, hmac).value;
    var metadata := stamped.fields["metadata"];
    var annotations := metadata.fields["annotations"];
    assert Extends(metadata, live.fields["metadata"]);
    assert "annotations" in live.fields["metadata"].fields;
    assert Extends(annotations, live.fields["metadata"].fields["annotations"]);
    assert OPERATION_MARKER in annotations.fields && DESIRED_MARKER in annotations.fields;
  }

  /** The desired spec is in the live one, if that is a mapping at all. */
  lemma {:induction false} StampedSpecSurvives(
    live: Json, doc: Json, operation: string, hmac: string, ns: string, text: Json -> string)
    requires HoldsStamped(live, doc, operation, hmac) && TargetOf(doc, ns, text).Some? && LiveSpec(live).Obj?
    ensures Extends(DesiredSpec(TargetOf(doc, ns, text).value), LiveSpec(live))
  {
    var t := TargetOf(doc, ns, text).value;
    var stamped := StampDocument(doc, operation, hmac).value;
    if t.desired.Some? {
      assert "spec" in stamped.fields && stamped.fields["spec"] == DesiredSpec(t);
    }
  }

  /** The live spec can be compared: it is a mapping, and no named item of the desired spec is shadowed in it. */
  predicate Comparable(t: Target, live: Json)
    requires live.Obj?
  {
    LiveSpec(live).Obj? && Extends(DesiredSpec(t), LiveSpec(live)) && Unshadowed(DesiredSpec(t), LiveSpec(live))
  }

  /** An applied document passes if and only if it is healthy and its spec can be compared. */
  lemma {:induction false} StampedDocumentPasses(
    live: Json, doc: Json, operation: string, hmac: string, ns: string, text: Json -> string)
    requires HoldsStamped(live, doc, operation, hmac) && TargetOf(doc, ns, text).Some?
    ensures live.Obj?
    ensures TargetPasses(TargetOf(doc, ns, text).value, Live(live), operation, hmac)
            <==> Healthy(live) && Comparable(TargetOf(doc, ns, text).value, live)
  {
    StampedAnnotationsSurvive(live, doc, operation, hmac);
    var desired, spec := DesiredSpec(TargetOf(doc, ns, text).value), LiveSpec(live);
    MatchMeansCoverage(desired, spec);
    if spec.Obj? {
      StampedSpecSurvives(live, doc, operation, hmac, ns, text);
      ExtensionMatchesExactly(desired, spec);
    } else {
      NonMappingSpecNeverPasses(doc, live, operation, hmac, ns, text);
    }
  }

  /** The usual case: additions that keep the names of fully named lists distinct can be compared. */
  lemma {:induction false} DefaultsAreComparable(
    live: Json, doc: Json, operation: string, hmac: string, ns: string, text: Json -> string)
    requires HoldsStamped(live, doc, operation, hmac) && TargetOf(doc, ns, text).Some? && LiveSpec(live).Obj?
    ensures var desired := DesiredSpec(TargetOf(doc, ns, text).value);
            && Extends(desired, LiveSpec(live))
            && (NamesDistinct(desired, LiveSpec(live)) ==> Comparable(TargetOf(doc, ns, text).value, live))
  {
    StampedSpecSurvives(live, doc, operation, hmac, ns, text);
    var desired, spec := DesiredSpec(TargetOf(doc, ns, text).value), LiveSpec(live);
    if NamesDistinct(desired, spec) { DistinctNamesUnshadowed(desired, spec); }
  }

  /** The cluster, seen by the identity that the verifier answers with. */
  type Cluster = map<(string, string, string), Json>

  function Identity(t: Target): (string, string, string) {
    (t.kind, t.name, t.namespace)
  }

  /** Every document that contributes a target is held, stamped, by the cluster. */
  ghost predicate ClusterHolds(
    cluster: Cluster, docs: seq<Json>, operation: string, hmac: string, ns: string, text: Json -> string)
  {
    forall i :: 0 <= i < |docs| && TargetOf(docs[i], ns, text).Some? ==>
      var id := Identity(TargetOf(docs[i], ns, text).value);
      id in cluster && HoldsStamped(cluster[id], docs[i], operation, hmac)
  }

  /** Reading the planned targets from a cluster. */
  function ReadAll(cluster: Cluster, targets: seq<Target>): (answers: seq<Read>)
    ensures |answers| == |targets|
  {
    seq(|targets|, i requires 0 <= i < |targets| =>
      if Identity(targets[i]) in cluster then Live(cluster[Identity(targets[i])]) else ReadError(true, false))
  }

  /** Where the cluster holds what a document describes. */
  function Place(doc: Json, ns: string, text: Json -> string): (id: (string, string, string))
    requires doc.Obj?
  {
    var namespace := MetadataEntry(doc, "namespace");
    (text(Get(doc, "kind")), text(MetadataEntry(doc, "name")), text(if Truthy(namespace) then namespace else Str(ns)))
  }

  /**
   The cluster holds what the document asks for: both markers, a healthy workload, and a live
   spec that covers the document's own, unless that is not to be compared.
   */
  ghost predicate AsSpecified(
    cluster: Cluster, doc: Json, operation: string, hmac: string, ns: string, text: Json -> string)
  {
    && Plannable(doc, text) && Place(doc, ns, text) in cluster
    && var live := cluster[Place(doc, ns, text)];
       && Healthy(live) && AnnotationsOf(live).Some? && MarkersMatch(AnnotationsOf(live).value, operation, hmac)
       && LiveSpec(live).Obj?
       && (SpecIsCompared(doc, text) ==> Covers(doc.fields["spec"], LiveSpec(live)))
  }

  lemma {:induction false} PassesAsSpecified(
    cluster: Cluster, t: Target, doc: Json, operation: string, hmac: string, ns: string, text: Json -> string)
    requires Plans(t, doc, ns, text)
    ensures TargetPasses(t, ReadAll(cluster, [t])[0], operation, hmac)
            <==> AsSpecified(cluster, doc, operation, hmac, ns, text)
  {
    assert Identity(t) == Place(doc, ns, text);
    if Identity(t) in cluster && cluster[Identity(t)].Obj? {
      var spec := LiveSpec(cluster[Identity(t)]);
      MatchMeansCoverage(DesiredSpec(t), spec);
    }
  }

  /**
   Planning and checking a manifest against any cluster: the check passes if and only if there
   is something to check and the cluster holds every document as specified.
   */
  method VerifyManifest(
    cluster: Cluster, docs: seq<Json>, operation: string, hmac: string, ns: string, text: Json -> string)
    returns (probe: Option<Probe>)
    ensures probe.Some? && probe.value.passed <==>
            && PlannableDocs(docs, text) != []
            && forall i :: 0 <= i < |PlannableDocs(docs, text)| ==>
                 AsSpecified(cluster, PlannableDocs(docs, text)[i], operation, hmac, ns, text)
    ensures probe.Some? && probe.value.passed <==>
            && Targets(docs, ns, text) != []
            && forall i :: 0 <= i < |Targets(docs, ns, text)| ==>
                 TargetPasses(Targets(docs, ns, text)[i], ReadAll(cluster, Targets(docs, ns, text))[i], operation, hmac)
    ensures probe.Some? ==> SoundProbe(probe.value)
  {
    var targets := ParseManifestTargets(docs, ns, text);
    var answers := ReadAll(cluster, targets);
    forall i | 0 <= i < |targets|
      ensures TargetPasses(targets[i], answers[i], operation, hmac)
              <==> AsSpecified(cluster, PlannableDocs(docs, text)[i], operation, hmac, ns, text)
    {
      PassesAsSpecified(cluster, targets[i], PlannableDocs(docs, text)[i], operation, hmac, ns, text);
    }
    probe := VerifyKubernetes(targets, answers, operation, hmac);
    PassingTargetsDoNotRaise(targets, answers, operation, hmac);
  }

  /** The target's object in the cluster is healthy and can be compared. */
  predicate GoodInCluster(cluster: Cluster, t: Target) {
    && Identity(t) in cluster && Healthy(cluster[Identity(t)]) && Comparable(t, cluster[Identity(t)])
  }

  /**
   Completeness: plan a manifest, stamp it, and let the cluster hold the stamped documents
   extended by defaults. Then the check passes if and only if every workload is healthy and
   every spec can be compared.
   */
  method CheckAppliedManifest(
    cluster: Cluster, docs: seq<Json>, operation: string, hmac: string, ns: string, text: Json -> string)
    returns (probe: Option<Probe>)
    requires ClusterHolds(cluster, docs, operation, hmac, ns, text)
    requires Targets(docs, ns, text) != []
    ensures probe.Some? && probe.value.passed <==>
            forall t :: t in Targets(docs, ns, text) ==> GoodInCluster(cluster, t)
    ensures probe.Some? && probe.value.passed <==>
            forall i :: 0 <= i < |PlannableDocs(docs, text)| ==>
              AsSpecified(cluster, PlannableDocs(docs, text)[i], operation, hmac, ns, text)
    ensures probe.Some? ==> SoundProbe(probe.value)
  {
    ghost var targets := Targets(docs, ns, text);
    ghost var answers := ReadAll(cluster, targets);
    TargetsPlan(docs, ns, text);
    forall i | 0 <= i < |targets|
      ensures TargetPasses(targets[i], answers[i], operation, hmac) <==> GoodInCluster(cluster, targets[i])
    {
      assert targets[i] in targets;
      TargetsAreFromDocuments(docs, ns, text, targets[i]);
      var k :| 0 <= k < |docs| && TargetOf(docs[k], ns, text) == Some(targets[i]);
      StampedDocumentPasses(cluster[Identity(targets[i])], docs[k], operation, hmac, ns, text);
    }
    probe := VerifyManifest(cluster, docs, operation, hmac, ns, text);
    assert (forall t :: t in targets ==> GoodInCluster(cluster, t))
      <==> forall i :: 0 <= i < |targets| ==> GoodInCluster(cluster, targets[i]);
  }

  lemma {:induction false} PassingTargetsDoNotRaise(
    targets: seq<Target>, answers: seq<Read>, operation: string, hmac: string)
    requires |answers| == |targets|
    ensures (forall i :: 0 <= i < |targets| ==> TargetPasses(targets[i], answers[i], operation, hmac)) ==>
            forall i :: 0 <= i < |targets| ==> !ReadRaises(answers[i])
  {
  }

  /**
   The live spec has to be a mapping: a target whose live spec is anything else never
   passes, although its manifest is planned as verifiable.
   */
  lemma {:induction false} NonMappingSpecNeverPasses(
    doc: Json, live: Json, operation: string, hmac: string, ns: string, text: Json -> string)
    requires TargetOf(doc, ns, text).Some? && live.Obj? && !LiveSpec(live).Obj?
    ensures !TargetPasses(TargetOf(doc, ns, text).value, Live(live), operation, hmac)
  {
    var desired := DesiredSpec(TargetOf(doc, ns, text).value);
    assert !CoversAt(desired, LiveSpec(live), [], desired);
  }
}
