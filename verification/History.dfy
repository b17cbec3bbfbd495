/** Chat history: repairing tool calls and replies, and windowing. */
module History {
  import opened Common

  datatype Role = System | User | Assistant | Tool | OtherRole(name: string)

  datatype Call = Call(id: string, body: string)   // an absent id is ""

  datatype Msg = Msg(role: Role, content: Option<string>, calls: Option<seq<Call>>, replyTo: string)

  // ---------------------------------------------------------------- repair, as functions

  /** The ids that an assistant message calls. */
  function CallIds(m: Msg): (ids: set<string>) {
    if m.role == Assistant && m.calls.Some?
    then set i | 0 <= i < |m.calls.value| && m.calls.value[i].id != "" :: m.calls.value[i].id
    else {}
  }

  /** An id is among them exactly if the message is an assistant's, the id is not empty, and some call has it. */
  lemma {:induction false} CallIdsMean(m: Msg, x: string)
    ensures x in CallIds(m) <==>
            m.role == Assistant && m.calls.Some? && x != "" && exists c :: c in m.calls.value && c.id == x
  {
    if m.calls.Some? {
      if c :| c in m.calls.value && c.id == x && x != "" && m.role == Assistant {
        var i :| 0 <= i < |m.calls.value| && m.calls.value[i] == c;
        assert m.calls.value[i].id in CallIds(m);
      }
    }
  }

  /** The ids answered by the unbroken run of tool messages at the front. */
  function RunReplies(ms: seq<Msg>): (ids: set<string>) {
    if ms == [] || ms[0].role != Tool then {} else {ms[0].replyTo} + RunReplies(ms[1..])
  }

  /** The ids that some assistant message calls and the run after it answers. */
  function ValidIds(ms: seq<Msg>): (ids: set<string>) {
    if ms == [] then {} else (CallIds(ms[0]) * RunReplies(ms[1..])) + ValidIds(ms[1..])
  }

  function KeepCalls(calls: seq<Call>, valid: set<string>): (kept: seq<Call>)
    ensures forall c :: c in kept <==> c in calls && c.id != "" && c.id in valid
  {
    if calls == [] then []
    else
      var rest := KeepCalls(calls[..|calls| - 1], valid);
      var last := calls[|calls| - 1];
      if last.id != "" && last.id in valid then rest + [last] else rest
  }

  /** One message, with missing content filled in and unanswered calls removed. */
  function Fix(m: Msg, valid: set<string>): (m': Msg)
    ensures m'.role == m.role && m'.replyTo == m.replyTo && m'.content.Some?
  {
    var filled := if m.content.None? then m.(content := Some("")) else m;
    if m.role != Assistant || m.calls.None? then filled
    else
      var kept := KeepCalls(m.calls.value, valid);
      filled.(calls := if kept == [] then None else Some(kept))
  }

  /** A tool reply is dropped unless its id was called by a kept call before it. */
  predicate Dropped(m: Msg, seen: set<string>) {
    m.role == Tool && (m.replyTo == "" || m.replyTo !in seen)
  }

  function Repair(ms: seq<Msg>, valid: set<string>, seen: set<string>): (out: seq<Msg>) {
    if ms == [] then []
    else
      var m := Fix(ms[0], valid);
      var seen' := seen + CallIds(m);
      var rest := Repair(ms[1..], valid, seen');
      if Dropped(m, seen') then rest else [m] + rest
  }

  function Sanitize(ms: seq<Msg>): (out: seq<Msg>) {
    Repair(ms, ValidIds(ms), {})
  }

  // ---------------------------------------------------------------- repair, as it runs

  /** The ids among `expected` that the run of tool messages after position `i` answers. */
  method AnsweredAfter(ms: seq<Msg>, i: nat, expected: set<string>) returns (found: set<string>)
    requires i < |ms|
    ensures found == expected * RunReplies(ms[i + 1..])
  {
    found := {};
    var j := i + 1;
    while j < |ms| && ms[j].role == Tool
      invariant i + 1 <= j <= |ms|
      invariant found + expected * RunReplies(ms[j..]) == expected * RunReplies(ms[i + 1..])
    {
      assert ms[j..][1..] == ms[j + 1..];
      if ms[j].replyTo in expected { found := found + {ms[j].replyTo}; }
      j := j + 1;
    }
  }

  method AnsweredIds(ms: seq<Msg>) returns (valid: set<string>)
    ensures valid == ValidIds(ms)
  {
    valid := {};
    for i := 0 to |ms|
      invariant valid + ValidIds(ms[i..]) == ValidIds(ms)
    {
      var found := AnsweredAfter(ms, i, CallIds(ms[i]));
      assert ms[i..][1..] == ms[i + 1..];
      valid := valid + found;
    }
  }

  method SanitizeMessages(ms: seq<Msg>) returns (sanitized: seq<Msg>)
    ensures sanitized == Sanitize(ms)
    ensures RepliesFollowCalls(sanitized) && CallsAreAnswered(sanitized)
    ensures Sanitize(sanitized) == sanitized
  {
    var valid := AnsweredIds(ms);
    sanitized := [];
    var seen := {};
    for k := 0 to |ms|
      invariant sanitized + Repair(ms[k..], valid, seen) == Repair(ms, valid, {})
    {
      assert ms[k..][1..] == ms[k + 1..];
      var m := Fix(ms[k], valid);
      seen := seen + CallIds(m);
      if !Dropped(m, seen) { sanitized := sanitized + [m]; }
    }
    SanitizeIsSound(ms);
    SanitizeIsIdempotent(ms);
  }

  // ---------------------------------------------------------------- idempotence

  lemma {:induction false} KeepCallsTwice(calls: seq<Call>, valid: set<string>)
    ensures KeepCalls(KeepCalls(calls, valid), valid) == KeepCalls(calls, valid)
  {
    if calls != [] {
      var front := calls[..|calls| - 1];
      KeepCallsTwice(front, valid);
      var kept := KeepCalls(calls, valid);
      if kept != KeepCalls(front, valid) {
        assert kept[..|kept| - 1] == KeepCalls(front, valid);
      }
    }
  }

  lemma {:induction false} FixTwice(m: Msg, valid: set<string>)
    ensures Fix(Fix(m, valid), valid) == Fix(m, valid)
    ensures CallIds(Fix(m, valid)) == CallIds(m) * valid
  {
    if m.role == Assistant && m.calls.Some? {
      KeepCallsTwice(m.calls.value, valid);
      var kept := KeepCalls(m.calls.value, valid);
      var fixed := Fix(m, valid);
      forall x ensures x in CallIds(fixed) <==> x in CallIds(m) * valid {
        if x in CallIds(fixed) {
          var i :| 0 <= i < |kept| && kept[i].id == x && x != "";
          assert kept[i] in m.calls.value;
        }
        if x in CallIds(m) * valid {
          var i :| 0 <= i < |m.calls.value| && m.calls.value[i].id == x && x != "";
          assert m.calls.value[i] in kept;
          var j :| 0 <= j < |kept| && kept[j] == m.calls.value[i];
        }
      }
    }
  }

  lemma {:induction false} RepairTwice(ms: seq<Msg>, valid: set<string>, seen: set<string>)
    ensures Repair(Repair(ms, valid, seen), valid, seen) == Repair(ms, valid, seen)
    decreases |ms|
  {
    if ms != [] {
      var m := Fix(ms[0], valid);
      FixTwice(ms[0], valid);
      var seen' := seen + CallIds(m);
      RepairTwice(ms[1..], valid, seen');
      if Dropped(m, seen') {
        assert CallIds(m) == {} && seen' == seen;
      } else {
        var rest := Repair(ms[1..], valid, seen');
        assert ([m] + rest)[1..] == rest;
      }
    }
  }

  /** Replies to calls already seen survive, so a run keeps its answers. */
  lemma {:induction false} RunSurvives(ms: seq<Msg>, valid: set<string>, seen: set<string>)
    ensures forall x :: x in RunReplies(ms) && x in seen && x != "" ==> x in RunReplies(Repair(ms, valid, seen))
    decreases |ms|
  {
    if ms != [] && ms[0].role == Tool {
      var m := Fix(ms[0], valid);
      assert CallIds(m) == {} && seen + CallIds(m) == seen;
      RunSurvives(ms[1..], valid, seen);
      var rest := Repair(ms[1..], valid, seen);
      assert ([m] + rest)[1..] == rest;
    }
  }

  lemma {:induction false} ValiditySurvives(ms: seq<Msg>, valid: set<string>, seen: set<string>)
    requires ValidIds(ms) <= valid
    ensures ValidIds(ms) <= ValidIds(Repair(ms, valid, seen)) <= valid
    decreases |ms|
  {
    if ms != [] {
      var m := Fix(ms[0], valid);
      FixTwice(ms[0], valid);
      var seen' := seen + CallIds(m);
      var rest := Repair(ms[1..], valid, seen');
      ValiditySurvives(ms[1..], valid, seen');
      RunSurvives(ms[1..], valid, seen');
      if !Dropped(m, seen') {
        assert ([m] + rest)[1..] == rest;
      }
    }
  }

  /** Repairing is idempotent, for every message list. */
  lemma {:induction false} SanitizeIsIdempotent(ms: seq<Msg>)
    ensures Sanitize(Sanitize(ms)) == Sanitize(ms)
  {
    var valid := ValidIds(ms);
    ValiditySurvives(ms, valid, {});
    assert ValidIds(Sanitize(ms)) == valid;
    RepairTwice(ms, valid, {});
  }

  // ---------------------------------------------------------------- soundness of a repaired history

  /** Every tool reply answers a call made before it. */
  ghost predicate RepliesFollowCalls(out: seq<Msg>) {
    forall j :: 0 <= j < |out| && out[j].role == Tool ==>
      exists i :: 0 <= i < j && out[j].replyTo in CallIds(out[i])
  }

  /** The message at `j` answers `x`, in the unbroken run of tool messages after the call at `i`. */
  ghost predicate AnswersInRun(out: seq<Msg>, i: int, j: int, x: string) {
    && 0 <= i < j < |out| && x in CallIds(out[i])
    && out[j].role == Tool && out[j].replyTo == x
    && forall n :: i < n <= j ==> out[n].role == Tool
  }

  ghost predicate CallsAreAnswered(out: seq<Msg>) {
    forall k, x :: 0 <= k < |out| && x in CallIds(out[k]) ==> exists i, j :: AnswersInRun(out, i, j, x)
  }

  lemma {:induction false} RunReplyAt(ms: seq<Msg>, x: string) returns (j: nat)
    requires x in RunReplies(ms)
    ensures j < |ms| && ms[j].replyTo == x && forall n :: 0 <= n <= j ==> ms[n].role == Tool
  {
    if ms[0].replyTo == x {
      j := 0;
    } else {
      j := RunReplyAt(ms[1..], x);
      j := j + 1;
    }
  }

  lemma {:induction false} ValidMeansAnswered(ms: seq<Msg>, x: string) returns (i: nat, j: nat)
    requires x in ValidIds(ms)
    ensures AnswersInRun(ms, i, j, x)
  {
    if x in CallIds(ms[0]) * RunReplies(ms[1..]) {
      j := RunReplyAt(ms[1..], x);
      i, j := 0, j + 1;
      forall n | i < n <= j ensures ms[n].role == Tool { assert ms[n] == ms[1..][n - 1]; }
    } else {
      i, j := ValidMeansAnswered(ms[1..], x);
      i, j := i + 1, j + 1;
      forall n | i < n <= j ensures ms[n].role == Tool { assert ms[n] == ms[1..][n - 1]; }
    }
  }

  lemma {:induction false} RepairedReplies(ms: seq<Msg>, valid: set<string>, seen: set<string>, j: nat)
    requires j < |Repair(ms, valid, seen)| && Repair(ms, valid, seen)[j].role == Tool
    ensures var out := Repair(ms, valid, seen);
            out[j].replyTo in seen || exists i :: 0 <= i < j && out[j].replyTo in CallIds(out[i])
    decreases |ms|
  {
    var out := Repair(ms, valid, seen);
    var m := Fix(ms[0], valid);
    var seen' := seen + CallIds(m);
    var rest := Repair(ms[1..], valid, seen');
    if Dropped(m, seen') {
      assert CallIds(m) == {};
      RepairedReplies(ms[1..], valid, seen', j);
    } else if j > 0 {
      assert out[j] == rest[j - 1];
      RepairedReplies(ms[1..], valid, seen', j - 1);
      if i :| 0 <= i < j - 1 && rest[j - 1].replyTo in CallIds(rest[i]) {
        assert out[i + 1] == rest[i];
      }
      assert out[0] == m;
    }
  }

  lemma {:induction false} RepairedCalls(ms: seq<Msg>, valid: set<string>, seen: set<string>, k: nat)
    requires k < |Repair(ms, valid, seen)|
    ensures CallIds(Repair(ms, valid, seen)[k]) <= valid
    decreases |ms|
  {
    var m := Fix(ms[0], valid);
    FixTwice(ms[0], valid);
    var seen' := seen + CallIds(m);
    if Dropped(m, seen') {
      RepairedCalls(ms[1..], valid, seen', k);
    } else if k > 0 {
      RepairedCalls(ms[1..], valid, seen', k - 1);
    }
  }

  lemma {:induction false} SanitizedReplies(ms: seq<Msg>)
    ensures RepliesFollowCalls(Sanitize(ms))
  {
    var out := Sanitize(ms);
    forall j | 0 <= j < |out| && out[j].role == Tool
      ensures exists i :: 0 <= i < j && out[j].replyTo in CallIds(out[i])
    {
      RepairedReplies(ms, ValidIds(ms), {}, j);
    }
  }

  /** A repaired history has no orphan: replies follow kept calls, and kept calls are answered. */
  lemma {:induction false} SanitizeIsSound(ms: seq<Msg>)
    ensures RepliesFollowCalls(Sanitize(ms)) && CallsAreAnswered(Sanitize(ms))
  {
    SanitizedReplies(ms);
    var out, valid := Sanitize(ms), ValidIds(ms);
    ValiditySurvives(ms, valid, {});
    forall k, x | 0 <= k < |out| && x in CallIds(out[k])
      ensures exists i, j :: AnswersInRun(out, i, j, x)
    {
      RepairedCalls(ms, valid, {}, k);
      var i, j := ValidMeansAnswered(out, x);
    }
  }

  /** No id is answered twice. */
  ghost predicate UniqueReplies(ms: seq<Msg>) {
    forall i, j :: 0 <= i < j < |ms| && ms[i].role == Tool && ms[j].role == Tool ==> ms[i].replyTo != ms[j].replyTo
  }

  lemma {:induction false} RepairComesFrom(ms: seq<Msg>, valid: set<string>, seen: set<string>, k: nat) returns (i: nat)
    requires k < |Repair(ms, valid, seen)|
    ensures i < |ms| && Repair(ms, valid, seen)[k] == Fix(ms[i], valid)
    decreases |ms|
  {
    var m := Fix(ms[0], valid);
    var seen' := seen + CallIds(m);
    if Dropped(m, seen') {
      i := RepairComesFrom(ms[1..], valid, seen', k);
      i := i + 1;
    } else if k == 0 {
      i := 0;
    } else {
      i := RepairComesFrom(ms[1..], valid, seen', k - 1);
      i := i + 1;
    }
  }

  lemma {:induction false} RepairKeepsUniqueReplies(ms: seq<Msg>, valid: set<string>, seen: set<string>)
    requires UniqueReplies(ms)
    ensures UniqueReplies(Repair(ms, valid, seen))
    decreases |ms|
  {
    if ms != [] {
      var m := Fix(ms[0], valid);
      var seen' := seen + CallIds(m);
      var rest := Repair(ms[1..], valid, seen');
      RepairKeepsUniqueReplies(ms[1..], valid, seen');
      forall k | 0 <= k < |rest| && rest[k].role == Tool && m.role == Tool
        ensures rest[k].replyTo != m.replyTo
      {
        var i := RepairComesFrom(ms[1..], valid, seen', k);
        assert ms[1..][i] == ms[i + 1];
      }
    }
  }

  /** With unique replies, every kept reply lies in the unbroken run after its own call. */
  lemma {:induction false} RepliesStayInTheirRun(ms: seq<Msg>, j: nat)
    requires UniqueReplies(ms) && j < |Sanitize(ms)| && Sanitize(ms)[j].role == Tool
    ensures exists i :: AnswersInRun(Sanitize(ms), i, j, Sanitize(ms)[j].replyTo)
  {
    var out := Sanitize(ms);
    SanitizeIsSound(ms);
    RepairKeepsUniqueReplies(ms, ValidIds(ms), {});
    var i0 :| 0 <= i0 < j && out[j].replyTo in CallIds(out[i0]);
    var i, j' :| AnswersInRun(out, i, j', out[j].replyTo);
    assert j' == j;
  }

  // ---------------------------------------------------------------- what the repair leaves alone

  /** Nothing to repair in the message itself. */
  predicate Tidy(m: Msg) {
    && m.content.Some?
    && (m.role == Assistant && m.calls.Some? ==>
          m.calls.value != [] && forall i :: 0 <= i < |m.calls.value| ==> m.calls.value[i].id != "")
  }

  ghost predicate Clean(ms: seq<Msg>) {
    && (forall k :: 0 <= k < |ms| ==> Tidy(ms[k]))
    && RepliesFollowCalls(ms) && CallsAreAnswered(ms)
  }

  lemma {:induction false} KeepAll(calls: seq<Call>, valid: set<string>)
    requires forall i :: 0 <= i < |calls| ==> calls[i].id != "" && calls[i].id in valid
    ensures KeepCalls(calls, valid) == calls
  {
    if calls != [] {
      KeepAll(calls[..|calls| - 1], valid);
      assert calls == calls[..|calls| - 1] + [calls[|calls| - 1]];
    }
  }

  lemma {:induction false} FixTidy(m: Msg, valid: set<string>)
    requires Tidy(m) && CallIds(m) <= valid
    ensures Fix(m, valid) == m
  {
    if m.role == Assistant && m.calls.Some? {
      forall i | 0 <= i < |m.calls.value| ensures m.calls.value[i].id in valid {
        assert m.calls.value[i].id in CallIds(m);
      }
      KeepAll(m.calls.value, valid);
    }
  }

  lemma {:induction false} RunHoldsReply(ms: seq<Msg>, j: nat)
    requires j < |ms| && forall n :: 0 <= n <= j ==> ms[n].role == Tool
    ensures ms[j].replyTo in RunReplies(ms)
  {
    if j > 0 { RunHoldsReply(ms[1..], j - 1); }
  }

  lemma {:induction false} AnsweredMeansValid(ms: seq<Msg>, i: nat, j: nat, x: string)
    requires AnswersInRun(ms, i, j, x)
    ensures x in ValidIds(ms)
  {
    if i == 0 {
      RunHoldsReply(ms[1..], j - 1);
    } else {
      AnsweredMeansValid(ms[1..], i - 1, j - 1, x);
    }
  }

  /** The reply at `j` answers a call made within `ms`, or one of `seen`. */
  ghost predicate Answers(ms: seq<Msg>, seen: set<string>, j: nat)
    requires j < |ms|
  {
    (ms[j].replyTo != "" && ms[j].replyTo in seen) || exists i :: 0 <= i < j && ms[j].replyTo in CallIds(ms[i])
  }

  lemma {:induction false} RepairLeavesFixed(ms: seq<Msg>, valid: set<string>, seen: set<string>)
    requires forall k :: 0 <= k < |ms| ==> Fix(ms[k], valid) == ms[k]
    requires forall j :: 0 <= j < |ms| && ms[j].role == Tool ==> Answers(ms, seen, j)
    ensures Repair(ms, valid, seen) == ms
  {
    if ms != [] {
      var rest, seen' := ms[1..], seen + CallIds(ms[0]);
      assert ms == [ms[0]] + rest;
      assert Fix(ms[0], valid) == ms[0];
      assert ms[0].role == Tool ==> Answers(ms, seen, 0);
      forall j: nat | 0 <= j < |rest| && rest[j].role == Tool ensures Answers(rest, seen', j) {
        assert Answers(ms, seen, j + 1);
        if i :| 0 <= i < j + 1 && ms[j + 1].replyTo in CallIds(ms[i]) {
          assert i > 0 ==> rest[i - 1] == ms[i];
        }
      }
      RepairLeavesFixed(rest, valid, seen');
    }
  }

  lemma {:induction false} CleanIsLeftAlone(ms: seq<Msg>)
    requires Clean(ms)
    ensures Sanitize(ms) == ms
  {
    var valid := ValidIds(ms);
    forall k | 0 <= k < |ms| ensures Fix(ms[k], valid) == ms[k] {
      forall x | x in CallIds(ms[k]) ensures x in valid {
        var i, j :| AnswersInRun(ms, i, j, x);
        AnsweredMeansValid(ms, i, j, x);
      }
      FixTidy(ms[k], valid);
    }
    RepairLeavesFixed(ms, valid, {});
  }

  lemma {:induction false} FixedIsTidy(m: Msg, valid: set<string>)
    ensures Tidy(Fix(m, valid))
  {
    if m.role == Assistant && m.calls.Some? {
      var kept := KeepCalls(m.calls.value, valid);
      forall i | 0 <= i < |kept| ensures kept[i].id != "" { assert kept[i] in kept; }
    }
  }

  lemma {:induction false} UnchangedIsTidy(ms: seq<Msg>, k: nat)
    requires Sanitize(ms) == ms && k < |ms|
    ensures Tidy(ms[k])
  {
    var i := RepairComesFrom(ms, ValidIds(ms), {}, k);
    FixedIsTidy(ms[i], ValidIds(ms));
  }

  /** The repair changes a history exactly when there is something to repair in it. */
  lemma {:induction false} RepairsExactlyTheBroken(ms: seq<Msg>)
    ensures Sanitize(ms) == ms <==> Clean(ms)
  {
    if Clean(ms) {
      CleanIsLeftAlone(ms);
    }
    if Sanitize(ms) == ms {
      SanitizeIsSound(ms);
      forall k | 0 <= k < |ms| ensures Tidy(ms[k]) { UnchangedIsTidy(ms, k); }
    }
  }

  // ---------------------------------------------------------------- what the repair keeps

  /** Some assistant message calls `x` and the run of tool messages after it answers it. */
  ghost predicate Answered(ms: seq<Msg>, x: string) {
    exists i, j :: AnswersInRun(ms, i, j, x)
  }

  /** All messages stay but the tool replies to a call that is unanswered or not made before them. */
  ghost predicate Stays(ms: seq<Msg>, k: nat)
    requires k < |ms|
  {
    ms[k].role == Tool ==>
      Answered(ms, ms[k].replyTo) && exists i :: 0 <= i < k && ms[k].replyTo in CallIds(ms[i])
  }

  ghost predicate Ascending(at: seq<nat>) {
    forall i, j :: 0 <= i < j < |at| ==> at[i] < at[j]
  }

  /** `kept` are the answered ones of `calls`, in order. */
  ghost predicate AnsweredCalls(ms: seq<Msg>, calls: seq<Call>, kept: seq<Call>, at: seq<nat>) {
    && Ascending(at) && |at| == |kept|
    && (forall n :: 0 <= n < |at| ==> at[n] < |calls| && kept[n] == calls[at[n]])
    && forall c :: 0 <= c < |calls| ==> (c in at <==> Answered(ms, calls[c].id))
  }

  /** A kept message has a content and, if an assistant's, its answered calls; nothing else changes. */
  ghost predicate Mended(ms: seq<Msg>, m: Msg, m': Msg) {
    && m'.role == m.role && m'.replyTo == m.replyTo
    && m'.content == Some(if m.content.Some? then m.content.value else "")
    && (m.role != Assistant || m.calls.None? ==> m'.calls == m.calls)
    && (m.role == Assistant && m.calls.Some? ==>
          && m'.calls != Some([])
          && var kept := if m'.calls.Some? then m'.calls.value else [];
             exists at :: AnsweredCalls(ms, m.calls.value, kept, at))
  }

  /** `out` are the messages of `ms` at the places `at`, mended. */
  ghost predicate MendedFrom(ms: seq<Msg>, out: seq<Msg>, at: seq<nat>) {
    && Ascending(at) && |at| == |out|
    && forall n :: 0 <= n < |at| ==> at[n] < |ms| && Mended(ms, ms[at[n]], out[n])
  }

  lemma {:induction false} ValidIffAnswered(ms: seq<Msg>, x: string)
    ensures x in ValidIds(ms) <==> Answered(ms, x)
    ensures x in ValidIds(ms) ==> x != ""
  {
    if x in ValidIds(ms) {
      var i, j := ValidMeansAnswered(ms, x);
    }
    if Answered(ms, x) {
      var i, j :| AnswersInRun(ms, i, j, x);
      AnsweredMeansValid(ms, i, j, x);
    }
  }

  ghost predicate Picked(calls: seq<Call>, valid: set<string>, kept: seq<Call>, at: seq<nat>) {
    && Ascending(at) && |at| == |kept|
    && (forall n :: 0 <= n < |at| ==> at[n] < |calls| && kept[n] == calls[at[n]])
    && forall c :: 0 <= c < |calls| ==> (c in at <==> calls[c].id != "" && calls[c].id in valid)
  }

  lemma {:induction false} PickedThenOne(
    calls: seq<Call>, valid: set<string>, kept: seq<Call>, at: seq<nat>, last: Call)
    requires Picked(calls, valid, kept, at)
    ensures if last.id != "" && last.id in valid then Picked(calls + [last], valid, kept + [last], at + [|calls|])
            else Picked(calls + [last], valid, kept, at)
  {
    assert forall c :: 0 <= c < |calls| ==> (calls + [last])[c] == calls[c];
    assert |calls| !in at;
  }

  lemma {:induction false} KeptCalls(calls: seq<Call>, valid: set<string>) returns (at: seq<nat>)
    ensures Picked(calls, valid, KeepCalls(calls, valid), at)
  {
    if calls == [] {
      at := [];
    } else {
      var front, last := calls[..|calls| - 1], calls[|calls| - 1];
      at := KeptCalls(front, valid);
      PickedThenOne(front, valid, KeepCalls(front, valid), at, last);
      assert calls == front + [last];
      if last.id != "" && last.id in valid { at := at + [|front|]; }
    }
  }

  lemma {:induction false} FixMends(ms: seq<Msg>, m: Msg)
    ensures Mended(ms, m, Fix(m, ValidIds(ms)))
  {
    if m.role == Assistant && m.calls.Some? {
      var calls, valid := m.calls.value, ValidIds(ms);
      var at := KeptCalls(calls, valid);
      forall c | 0 <= c < |calls| ensures c in at <==> Answered(ms, calls[c].id) {
        ValidIffAnswered(ms, calls[c].id);
      }
      assert AnsweredCalls(ms, calls, KeepCalls(calls, valid), at);
    }
  }

  /** The ids of the answered calls made before `k`. */
  ghost predicate SeenBefore(ms: seq<Msg>, k: nat, seen: set<string>) {
    && k <= |ms|
    && forall x :: x in seen <==> x in ValidIds(ms) && exists i :: 0 <= i < k && x in CallIds(ms[i])
  }

  lemma {:induction false} SeesOneMore(ms: seq<Msg>, k: nat, seen: set<string>)
    requires SeenBefore(ms, k, seen) && k < |ms|
    ensures SeenBefore(ms, k + 1, seen + CallIds(Fix(ms[k], ValidIds(ms))))
  {
    FixTwice(ms[k], ValidIds(ms));
  }

  lemma {:induction false} DroppedIffStaysNot(ms: seq<Msg>, k: nat, seen: set<string>)
    requires SeenBefore(ms, k, seen) && k < |ms|
    ensures var m := Fix(ms[k], ValidIds(ms)); Dropped(m, seen + CallIds(m)) <==> !Stays(ms, k)
  {
    ValidIffAnswered(ms, ms[k].replyTo);
  }

  /** `out` are the messages at the places `at`, as the repair leaves them. */
  ghost predicate FixedFrom(ms: seq<Msg>, valid: set<string>, out: seq<Msg>, at: seq<nat>) {
    && Ascending(at) && |at| == |out|
    && forall n :: 0 <= n < |at| ==> at[n] < |ms| && out[n] == Fix(ms[at[n]], valid)
  }

  lemma {:induction false} FixedThen(ms: seq<Msg>, valid: set<string>, out: seq<Msg>, at: seq<nat>, k: nat)
    requires FixedFrom(ms, valid, out, at) && k < |ms| && forall n :: 0 <= n < |at| ==> k < at[n]
    ensures FixedFrom(ms, valid, [Fix(ms[k], valid)] + out, [k] + at)
  {
  }

  /** `at` are the places from `k` on of the messages that stay. */
  ghost predicate StayingFrom(ms: seq<Msg>, k: nat, at: seq<nat>) {
    forall i :: i in at <==> k <= i < |ms| && Stays(ms, i)
  }

  lemma {:induction false} StayingThen(ms: seq<Msg>, k: nat, at: seq<nat>)
    requires k < |ms| && StayingFrom(ms, k + 1, at)
    ensures forall n :: 0 <= n < |at| ==> k < at[n]
    ensures StayingFrom(ms, k, if Stays(ms, k) then [k] + at else at)
  {
    assert forall n :: 0 <= n < |at| ==> at[n] in at;
    assert forall i :: i in [k] + at <==> i == k || i in at;
  }

  /** The repair of the messages from `k` on. */
  lemma {:induction false} RepairKeeps(ms: seq<Msg>, k: nat, seen: set<string>) returns (at: seq<nat>)
    requires SeenBefore(ms, k, seen)
    ensures FixedFrom(ms, ValidIds(ms), Repair(ms[k..], ValidIds(ms), seen), at)
    ensures StayingFrom(ms, k, at)
    decreases |ms| - k
  {
    if k == |ms| {
      at := [];
    } else {
      var valid := ValidIds(ms);
      var seen' := seen + CallIds(Fix(ms[k], valid));
      SeesOneMore(ms, k, seen);
      at := RepairKeeps(ms, k + 1, seen');
      RepairOne(ms, k, valid, seen);
      DroppedIffStaysNot(ms, k, seen);
      StayingThen(ms, k, at);
      if Stays(ms, k) {
        FixedThen(ms, valid, Repair(ms[k + 1..], valid, seen'), at, k);
        at := [k] + at;
      }
    }
  }

  lemma {:induction false} RepairOne(ms: seq<Msg>, k: nat, valid: set<string>, seen: set<string>)
    requires k < |ms|
    ensures var m := Fix(ms[k], valid);
            var seen' := seen + CallIds(m);
            var rest := Repair(ms[k + 1..], valid, seen');
            Repair(ms[k..], valid, seen) == if Dropped(m, seen') then rest else [m] + rest
  {
    assert ms[k..][1..] == ms[k + 1..];
  }

  /** The repair keeps exactly the messages that stay, in order, each mended and not otherwise changed. */
  lemma {:induction false} SanitizeKeepsExactly(ms: seq<Msg>) returns (at: seq<nat>)
    ensures MendedFrom(ms, Sanitize(ms), at) && StayingFrom(ms, 0, at)
  {
    assert ms[0..] == ms;
    at := RepairKeeps(ms, 0, {});
    forall n | 0 <= n < |at| ensures Mended(ms, ms[at[n]], Sanitize(ms)[n]) { FixMends(ms, ms[at[n]]); }
  }

  // ---------------------------------------------------------------- windowing

  function Pick(ms: seq<Msg>, system: bool): (picked: seq<Msg>) {
    if ms == [] then []
    else
      var rest := Pick(ms[..|ms| - 1], system);
      var last := ms[|ms| - 1];
      if (last.role == System) == system then rest + [last] else rest
  }

  lemma {:induction false} PickHolds(ms: seq<Msg>, system: bool)
    ensures forall m :: m in Pick(ms, system) <==> m in ms && (m.role == System) == system
  {
    if ms != [] {
      PickHolds(ms[..|ms| - 1], system);
      assert ms == ms[..|ms| - 1] + [ms[|ms| - 1]];
    }
  }

  lemma {:induction false} PickSplits(ms: seq<Msg>)
    ensures |Pick(ms, true)| + |Pick(ms, false)| == |ms|
  {
    if ms != [] { PickSplits(ms[..|ms| - 1]); }
  }

  /** `picked` are the messages of one kind, at the places `at`. */
  ghost predicate PickedAt(ms: seq<Msg>, system: bool, picked: seq<Msg>, at: seq<nat>) {
    && Ascending(at) && |at| == |picked|
    && (forall n :: 0 <= n < |at| ==> at[n] < |ms| && picked[n] == ms[at[n]])
    && forall i :: 0 <= i < |ms| ==> (i in at <==> (ms[i].role == System) == system)
  }

  lemma {:induction false} PickOneMore(ms: seq<Msg>, system: bool, picked: seq<Msg>, at: seq<nat>, last: Msg)
    requires PickedAt(ms, system, picked, at)
    ensures if (last.role == System) == system then PickedAt(ms + [last], system, picked + [last], at + [|ms|])
            else PickedAt(ms + [last], system, picked, at)
  {
    assert forall i :: 0 <= i < |ms| ==> (ms + [last])[i] == ms[i];
    assert |ms| !in at;
  }

  /** What is picked are the messages of that kind, each once and in order. */
  lemma {:induction false} PickIsInOrder(ms: seq<Msg>, system: bool) returns (at: seq<nat>)
    ensures PickedAt(ms, system, Pick(ms, system), at)
  {
    if ms == [] {
      at := [];
    } else {
      var front, last := ms[..|ms| - 1], ms[|ms| - 1];
      at := PickIsInOrder(front, system);
      PickOneMore(front, system, Pick(front, system), at, last);
      assert ms == front + [last];
      if (last.role == System) == system { at := at + [|front|]; }
    }
  }

  /** Python's `s[-n:]`, which is everything when `n` is zero. */
  function LastN(s: seq<Msg>, n: int): (t: seq<Msg>)
    ensures n >= 1 ==> |t| <= n
    ensures n >= |s| ==> t == s
  {
    if n >= |s| then s else if n >= 1 then s[|s| - n..] else if -n <= |s| then s[-n..] else []
  }

  method DropLeadingTools(ms: seq<Msg>) returns (rest: seq<Msg>)
    ensures rest == [] || rest[0].role != Tool
    ensures |rest| <= |ms| && rest == ms[|ms| - |rest|..]
    ensures forall i :: 0 <= i < |ms| - |rest| ==> ms[i].role == Tool
  {
    var k := 0;
    while k < |ms| && ms[k].role == Tool
      invariant 0 <= k <= |ms| && forall i :: 0 <= i < k ==> ms[i].role == Tool
    {
      k := k + 1;
    }
    rest := ms[k..];
  }

  /** The position of the first user message among the non-system ones. */
  method FirstUser(ms: seq<Msg>) returns (k: Option<nat>)
    ensures k.Some? ==> IsFirstUser(ms, k.value)
    ensures k.None? ==> forall i :: 0 <= i < |ms| ==> ms[i].role != User
  {
    for i := 0 to |ms|
      invariant forall n :: 0 <= n < i ==> ms[n].role != User
    {
      if ms[i].role == User { return Some(i); }
    }
    k := None;
  }

  method Partition(ms: seq<Msg>) returns (system: seq<Msg>, others: seq<Msg>)
    ensures system == Pick(ms, true) && others == Pick(ms, false)
  {
    system, others := [], [];
    for i := 0 to |ms|
      invariant system == Pick(ms[..i], true) && others == Pick(ms[..i], false)
    {
      assert ms[..i + 1][..i] == ms[..i];
      if ms[i].role == System { system := system + [ms[i]]; } else { others := others + [ms[i]]; }
    }
    assert ms[..|ms|] == ms;
  }

  /** The room that is left after the system messages and the first user message. */
  ghost function TailBudget(ms: seq<Msg>, max: int): int {
    max - |Pick(ms, true)| - (if HasUser(ms) then 1 else 0)
  }

  ghost predicate HasUser(ms: seq<Msg>) {
    exists m :: m in ms && m.role == User
  }

  lemma {:induction false} FirstUserMeansHasUser(ms: seq<Msg>, k: Option<nat>)
    requires k.Some? ==> IsFirstUser(Pick(ms, false), k.value)
    requires k.None? ==> forall i :: 0 <= i < |Pick(ms, false)| ==> Pick(ms, false)[i].role != User
    ensures k.Some? <==> HasUser(ms)
  {
    var others := Pick(ms, false);
    PickHolds(ms, false);
    if k.Some? { assert others[k.value] in others; }
    if HasUser(ms) {
      var m :| m in ms && m.role == User;
      assert m in others;
    }
  }

  /** `m` is the oldest user message of `ms`. */
  ghost predicate OldestUser(ms: seq<Msg>, m: Msg) {
    exists k: nat :: IsFirstUser(ms, k) && ms[k] == m
  }

  ghost predicate IsFirstUser(ms: seq<Msg>, k: nat) {
    k < |ms| && ms[k].role == User && forall i :: 0 <= i < k ==> ms[i].role != User
  }

  lemma {:induction false} OldestIsFirst(ms: seq<Msg>, k: nat, m: Msg)
    requires IsFirstUser(ms, k) && OldestUser(ms, m)
    ensures m == ms[k]
  {
    var j: nat :| IsFirstUser(ms, j) && ms[j] == m;
    assert j == k;
  }

  /** The newest messages that fit, less the tool replies at their front: those from `from` up to `end`. */
  ghost predicate NewestFrom(others: seq<Msg>, budget: nat, from: nat, end: int) {
    var start := if |others| <= budget then 0 else |others| - budget;
    && start <= from <= end <= |others|
    && (forall i :: start <= i < from ==> others[i].role == Tool)
    && (from < end ==> others[from].role != Tool)
  }

  /** The oldest user message lies before the newest messages that fit. */
  ghost predicate FirstUserIsCut(others: seq<Msg>, budget: nat, first: nat) {
    IsFirstUser(others, first) && first < |others| - budget
  }

  ghost predicate PlainTail(others: seq<Msg>, budget: nat, tail: seq<Msg>, from: nat) {
    && NewestFrom(others, budget, from, |others|) && tail == others[from..]
    && forall first: nat :: !FirstUserIsCut(others, budget, first)
  }

  ghost predicate CutTail(others: seq<Msg>, budget: nat, tail: seq<Msg>, from: nat, first: nat) {
    && NewestFrom(others, budget, from, |others| - 1) && FirstUserIsCut(others, budget, first)
    && tail == [others[first]] + others[from..|others| - 1]
  }

  /**
   What is kept of the non-system messages: the newest that fit; but if the oldest user
   message is not among them it is put in front, at the cost of the newest message.
   */
  ghost predicate IsTail(others: seq<Msg>, budget: nat, tail: seq<Msg>) {
    || (exists from: nat :: PlainTail(others, budget, tail, from))
    || (exists from: nat, first: nat :: CutTail(others, budget, tail, from, first))
  }

  /** Dropping tool replies from a piece of a list, seen from the whole list. */
  lemma {:induction false} DroppedFrom(others: seq<Msg>, start: nat, end: nat, rest: seq<Msg>)
    requires start <= end <= |others| && |rest| <= end - start
    requires rest == others[start..end][end - start - |rest|..] && (rest == [] || rest[0].role != Tool)
    requires forall i :: 0 <= i < end - start - |rest| ==> others[start..end][i].role == Tool
    ensures var from := end - |rest|;
            && rest == others[from..end] && (from < end ==> others[from].role != Tool)
            && forall i :: start <= i < from ==> others[i].role == Tool
  {
    forall i | start <= i < end - |rest| ensures others[i].role == Tool {
      assert others[start..end][i - start] == others[i];
    }
  }

  method DropOrphans(piece: seq<Msg>, ghost others: seq<Msg>, ghost start: nat, ghost end: nat) returns (rest: seq<Msg>)
    requires start <= end <= |others| && piece == others[start..end]
    ensures |rest| <= end - start && rest == others[end - |rest|..end]
    ensures end - |rest| < end ==> others[end - |rest|].role != Tool
    ensures forall i :: start <= i < end - |rest| ==> others[i].role == Tool
  {
    rest := DropLeadingTools(piece);
    DroppedFrom(others, start, end, rest);
  }

  lemma {:induction false} LastNIsSlice(s: seq<Msg>, n: nat)
    requires n >= 1
    ensures var t := LastN(s, n);
            var start := |s| - |t|;
            && 0 <= start && t == s[start..|s|] && (start == 0 <==> |s| <= n)
            && (start > 0 ==> |t| == n && t[..n - 1] == s[start..|s| - 1])
  {
  }

  method WindowTail(others: seq<Msg>, budget: nat, firstUser: Option<nat>) returns (tail: seq<Msg>)
    requires budget >= 1
    requires firstUser.Some? ==> IsFirstUser(others, firstUser.value)
    requires firstUser.None? ==> forall i :: 0 <= i < |others| ==> others[i].role != User
    ensures IsTail(others, budget, tail)
  {
    tail := LastN(others, budget);
    var start := |others| - |tail|;
    LastNIsSlice(others, budget);
    if firstUser.Some? && firstUser.value < start {
      var rest := DropOrphans(tail[..budget - 1], others, start, |others| - 1);
      tail := [others[firstUser.value]] + rest;
      assert CutTail(others, budget, tail, |others| - 1 - |rest|, firstUser.value);
    } else {
      tail := DropOrphans(tail, others, start, |others|);
      assert PlainTail(others, budget, tail, |others| - |tail|);
    }
  }

  lemma {:induction false} PlainTailIsSound(others: seq<Msg>, budget: nat, tail: seq<Msg>, from: nat)
    requires PlainTail(others, budget, tail, from)
    ensures |tail| <= budget && (tail != [] ==> tail[0].role != Tool)
    ensures forall m :: OldestUser(others, m) ==> m in tail
  {
    forall m | OldestUser(others, m) ensures m in tail {
      var k: nat :| IsFirstUser(others, k) && others[k] == m;
      assert !FirstUserIsCut(others, budget, k);
      assert k >= from;
      assert tail[k - from] == m;
    }
  }

  lemma {:induction false} CutTailIsSound(others: seq<Msg>, budget: nat, tail: seq<Msg>, from: nat, first: nat)
    requires CutTail(others, budget, tail, from, first)
    ensures |tail| <= budget && tail[0].role != Tool
    ensures forall m :: OldestUser(others, m) ==> m in tail
  {
    forall m | OldestUser(others, m) ensures m in tail {
      OldestIsFirst(others, first, m);
      assert tail[0] == m;
    }
  }

  /** What keeping a tail means: it fits, it starts with no tool reply, it has the oldest user message. */
  lemma {:induction false} TailIsSound(others: seq<Msg>, budget: nat, tail: seq<Msg>)
    requires IsTail(others, budget, tail)
    ensures |tail| <= budget && (tail != [] ==> tail[0].role != Tool)
    ensures forall m :: OldestUser(others, m) ==> m in tail
  {
    if from: nat :| PlainTail(others, budget, tail, from) {
      PlainTailIsSound(others, budget, tail, from);
    } else {
      var from: nat, first: nat :| CutTail(others, budget, tail, from, first);
      CutTailIsSound(others, budget, tail, from, first);
    }
  }

  /** All system messages in order, then the tail of the others. */
  ghost predicate IsWindow(ms: seq<Msg>, max: int, out: seq<Msg>)
    requires TailBudget(ms, max) > 0
  {
    var system := Pick(ms, true);
    system <= out && IsTail(Pick(ms, false), TailBudget(ms, max), out[|system|..])
  }

  lemma {:induction false} TailFits(ms: seq<Msg>, max: int, tail: seq<Msg>)
    requires TailBudget(ms, max) > 0 && IsTail(Pick(ms, false), TailBudget(ms, max), tail)
    ensures |Pick(ms, true) + tail| <= max && IsWindow(ms, max, Pick(ms, true) + tail)
  {
    TailIsSound(Pick(ms, false), TailBudget(ms, max), tail);
    assert (Pick(ms, true) + tail)[|Pick(ms, true)|..] == tail;
  }

  /**
   The windowed history. Without room for a tail it is a plain cut, and a window of size
   zero cuts nothing at all.
   */
  method WindowMessages(ms: seq<Msg>, max: int) returns (out: seq<Msg>)
    ensures |ms| <= max ==> out == ms
    ensures max >= 1 ==> |out| <= max
    ensures max == 0 ==> |out| == |ms|
    ensures |ms| > max && TailBudget(ms, max) <= 0 && ms != [] ==>
              out == LastN(Pick(ms, true) + Pick(ms, false), max)
    ensures |ms| > max && TailBudget(ms, max) > 0 ==> IsWindow(ms, max, out)
  {
    PickSplits(ms);
    if ms == [] || |ms| <= max { return ms; }
    var system, others := Partition(ms);
    var firstUser := FirstUser(others);
    FirstUserMeansHasUser(ms, firstUser);
    var budget := max - |system| - (if firstUser.Some? then 1 else 0);
    if budget <= 0 {
      return LastN(system + others, max);
    }
    var tail := WindowTail(others, budget, firstUser);
    TailFits(ms, max, tail);
    out := LastN(system + tail, max);
  }

  /**
   With room for a tail, the window keeps every system message in order and the oldest user
   message, and its first other message is not a tool reply.
   */
  lemma {:induction false} WindowIsSound(ms: seq<Msg>, max: int, out: seq<Msg>)
    requires TailBudget(ms, max) > 0 && IsWindow(ms, max, out)
    ensures Pick(out, true) == Pick(ms, true)
    ensures var n := |Pick(ms, true)|; n < |out| ==> out[n].role != Tool && out[n].role != System
    ensures forall m :: OldestUser(Pick(ms, false), m) ==> m in out
  {
    var system, others := Pick(ms, true), Pick(ms, false);
    var tail := out[|system|..];
    assert out == system + tail;
    TailIsSound(others, TailBudget(ms, max), tail);
    PickSystem(ms);
    TailHasNoSystem(others, TailBudget(ms, max), tail);
    PickAppendOthers(system, tail);
  }

  lemma {:induction false} TailHasNoSystem(others: seq<Msg>, budget: nat, tail: seq<Msg>)
    requires IsTail(others, budget, tail) && forall i :: 0 <= i < |others| ==> others[i].role != System
    ensures forall i :: 0 <= i < |tail| ==> tail[i].role != System
  {
    if from: nat :| PlainTail(others, budget, tail, from) {
    } else {
      var from: nat, first: nat :| CutTail(others, budget, tail, from, first);
    }
  }

  /** Picking splits by role, and picking again changes nothing. */
  lemma {:induction false} PickSystem(ms: seq<Msg>)
    ensures Pick(Pick(ms, true), true) == Pick(ms, true)
    ensures forall i :: 0 <= i < |Pick(ms, false)| ==> Pick(ms, false)[i].role != System
  {
    var system, others := Pick(ms, true), Pick(ms, false);
    PickHolds(ms, true);
    PickHolds(ms, false);
    forall i | 0 <= i < |system| ensures system[i].role == System { assert system[i] in system; }
    forall i | 0 <= i < |others| ensures others[i].role != System { assert others[i] in others; }
    PickAll(system);
  }

  lemma {:induction false} PickAll(system: seq<Msg>)
    requires forall i :: 0 <= i < |system| ==> system[i].role == System
    ensures Pick(system, true) == system
  {
    if system != [] {
      PickAll(system[..|system| - 1]);
      assert system == system[..|system| - 1] + [system[|system| - 1]];
    }
  }

  lemma {:induction false} PickAppendOthers(system: seq<Msg>, tail: seq<Msg>)
    requires forall i :: 0 <= i < |tail| ==> tail[i].role != System
    ensures Pick(system + tail, true) == Pick(system, true)
  {
    if tail == [] {
      assert system + tail == system;
    } else {
      var n := |tail| - 1;
      PickAppendOthers(system, tail[..n]);
      assert (system + tail)[..|system| + n] == system + tail[..n];
    }
  }

  // ---------------------------------------------------------------- what becomes of the newest message

  /**
   What a caller can check before windowing: no user message lies before the newest messages
   that fit, and these are not tool replies only.
   */
  ghost predicate NewestFits(others: seq<Msg>, budget: nat) {
    && (forall i :: 0 <= i < |others| - budget ==> others[i].role != User)
    && (exists j :: 0 <= j < |others| && |others| - budget <= j && others[j].role != Tool)
  }

  lemma {:induction false} CutMeansUserBefore(others: seq<Msg>, budget: nat)
    ensures (exists first: nat :: FirstUserIsCut(others, budget, first))
            <==> exists i :: 0 <= i < |others| - budget && others[i].role == User
  {
    if i :| 0 <= i < |others| - budget && others[i].role == User {
      var first := FirstUserUpTo(others, i);
      assert FirstUserIsCut(others, budget, first);
    }
  }

  lemma {:induction false} FirstUserUpTo(ms: seq<Msg>, i: nat) returns (k: nat)
    requires i < |ms| && ms[i].role == User
    ensures k <= i && IsFirstUser(ms, k)
  {
    k := i;
    if j :| 0 <= j < i && ms[j].role == User {
      k := FirstUserUpTo(ms, j);
    }
  }

  lemma {:induction false} PlainTailNewest(others: seq<Msg>, budget: nat, tail: seq<Msg>, from: nat)
    requires PlainTail(others, budget, tail, from) && budget >= 1
    ensures tail != [] <==> exists j :: 0 <= j < |others| && |others| - budget <= j && others[j].role != Tool
    ensures tail != [] ==> tail[|tail| - 1] == others[|others| - 1]
  {
    if tail != [] {
      assert others[from].role != Tool;
    }
  }

  /**
   With room for a tail, the newest non-system message ends the tail if no user message is
   cut off and some message that fits is no tool reply. Otherwise the tail is made of older
   messages only; so a newest message unlike all older ones is kept if and only if it fits.
   */
  lemma {:induction false} TailKeepsNewestIff(others: seq<Msg>, budget: nat, tail: seq<Msg>)
    requires IsTail(others, budget, tail) && budget >= 1 && others != []
    ensures var n := |others| - 1;
            && (NewestFits(others, budget) ==> tail != [] && tail[|tail| - 1] == others[n])
            && (!NewestFits(others, budget) ==> forall m :: m in tail ==> m in others[..n])
            && (others[n] !in others[..n] ==> (others[n] in tail <==> NewestFits(others, budget)))
  {
    TailEndsWithNewestIff(others, budget, tail);
  }

  lemma {:induction false} TailEndsWithNewestIff(others: seq<Msg>, budget: nat, tail: seq<Msg>)
    requires IsTail(others, budget, tail) && budget >= 1 && others != []
    ensures if NewestFits(others, budget) then tail != [] && tail[|tail| - 1] == others[|others| - 1]
            else forall m :: m in tail ==> m in others[..|others| - 1]
  {
    CutMeansUserBefore(others, budget);
    if from: nat :| PlainTail(others, budget, tail, from) {
      PlainTailNewest(others, budget, tail, from);
    } else {
      var from: nat, first: nat :| CutTail(others, budget, tail, from, first);
      CutTailIsOld(others, budget, tail, from, first);
    }
  }

  lemma {:induction false} CutTailIsOld(others: seq<Msg>, budget: nat, tail: seq<Msg>, from: nat, first: nat)
    requires CutTail(others, budget, tail, from, first) && budget >= 1
    ensures forall m :: m in tail ==> m in others[..|others| - 1]
  {
    var n := |others| - 1;
    forall m | m in tail ensures m in others[..n] {
      var i :| 0 <= i < |tail| && tail[i] == m;
      if i == 0 {
        assert others[..n][first] == m;
      } else {
        assert others[..n][from + i - 1] == m;
      }
    }
  }

  /** The same for the whole window; without room for a tail the newest message is always kept. */
  lemma {:induction false} WindowKeepsNewestIff(ms: seq<Msg>, max: int, out: seq<Msg>)
    requires TailBudget(ms, max) > 0 && IsWindow(ms, max, out) && Pick(ms, false) != []
    ensures var others := Pick(ms, false);
            var n := |others| - 1;
            && (NewestFits(others, TailBudget(ms, max)) ==> out != [] && out[|out| - 1] == others[n])
            && (!NewestFits(others, TailBudget(ms, max)) ==>
                  forall m :: m in out ==> m.role == System || m in others[..n])
            && (others[n] !in others[..n] ==> (others[n] in out <==> NewestFits(others, TailBudget(ms, max))))
  {
    var system, others := Pick(ms, true), Pick(ms, false);
    var tail := out[|system|..];
    assert out == system + tail;
    TailKeepsNewestIff(others, TailBudget(ms, max), tail);
    PickHolds(ms, true);
    PickHolds(ms, false);
    assert others[|others| - 1] in others;
  }

  lemma {:induction false} PlainCutKeepsNewest(system: seq<Msg>, others: seq<Msg>, max: int)
    requires max >= 1 && others != []
    ensures var out := LastN(system + others, max); out != [] && out[|out| - 1] == others[|others| - 1]
  {
  }

  /** A history without system messages. */
  lemma {:induction false} PickNoSystem(ms: seq<Msg>)
    requires forall i :: 0 <= i < |ms| ==> ms[i].role != System
    ensures Pick(ms, false) == ms && Pick(ms, true) == []
  {
    if ms != [] {
      PickNoSystem(ms[..|ms| - 1]);
      assert ms == ms[..|ms| - 1] + [ms[|ms| - 1]];
    }
  }

  lemma {:induction false} FirstQuestionStays(ms: seq<Msg>, out: seq<Msg>)
    requires |ms| > 2 && ms[0].role == User && forall i :: 0 <= i < |ms| ==> ms[i].role != System
    ensures TailBudget(ms, 2) == 1
    ensures IsWindow(ms, 2, out) ==> out == [ms[0]]
  {
    PickNoSystem(ms);
    assert ms[0] in ms;
    if IsWindow(ms, 2, out) {
      assert out[0..] == out;
      TailOfOne(ms, out);
    }
  }

  /** One way to lose it: the first question is put back in front, at the cost of the latest message. */
  lemma {:induction false} PrependingDropsNewest(u: Msg, a: Msg, v: Msg, out: seq<Msg>)
    requires u.role == User && a.role == Assistant && v.role == User
    ensures TailBudget([u, a, v], 2) == 1
    ensures IsWindow([u, a, v], 2, out) ==> out == [u]
  {
    FirstQuestionStays([u, a, v], out);
  }

  lemma {:induction false} TailOfOne(ms: seq<Msg>, tail: seq<Msg>)
    requires |ms| > 1 && ms[0].role == User && IsTail(ms, 1, tail)
    ensures tail == [ms[0]]
  {
    assert FirstUserIsCut(ms, 1, 0);
    var from: nat, first: nat :| CutTail(ms, 1, tail, from, first);
    assert first == 0 && from == |ms| - 1;
    assert ms[from..from] == [];
  }

  /** The other: when only tool replies fit, nothing is kept at all. */
  lemma {:induction false} ToolRepliesEmptyTheWindow(a: Msg, t: Msg, u: Msg, out: seq<Msg>)
    requires a.role == Assistant && t.role == Tool && u.role == Tool
    ensures TailBudget([a, t, u], 2) == 2
    ensures IsWindow([a, t, u], 2, out) ==> out == []
  {
    var ms := [a, t, u];
    PickNoSystem(ms);
    assert forall i :: 0 <= i < |ms| ==> ms[i].role != User;
    if IsWindow(ms, 2, out) {
      assert out[0..] == out;
      var from: nat :| PlainTail(ms, 2, out, from);
      assert ms[1].role == Tool && ms[2].role == Tool;
    }
  }
}
