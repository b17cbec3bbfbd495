/**
 The agent graph: entry, model, gate, verification and final nodes, run over many
 checkpointed turns. The model is an arbitrary chooser of tool calls; tools and the
 verifier answer arbitrarily.
 */
module AgentGraph {
  import opened Common
  import opened Journal

  /** `id` is the model's call id, `displayId` the one that approvals refer to. */
  datatype ToolCall = ToolCall(id: string, displayId: string, loadsToolset: bool)

  /** One recorded mutation, as kept in the checkpoint. */
  datatype Op = Op(opId: string, unverified: bool)

  datatype AgentState = AgentState(
    pending: seq<ToolCall>, ops: seq<Op>, required: bool, blocked: bool,
    awaiting: bool, error: bool, decisions: map<string, bool>, replies: seq<string>)

  ghost predicate SomeRequires(ops: seq<Op>) {
    exists i :: 0 <= i < |ops| && ops[i].unverified
  }

  predicate AnyRequires(ops: seq<Op>)
    ensures AnyRequires(ops) <==> SomeRequires(ops)
  {
    if ops == [] then false
    else
      assert ops[0].unverified ==> SomeRequires(ops);
      assert SomeRequires(ops[1..]) ==> SomeRequires(ops) by {
        if i :| 0 <= i < |ops[1..]| && ops[1..][i].unverified { assert ops[i + 1].unverified; }
      }
      assert SomeRequires(ops) && !ops[0].unverified ==> SomeRequires(ops[1..]) by {
        if i :| 0 <= i < |ops| && ops[i].unverified && !ops[0].unverified { assert ops[1..][i - 1].unverified; }
      }
      ops[0].unverified || AnyRequires(ops[1..])
  }

  /** The inductive invariant: an operation that requires verification keeps the flag set. */
  ghost predicate FlagInv(s: AgentState) {
    SomeRequires(s.ops) ==> s.required
  }

  // ---------------------------------------------------------------- gate node

  /** What the executor and its surroundings answer for the k-th pending call. */
  datatype Env = Env(refuses: nat -> bool, needsApproval: nat -> bool, blocks: nat -> seq<Op>)

  datatype Disposition = Answer | Suspend | Run

  /** Load-toolset calls, refusals and denials are answered without running anything. */
  function Dispose(c: ToolCall, k: nat, env: Env, decisions: map<string, bool>): (d: Disposition)
    ensures d == Run <==> !c.loadsToolset && !env.refuses(k)
                          && (env.needsApproval(k) ==> c.displayId in decisions && decisions[c.displayId])
    ensures d == Suspend <==> !c.loadsToolset && !env.refuses(k) && env.needsApproval(k) && c.displayId !in decisions
  {
    if c.loadsToolset || env.refuses(k) then Answer
    else if !env.needsApproval(k) then Run
    else if c.displayId !in decisions then Suspend
    else if decisions[c.displayId] then Run
    else Answer
  }

  function Without(ops: seq<Op>, opId: string): (rest: seq<Op>)
    ensures forall op :: op in rest <==> op in ops && op.opId != opId
  {
    if ops == [] then []
    else if ops[0].opId == opId then Without(ops[1..], opId)
    else [ops[0]] + Without(ops[1..], opId)
  }

  /** Mutation blocks replace the operation they name and raise the flag. */
  function Record(ops: seq<Op>, blocks: seq<Op>): (ops': seq<Op>)
    decreases |blocks|
  {
    if blocks == [] then ops
    else Record(Without(ops, blocks[0].opId) + [blocks[0]], blocks[1..])
  }

  lemma {:induction false} RecordRequires(ops: seq<Op>, blocks: seq<Op>)
    ensures SomeRequires(Record(ops, blocks)) ==> SomeRequires(ops) || SomeRequires(blocks)
    decreases |blocks|
  {
    if blocks != [] {
      var next := Without(ops, blocks[0].opId) + [blocks[0]];
      RecordRequires(next, blocks[1..]);
      if i :| 0 <= i < |next| && next[i].unverified {
        assert next[i] in next;
        if next[i] != blocks[0] {
          assert next[i] in ops;
          var j :| 0 <= j < |ops| && ops[j] == next[i];
        } else {
          assert blocks[0].unverified;
        }
      }
      if i :| 0 <= i < |blocks[1..]| && blocks[1..][i].unverified {
        assert blocks[i + 1].unverified;
      }
    }
  }

  /** The entries of a list that carry one operation id. */
  function Named(ops: seq<Op>, opId: string): (named: seq<Op>) {
    if ops == [] then []
    else
      var rest := Named(ops[..|ops| - 1], opId);
      if ops[|ops| - 1].opId == opId then rest + [ops[|ops| - 1]] else rest
  }

  /** The newest of the new entries, or else the old ones. */
  function Latest(new_: seq<Op>, old_: seq<Op>): (ops: seq<Op>) {
    if new_ == [] then old_ else [new_[|new_| - 1]]
  }

  lemma {:induction false} NamedAppend(a: seq<Op>, b: seq<Op>, opId: string)
    ensures Named(a + b, opId) == Named(a, opId) + Named(b, opId)
  {
    if b == [] {
      assert a + b == a;
    } else {
      var n := |b| - 1;
      NamedAppend(a, b[..n], opId);
      assert (a + b)[..|a| + n] == a + b[..n];
    }
  }

  lemma {:induction false} NamedOne(op: Op, opId: string)
    ensures Named([op], opId) == if op.opId == opId then [op] else []
  {
    assert [op][..0] == [];
  }

  lemma {:induction false} WithoutNamed(ops: seq<Op>, gone: string, opId: string)
    ensures Named(Without(ops, gone), opId) == if opId == gone then [] else Named(ops, opId)
  {
    if ops != [] {
      var rest := Without(ops[1..], gone);
      WithoutNamed(ops[1..], gone, opId);
      assert ops == [ops[0]] + ops[1..];
      NamedAppend([ops[0]], ops[1..], opId);
      NamedOne(ops[0], opId);
      if ops[0].opId != gone { NamedAppend([ops[0]], rest, opId); }
    }
  }

  lemma {:induction false} RecordOneNamed(ops: seq<Op>, b: Op, opId: string)
    ensures Named(Without(ops, b.opId) + [b], opId) == Latest(Named([b], opId), Named(ops, opId))
  {
    NamedAppend(Without(ops, b.opId), [b], opId);
    WithoutNamed(ops, b.opId, opId);
    NamedOne(b, opId);
  }

  lemma {:induction false} LatestTwice(c: seq<Op>, b: seq<Op>, a: seq<Op>)
    ensures Latest(c, Latest(b, a)) == Latest(b + c, a)
  {
  }

  /** What is recorded for an operation id: the newest block that names it, or what was recorded before. */
  lemma {:induction false} RecordNamed(ops: seq<Op>, blocks: seq<Op>, opId: string)
    ensures Named(Record(ops, blocks), opId) == Latest(Named(blocks, opId), Named(ops, opId))
    decreases |blocks|
  {
    if blocks != [] {
      var b, rest := blocks[0], blocks[1..];
      RecordNamed(Without(ops, b.opId) + [b], rest, opId);
      RecordOneNamed(ops, b, opId);
      assert blocks == [b] + rest;
      NamedAppend([b], rest, opId);
      LatestTwice(Named(rest, opId), Named([b], opId), Named(ops, opId));
    }
  }

  /** The blocks of the calls from `k` up to `n` that ran, in order. */
  function BlocksOf(env: Env, ran: set<nat>, k: nat, n: nat): (blocks: seq<Op>)
    decreases n - k
  {
    if k >= n then [] else (if k in ran then env.blocks(k) else []) + BlocksOf(env, ran, k + 1, n)
  }

  lemma {:induction false} BlocksDepend(env: Env, ran: set<nat>, ran': set<nat>, k: nat, n: nat)
    requires forall i :: k <= i < n ==> (i in ran <==> i in ran')
    ensures BlocksOf(env, ran, k, n) == BlocksOf(env, ran', k, n)
    decreases n - k
  {
    if k < n { BlocksDepend(env, ran, ran', k + 1, n); }
  }

  lemma {:induction false} SomeRequiresAppend(a: seq<Op>, b: seq<Op>)
    ensures SomeRequires(a + b) <==> SomeRequires(a) || SomeRequires(b)
  {
    if i :| 0 <= i < |a| && a[i].unverified { assert (a + b)[i].unverified; }
    if i :| 0 <= i < |b| && b[i].unverified { assert (a + b)[|a| + i].unverified; }
  }

  /** What the gate's loop has done when it stops before call `stop`. */
  datatype GateRun = GateRun(stop: nat, ops: seq<Op>, required: bool, ran: set<nat>)

  function GateFrom(s: AgentState, env: Env, k: nat, ops: seq<Op>, required: bool): (g: GateRun)
    requires k <= |s.pending|
    ensures k <= g.stop <= |s.pending|
    ensures g.stop < |s.pending| ==> Dispose(s.pending[g.stop], g.stop, env, s.decisions) == Suspend
    ensures forall i :: k <= i < g.stop ==> Dispose(s.pending[i], i, env, s.decisions) != Suspend
    ensures forall i :: i in g.ran <==> k <= i < g.stop && Dispose(s.pending[i], i, env, s.decisions) == Run
    decreases |s.pending| - k
  {
    if k == |s.pending| then GateRun(k, ops, required, {})
    else match Dispose(s.pending[k], k, env, s.decisions)
      case Suspend => GateRun(k, ops, required, {})
      case Answer => GateFrom(s, env, k + 1, ops, required)
      case Run =>
        var blocks := env.blocks(k);
        var g := GateFrom(s, env, k + 1, Record(ops, blocks), required || AnyRequires(blocks));
        g.(ran := g.ran + {k})
  }

  /** What the gate records, in terms of the blocks of the calls that it ran. */
  ghost predicate Records(env: Env, k: nat, ops: seq<Op>, required: bool, g: GateRun) {
    var blocks := BlocksOf(env, g.ran, k, g.stop);
    && (forall id :: Named(g.ops, id) == Latest(Named(blocks, id), Named(ops, id)))
    && (g.required <==> required || SomeRequires(blocks))
  }

  lemma {:induction false} GateRecords(s: AgentState, env: Env, k: nat, ops: seq<Op>, required: bool)
    requires k <= |s.pending|
    ensures Records(env, k, ops, required, GateFrom(s, env, k, ops, required))
    decreases |s.pending| - k
  {
    var g := GateFrom(s, env, k, ops, required);
    if k < |s.pending| && Dispose(s.pending[k], k, env, s.decisions) == Answer {
      GateRecords(s, env, k + 1, ops, required);
      assert [] + BlocksOf(env, g.ran, k + 1, g.stop) == BlocksOf(env, g.ran, k + 1, g.stop);
      assert BlocksOf(env, g.ran, k, g.stop) == BlocksOf(env, g.ran, k + 1, g.stop);
    } else if k < |s.pending| && Dispose(s.pending[k], k, env, s.decisions) == Run {
      var blocks := env.blocks(k);
      var ops' := Record(ops, blocks);
      var rest := GateFrom(s, env, k + 1, ops', required || AnyRequires(blocks));
      GateRecords(s, env, k + 1, ops', required || AnyRequires(blocks));
      BlocksDepend(env, g.ran, rest.ran, k + 1, g.stop);
      var later := BlocksOf(env, rest.ran, k + 1, g.stop);
      assert BlocksOf(env, g.ran, k, g.stop) == blocks + later;
      SomeRequiresAppend(blocks, later);
      forall id ensures Named(g.ops, id) == Latest(Named(blocks + later, id), Named(ops, id)) {
        RecordNamed(ops, blocks, id);
        NamedAppend(blocks, later, id);
        LatestTwice(Named(later, id), Named(blocks, id), Named(ops, id));
      }
    }
  }

  function Ids(calls: seq<ToolCall>): (ids: seq<string>)
    ensures |ids| == |calls| && forall i :: 0 <= i < |ids| ==> ids[i] == calls[i].id
  {
    seq(|calls|, i requires 0 <= i < |calls| => calls[i].id)
  }

  function Gate(s: AgentState, env: Env): (s': AgentState)
  {
    if s.pending == [] then s else
    var g := GateFrom(s, env, 0, s.ops, AnyRequires(s.ops));
    s.(pending := s.pending[g.stop..], replies := s.replies + Ids(s.pending[..g.stop]),
       awaiting := g.stop < |s.pending|, ops := g.ops, required := g.required, blocked := false)
  }

  /** The indices of the pending calls that one gate invocation runs. */
  function GateRuns(s: AgentState, env: Env): (ran: set<nat>)
  {
    GateFrom(s, env, 0, s.ops, AnyRequires(s.ops)).ran
  }

  /** The outer `except` of the gate: pending calls are dropped, recorded operations stay. */
  function GateError(s: AgentState): (s': AgentState) {
    s.(pending := [], error := true)
  }

  lemma {:induction false} GateFromKeepsFlag(s: AgentState, env: Env, k: nat, ops: seq<Op>, required: bool)
    requires k <= |s.pending| && (SomeRequires(ops) ==> required)
    ensures var g := GateFrom(s, env, k, ops, required); SomeRequires(g.ops) ==> g.required
    decreases |s.pending| - k
  {
    if k < |s.pending| {
      match Dispose(s.pending[k], k, env, s.decisions)
      case Suspend =>
      case Answer => GateFromKeepsFlag(s, env, k + 1, ops, required);
      case Run =>
        RecordRequires(ops, env.blocks(k));
        GateFromKeepsFlag(s, env, k + 1, Record(ops, env.blocks(k)), required || AnyRequires(env.blocks(k)));
    }
  }

  /** A whole run of the loop, given what ran so far and what the rest does. */
  predicate Joins(whole: GateRun, ran: set<nat>, rest: GateRun) {
    whole == rest.(ran := ran + rest.ran)
  }

  lemma {:induction false} RunJoins(
    s: AgentState, env: Env, k: nat, ops: seq<Op>, required: bool, whole: GateRun, ran: set<nat>)
    requires k < |s.pending| && Dispose(s.pending[k], k, env, s.decisions) == Run
    requires Joins(whole, ran, GateFrom(s, env, k, ops, required))
    ensures Joins(whole, ran + {k},
                  GateFrom(s, env, k + 1, Record(ops, env.blocks(k)), required || AnyRequires(env.blocks(k))))
  {
    var rest := GateFrom(s, env, k + 1, Record(ops, env.blocks(k)), required || AnyRequires(env.blocks(k)));
    assert ran + (rest.ran + {k}) == (ran + {k}) + rest.ran;
  }

  /** The gate's loop over the pending calls, which may stop at any of them. */
  method RunPending(s: AgentState, env: Env) returns (g: GateRun)
    ensures g == GateFrom(s, env, 0, s.ops, AnyRequires(s.ops))
    ensures g.stop <= |s.pending|
    ensures forall i: nat :: i in g.ran <==> i < g.stop && Approved(s, env, i) && Runnable(s, env, i)
    ensures forall i :: 0 <= i < g.stop ==> !Undecided(s, env, i)
    ensures g.stop < |s.pending| ==> Undecided(s, env, g.stop)
    ensures var blocks := BlocksOf(env, g.ran, 0, g.stop);
            && (forall id :: Named(g.ops, id) == Latest(Named(blocks, id), Named(s.ops, id)))
            && (g.required <==> SomeRequires(s.ops) || SomeRequires(blocks))
  {
    GateRecords(s, env, 0, s.ops, AnyRequires(s.ops));
    var ops, required := s.ops, AnyRequires(s.ops);
    var ran: set<nat> := {};
    ghost var whole := GateFrom(s, env, 0, ops, required);
    var k: nat := 0;
    while k < |s.pending|
      invariant k <= |s.pending|
      invariant Joins(whole, ran, GateFrom(s, env, k, ops, required))
    {
      var d := Dispose(s.pending[k], k, env, s.decisions);
      if d == Suspend {
        return GateRun(k, ops, required, ran);
      }
      if d == Run {
        RunJoins(s, env, k, ops, required, whole, ran);
        var blocks := env.blocks(k);
        required := required || AnyRequires(blocks);
        ops := Record(ops, blocks);
        ran := ran + {k};
      }
      k := k + 1;
    }
    g := GateRun(k, ops, required, ran);
  }

  /**
   The gate node. It runs every runnable call up to the first undecided one, and nothing
   else; it waits for approval exactly if there is such a one; what it records for an
   operation id is the newest block of these calls that names it, or what was recorded; and
   the flag says whether any of these, old or new, requires verification.
   */
  method GateNode(s: AgentState, env: Env) returns (s': AgentState, ran: set<nat>)
    ensures s' == Gate(s, env)
    ensures s.pending == [] ==> s' == s && ran == {}
    ensures s.pending != [] ==>
              var stop := |s.pending| - |s'.pending|;
              var blocks := BlocksOf(env, ran, 0, stop);
              && ran == GateRuns(s, env) && FlagInv(s')
              && stop >= 0 && s'.pending == s.pending[stop..] && s'.replies == s.replies + Ids(s.pending[..stop])
              && (forall i: nat :: i in ran <==> i < stop && Approved(s, env, i) && Runnable(s, env, i))
              && (s'.awaiting <==> s'.pending != []) && (s'.awaiting ==> Undecided(s, env, stop))
              && (forall id :: Named(s'.ops, id) == Latest(Named(blocks, id), Named(s.ops, id)))
              && (s'.required <==> SomeRequires(s.ops) || SomeRequires(blocks))
  {
    if s.pending == [] { return s, {}; }
    GateFromKeepsFlag(s, env, 0, s.ops, AnyRequires(s.ops));
    var g := RunPending(s, env);
    s' := s.(pending := s.pending[g.stop..], replies := s.replies + Ids(s.pending[..g.stop]),
             awaiting := g.stop < |s.pending|, ops := g.ops, required := g.required, blocked := false);
    ran := g.ran;
  }

  /** The i-th pending call is one for the executor, and is not refused. */
  predicate Runnable(s: AgentState, env: Env, i: nat) {
    i < |s.pending| && !s.pending[i].loadsToolset && !env.refuses(i)
  }

  /** The i-th pending call needs an approval that nobody has decided on. */
  predicate Undecided(s: AgentState, env: Env, i: nat) {
    Runnable(s, env, i) && env.needsApproval(i) && s.pending[i].displayId !in s.decisions
  }

  /** The i-th pending call did not need approval, or has a positive decision for its id. */
  predicate Approved(s: AgentState, env: Env, i: nat) {
    i < |s.pending| &&
    (env.needsApproval(i) ==> s.pending[i].displayId in s.decisions && s.decisions[s.pending[i].displayId])
  }

  // ---------------------------------------------------------------- gate conservation

  /** Resuming: a new turn supplies decisions, the entry node clears the suspension. */
  function Resume(s: AgentState, decisions: map<string, bool>): (s': AgentState) {
    s.(decisions := decisions, awaiting := false, error := false, blocked := false)
  }

  /** A chain of suspensions and resumes of one batch. */
  ghost predicate GateChain(chain: seq<AgentState>, decisions: seq<map<string, bool>>, envs: seq<Env>) {
    && |chain| == |decisions| + 1 == |envs| + 1
    && forall i :: 0 <= i < |envs| ==> chain[i + 1] == Gate(Resume(chain[i], decisions[i]), envs[i])
  }

  /** Answering `stop` more calls of a batch of which `done` were answered. */
  lemma {:induction false} IdsSplit(batch: seq<ToolCall>, done: nat, stop: nat)
    requires done + stop <= |batch|
    ensures batch[done..][stop..] == batch[done + stop..]
    ensures Ids(batch[..done + stop]) == Ids(batch[..done]) + Ids(batch[done..][..stop])
  {
    assert batch[..done + stop] == batch[..done] + batch[done..][..stop];
  }

  /** What is still pending is the end of the batch, and the replies since `base` are one per call before it. */
  predicate Conserved(batch: seq<ToolCall>, base: seq<string>, pending: seq<ToolCall>, replies: seq<string>) {
    var done := |batch| - |pending|;
    done >= 0 && pending == batch[done..] && replies == base + Ids(batch[..done])
  }

  lemma {:induction false} AnsweringConserves(
    batch: seq<ToolCall>, base: seq<string>, pending: seq<ToolCall>, replies: seq<string>, stop: nat)
    requires Conserved(batch, base, pending, replies) && stop <= |pending|
    ensures Conserved(batch, base, pending[stop..], replies + Ids(pending[..stop]))
  {
    var done := |batch| - |pending|;
    IdsSplit(batch, done, stop);
    Regroup(base, Ids(batch[..done]), Ids(pending[..stop]));
    assert |batch| - |pending[stop..]| == done + stop;
  }

  lemma {:induction false} Regroup(a: seq<string>, b: seq<string>, c: seq<string>)
    ensures (a + b) + c == a + (b + c)
  {
  }

  lemma {:induction false} GateConserves(batch: seq<ToolCall>, base: seq<string>, s: AgentState, env: Env)
    requires Conserved(batch, base, s.pending, s.replies)
    ensures Conserved(batch, base, Gate(s, env).pending, Gate(s, env).replies)
  {
    if s.pending != [] {
      AnsweringConserves(batch, base, s.pending, s.replies, GateFrom(s, env, 0, s.ops, AnyRequires(s.ops)).stop);
    }
  }

  lemma {:induction false} NothingAnsweredYet(batch: seq<ToolCall>, base: seq<string>)
    ensures Conserved(batch, base, batch, base)
  {
    assert batch[..0] == [] && base + Ids([]) == base;
  }

  /**
   Over any chain of suspensions and resumes, what is still pending is a suffix of the
   original batch, and the replies are, in order, one per call before it. So when the
   batch is finished there is exactly one reply per originally pending call.
   */
  lemma {:induction false} GateConservation(
    chain: seq<AgentState>, decisions: seq<map<string, bool>>, envs: seq<Env>, n: nat)
    requires GateChain(chain, decisions, envs) && n < |chain|
    ensures Conserved(chain[0].pending, chain[0].replies, chain[n].pending, chain[n].replies)
  {
    if n == 0 {
      NothingAnsweredYet(chain[0].pending, chain[0].replies);
    } else {
      GateConservation(chain, decisions, envs, n - 1);
      assert chain[n - 1 + 1] == Gate(Resume(chain[n - 1], decisions[n - 1]), envs[n - 1]);
      GateConserves(chain[0].pending, chain[0].replies, Resume(chain[n - 1], decisions[n - 1]), envs[n - 1]);
    }
  }

  /** No call that needs approval runs, in any link of the chain, without a positive decision for its id. */
  lemma {:induction false} RunsAreApproved(
    chain: seq<AgentState>, decisions: seq<map<string, bool>>, envs: seq<Env>, n: nat, i: nat)
    requires GateChain(chain, decisions, envs) && n < |envs|
    requires i in GateRuns(Resume(chain[n], decisions[n]), envs[n])
    ensures Approved(Resume(chain[n], decisions[n]), envs[n], i)
    ensures chain[n].pending[i] in chain[0].pending
  {
    GateConservation(chain, decisions, envs, n);
    var batch, left := chain[0].pending, |chain[n].pending|;
    assert chain[n].pending[i] == batch[|batch| - left + i];
  }

  // ---------------------------------------------------------------- verification node

  predicate StillOpen(v: VerificationStatus) {
    v == Pending || v == Verifying || v == Inconclusive
  }

  function Requiring(ops: seq<Op>): (items: seq<Op>)
    ensures forall op :: op in items <==> op in ops && op.unverified
  {
    if ops == [] then []
    else if ops[0].unverified then [ops[0]] + Requiring(ops[1..])
    else Requiring(ops[1..])
  }

  function ReplaceAll(ops: seq<Op>, opId: string, op': Op): (ops': seq<Op>)
    ensures |ops'| == |ops|
    ensures forall i :: 0 <= i < |ops| ==> ops'[i] == if ops[i].opId == opId then op' else ops[i]
  {
    seq(|ops|, i requires 0 <= i < |ops| => if ops[i].opId == opId then op' else ops[i])
  }

  /** Overwrite every verified operation with the status that the verifier returned for it. */
  function Overwrite(ops: seq<Op>, items: seq<Op>, results: seq<VerificationStatus>): (ops': seq<Op>)
    requires |results| == |items|
    decreases |items|
  {
    if items == [] then ops
    else
      var item := items[0].(unverified := StillOpen(results[0]));
      Overwrite(ReplaceAll(ops, item.opId, item), items[1..], results[1..])
  }

  predicate AllPassed(results: seq<VerificationStatus>) {
    forall i :: 0 <= i < |results| ==> results[i] == Passed
  }

  function Verification(s: AgentState, results: seq<VerificationStatus>): (s': AgentState)
    requires |results| == |Requiring(s.ops)|
  {
    var items := Requiring(s.ops);
    if items == [] then s.(required := false, blocked := false) else
    var ops := Overwrite(s.ops, items, results);
    if AllPassed(results)
    then s.(ops := ops, required := false, blocked := false, error := false)
    else s.(ops := ops, required := AnyRequires(ops), blocked := true, error := true)
  }

  /** Operations that still require verification are among those not yet looked at. */
  ghost predicate OnlyLaterRequire(ops: seq<Op>, items: seq<Op>) {
    forall i :: 0 <= i < |ops| && ops[i].unverified ==> exists j :: 0 <= j < |items| && items[j].opId == ops[i].opId
  }

  lemma {:induction false} AllPassedClears(ops: seq<Op>, items: seq<Op>, results: seq<VerificationStatus>)
    requires |results| == |items| && AllPassed(results) && OnlyLaterRequire(ops, items)
    ensures !SomeRequires(Overwrite(ops, items, results))
    decreases |items|
  {
    if items != [] {
      var next := ReplaceAll(ops, items[0].opId, items[0].(unverified := StillOpen(results[0])));
      forall i | 0 <= i < |next| && next[i].unverified
        ensures exists j :: 0 <= j < |items[1..]| && items[1..][j].opId == next[i].opId
      {
        assert next[i] == ops[i] && ops[i].opId != items[0].opId;
        var j :| 0 <= j < |items| && items[j].opId == ops[i].opId;
        assert items[1..][j - 1].opId == next[i].opId;
      }
      AllPassedClears(next, items[1..], results[1..]);
    }
  }

  /** The j-th result is the last one given for an operation id. */
  predicate LastFor(items: seq<Op>, opId: string, j: nat) {
    j < |items| && items[j].opId == opId && forall m :: j < m < |items| ==> items[m].opId != opId
  }

  /** What the results make of one entry: the last one for its id decides, and without any it stays. */
  ghost predicate Decided(items: seq<Op>, results: seq<VerificationStatus>, before: Op, after: Op)
    requires |results| == |items|
  {
    && after.opId == before.opId
    && (forall j: nat :: LastFor(items, before.opId, j) ==>
          (after.unverified <==> results[j] == Pending || results[j] == Verifying || results[j] == Inconclusive))
    && ((forall j :: 0 <= j < |items| ==> items[j].opId != before.opId) ==> after == before)
  }

  lemma {:induction false} OverwriteLength(ops: seq<Op>, items: seq<Op>, results: seq<VerificationStatus>)
    requires |results| == |items|
    ensures |Overwrite(ops, items, results)| == |ops|
    decreases |items|
  {
    if items != [] {
      var item := items[0].(unverified := StillOpen(results[0]));
      OverwriteLength(ReplaceAll(ops, item.opId, item), items[1..], results[1..]);
    }
  }

  lemma {:induction false} OverwriteDecides(ops: seq<Op>, items: seq<Op>, results: seq<VerificationStatus>, i: nat)
    requires |results| == |items| && i < |ops|
    ensures |Overwrite(ops, items, results)| == |ops|
    ensures Decided(items, results, ops[i], Overwrite(ops, items, results)[i])
    decreases |items|
  {
    if items != [] {
      var item := items[0].(unverified := StillOpen(results[0]));
      var next := ReplaceAll(ops, item.opId, item);
      OverwriteDecides(next, items[1..], results[1..], i);
      var end := Overwrite(ops, items, results)[i];
      assert Decided(items[1..], results[1..], next[i], end);
      forall j: nat | LastFor(items, ops[i].opId, j)
        ensures end.unverified <==> results[j] == Pending || results[j] == Verifying || results[j] == Inconclusive
      {
        if j > 0 {
          assert LastFor(items[1..], ops[i].opId, j - 1);
        } else {
          assert forall m :: 0 <= m < |items[1..]| ==> items[1..][m] == items[m + 1];
        }
      }
      if forall j :: 0 <= j < |items| ==> items[j].opId != ops[i].opId {
        assert forall m :: 0 <= m < |items[1..]| ==> items[1..][m] == items[m + 1];
      }
    }
  }

  lemma {:induction false} VerificationKeepsFlag(s: AgentState, results: seq<VerificationStatus>)
    requires |results| == |Requiring(s.ops)|
    ensures FlagInv(Verification(s, results))
    ensures !Verification(s, results).blocked ==> !SomeRequires(Verification(s, results).ops)
    ensures Verification(s, results).blocked ==> Verification(s, results).error
  {
    var items := Requiring(s.ops);
    forall i | 0 <= i < |s.ops| && s.ops[i].unverified
      ensures exists j :: 0 <= j < |items| && items[j].opId == s.ops[i].opId
    {
      assert s.ops[i] in items;
    }
    if AllPassed(results) {
      AllPassedClears(s.ops, items, results);
    }
  }

  method OverwriteVerified(ops: seq<Op>, items: seq<Op>, results: seq<VerificationStatus>)
    returns (updated: seq<Op>, allPassed: bool)
    requires |results| == |items|
    ensures updated == Overwrite(ops, items, results)
    ensures allPassed <==> AllPassed(results)
  {
    updated, allPassed := ops, true;
    for k := 0 to |items|
      invariant Overwrite(updated, items[k..], results[k..]) == Overwrite(ops, items, results)
      invariant allPassed <==> forall i :: 0 <= i < k ==> results[i] == Passed
    {
      var replacement := items[k].(unverified := StillOpen(results[k]));
      assert items[k..][1..] == items[k + 1..] && results[k..][1..] == results[k + 1..];
      updated := ReplaceAll(updated, items[k].opId, replacement);
      allPassed := allPassed && results[k] == Passed;
    }
  }

  /** The node as it runs: one verifier result per open operation, then the verdict on the batch. */
  method VerificationNode(s: AgentState, results: seq<VerificationStatus>) returns (s': AgentState)
    requires |results| == |Requiring(s.ops)|
    ensures s' == Verification(s, results) && FlagInv(s')
    ensures |s'.ops| == |s.ops|
    ensures forall i :: 0 <= i < |s.ops| ==> Decided(Requiring(s.ops), results, s.ops[i], s'.ops[i])
    ensures s'.required <==> SomeRequires(s'.ops)
    ensures s'.blocked <==> exists j :: 0 <= j < |results| && results[j] != Passed
    ensures s'.error <==> s'.blocked || (s.error && results == [])
    ensures !s'.blocked ==> !SomeRequires(s'.ops)
    ensures s'.pending == s.pending && s'.replies == s.replies && s'.awaiting == s.awaiting
  {
    VerificationKeepsFlag(s, results);
    var items := Requiring(s.ops);
    OverwriteLength(s.ops, items, results);
    forall i | 0 <= i < |s.ops| ensures Decided(items, results, s.ops[i], Overwrite(s.ops, items, results)[i]) {
      OverwriteDecides(s.ops, items, results, i);
    }
    if items == [] { return s.(required := false, blocked := false); }
    var updated, allPassed := OverwriteVerified(s.ops, items, results);
    if allPassed { return s.(ops := updated, required := false, blocked := false, error := false); }
    s' := s.(ops := updated, required := AnyRequires(updated), blocked := true, error := true);
  }

  // ---------------------------------------------------------------- the graph over many turns

  datatype Node = Idle | Entry | MemoryPrepare | Model | AtGate | AtVerification | Final

  datatype Config = Config(node: Node, s: AgentState)

  datatype Move =
    | BeginTurn(decisions: Option<map<string, bool>>)
    | RunEntry
    | RunMemory
    | RunModel(pending: seq<ToolCall>, error: Option<bool>)
    | RunGate(env: Env)
    | FailGate
    | RunVerification(results: seq<VerificationStatus>)
    | Finish
    | Abort

  function RouteFromEntry(s: AgentState): Node {
    if s.pending != [] then AtGate else if s.required then AtVerification else MemoryPrepare
  }

  function RouteAfterModel(s: AgentState): Node {
    if s.pending != [] then AtGate else if s.required then AtVerification else Final
  }

  function RouteAfterGate(s: AgentState): Node {
    if s.awaiting || s.error then Final else if s.required then AtVerification else Model
  }

  function RouteAfterVerification(s: AgentState): Node {
    if s.blocked || s.required then Final else Model
  }

  predicate CanMove(c: Config, m: Move) {
    match m
    case BeginTurn(_) => c.node == Idle
    case RunEntry => c.node == Entry
    case RunMemory => c.node == MemoryPrepare
    case RunModel(_, _) => c.node == Model
    case RunGate(_) => c.node == AtGate
    case FailGate => c.node == AtGate
    case RunVerification(results) => c.node == AtVerification && |results| == |Requiring(c.s.ops)|
    case Finish => c.node == Final
    case Abort => c.node != Idle
  }

  /** One node of the graph, or a run cut short (Stop, crash, recursion limit): the checkpoint stays. */
  function MoveTo(c: Config, m: Move): (c': Config)
    requires CanMove(c, m)
  {
    var s := c.s;
    match m
    case BeginTurn(decisions) =>
      Config(Entry, if decisions.Some? then s.(decisions := decisions.value) else s)
    case RunEntry =>
      var s' := s.(error := false, blocked := false, awaiting := false);
      Config(RouteFromEntry(s'), s')
    case RunMemory => Config(Model, s)
    case RunModel(pending, error) =>
      var s' := s.(pending := pending, error := error.GetOr(s.error));
      Config(RouteAfterModel(s'), s')
    case RunGate(env) => var s' := Gate(s, env); Config(RouteAfterGate(s'), s')
    case FailGate => var s' := GateError(s); Config(RouteAfterGate(s'), s')
    case RunVerification(results) =>
      var s' := Verification(s, results);
      Config(RouteAfterVerification(s'), s')
    case Finish => Config(Idle, s)
    case Abort => Config(Idle, s)
  }

  const START := Config(Idle, AgentState([], [], false, false, false, false, map[], []))

  ghost predicate Trace(cs: seq<Config>, ms: seq<Move>) {
    && |cs| == |ms| + 1 && cs[0] == START
    && forall i :: 0 <= i < |ms| ==> CanMove(cs[i], ms[i]) && cs[i + 1] == MoveTo(cs[i], ms[i])
  }

  /** The flag invariant, and what each node may rely on. */
  ghost predicate ConfigInv(c: Config) {
    && FlagInv(c.s)
    && (c.node == Model || c.node == MemoryPrepare ==> !SomeRequires(c.s.ops))
    && (c.node == Final && !c.s.error && !c.s.awaiting ==> !SomeRequires(c.s.ops))
  }

  lemma {:induction false} MoveKeepsInv(c: Config, m: Move)
    requires ConfigInv(c) && CanMove(c, m)
    ensures ConfigInv(MoveTo(c, m))
  {
    match m
    case RunGate(env) =>
      if c.s.pending != [] {
        GateFromKeepsFlag(c.s, env, 0, c.s.ops, AnyRequires(c.s.ops));
      }
    case RunVerification(results) => VerificationKeepsFlag(c.s, results);
    case _ =>
  }

  lemma {:induction false} TraceInv(cs: seq<Config>, ms: seq<Move>, i: nat)
    requires Trace(cs, ms) && i < |cs|
    ensures ConfigInv(cs[i])
  {
    if i > 0 {
      TraceInv(cs, ms, i - 1);
      MoveKeepsInv(cs[i - 1], ms[i - 1]);
    }
  }

  /**
   Across any number of turns, resumes and aborted runs: the model is never entered while
   a recorded operation requires verification, and a run that finishes without an error
   and without awaiting approval leaves none behind.
   */
  lemma {:induction false} NoUnverifiedSuccess(cs: seq<Config>, ms: seq<Move>, i: nat)
    requires Trace(cs, ms) && i < |ms|
    ensures cs[i].node == Model ==> !SomeRequires(cs[i].s.ops)
    ensures ms[i] == Finish && !cs[i + 1].s.error && !cs[i + 1].s.awaiting ==> !SomeRequires(cs[i + 1].s.ops)
  {
    TraceInv(cs, ms, i);
    assert CanMove(cs[i], ms[i]) && cs[i + 1] == MoveTo(cs[i], ms[i]);
  }

  /** Some recorded entry of this id requires verification. */
  ghost predicate RequiresIt(ops: seq<Op>, opId: string) {
    exists i :: 0 <= i < |ops| && ops[i].opId == opId && ops[i].unverified
  }

  lemma {:induction false} NamedHolds(ops: seq<Op>, opId: string, op: Op)
    ensures op in Named(ops, opId) <==> op in ops && op.opId == opId
  {
    if ops != [] {
      NamedHolds(ops[..|ops| - 1], opId, op);
      assert ops == ops[..|ops| - 1] + [ops[|ops| - 1]];
    }
  }

  lemma {:induction false} ReplacedBy(before: seq<Op>, after: seq<Op>, blocks: seq<Op>, opId: string) returns (b: Op)
    requires RequiresIt(before, opId) && !RequiresIt(after, opId)
    requires Named(after, opId) == Latest(Named(blocks, opId), Named(before, opId))
    ensures b in blocks && b.opId == opId && !b.unverified
  {
    var i :| 0 <= i < |before| && before[i].opId == opId && before[i].unverified;
    var named := Named(blocks, opId);
    b := if named == [] then before[i] else named[|named| - 1];
    NamedHolds(before, opId, before[i]);
    NamedHolds(blocks, opId, b);
    NamedHolds(after, opId, b);
    assert b in after && b.opId == opId;
  }

  /** The gate forgets no open operation: it stays open unless a call that ran handed back a block that names it. */
  lemma {:induction false} GateKeepsOpen(s: AgentState, env: Env, opId: string)
    requires RequiresIt(s.ops, opId) && !RequiresIt(Gate(s, env).ops, opId)
    ensures exists k, b :: k in GateRuns(s, env) && b in env.blocks(k) && b.opId == opId && !b.unverified
  {
    var g := GateFrom(s, env, 0, s.ops, AnyRequires(s.ops));
    var blocks := BlocksOf(env, g.ran, 0, g.stop);
    GateRecords(s, env, 0, s.ops, AnyRequires(s.ops));
    var b := ReplacedBy(s.ops, g.ops, blocks, opId);
    BlocksCome(env, g.ran, 0, g.stop, b);
  }

  lemma {:induction false} BlocksCome(env: Env, ran: set<nat>, k: nat, n: nat, b: Op)
    requires b in BlocksOf(env, ran, k, n)
    ensures exists i :: i in ran && b in env.blocks(i)
    decreases n - k
  {
    if k in ran && b in env.blocks(k) {
    } else {
      BlocksCome(env, ran, k + 1, n, b);
    }
  }

  lemma {:induction false} LastForExists(items: seq<Op>, opId: string) returns (j: nat)
    requires exists i :: 0 <= i < |items| && items[i].opId == opId
    ensures LastFor(items, opId, j)
  {
    j := |items| - 1;
    if items[j].opId != opId {
      var i :| 0 <= i < |items| && items[i].opId == opId;
      assert items[..j][i].opId == opId;
      j := LastForExists(items[..j], opId);
    }
  }

  /** The last result given for the operation is PASSED, FAILED, NEEDS_REVIEW or NOT_REQUIRED. */
  ghost predicate SettledBy(items: seq<Op>, results: seq<VerificationStatus>, opId: string)
    requires |results| == |items|
  {
    exists j: nat ::
      && LastFor(items, opId, j)
      && (results[j] == Passed || results[j] == CheckFailed || results[j] == NeedsReview || results[j] == NotRequired)
  }

  lemma {:induction false} VerificationKeepsOpen(s: AgentState, results: seq<VerificationStatus>, opId: string)
    requires |results| == |Requiring(s.ops)|
    requires RequiresIt(s.ops, opId) && !RequiresIt(Verification(s, results).ops, opId)
    ensures SettledBy(Requiring(s.ops), results, opId)
  {
    var items := Requiring(s.ops);
    var i :| 0 <= i < |s.ops| && s.ops[i].opId == opId && s.ops[i].unverified;
    assert s.ops[i] in items;
    var j := LastForExists(items, opId);
    OverwriteDecides(s.ops, items, results, i);
    assert Verification(s, results).ops == Overwrite(s.ops, items, results);
  }

  /** The move brings a settling result for the operation, or a block that names it and needs no verification. */
  ghost predicate Closes(s: AgentState, m: Move, opId: string) {
    match m
    case RunVerification(results) =>
      |results| == |Requiring(s.ops)| && SettledBy(Requiring(s.ops), results, opId)
    case RunGate(env) =>
      exists k, b :: k in GateRuns(s, env) && b in env.blocks(k) && b.opId == opId && !b.unverified
    case _ => false
  }

  /**
   Over whole runs, an operation that requires verification stops doing so only by a settling
   result of the verifier for it, or by a later block that names it.
   */
  lemma {:induction false} OpenUntilSettled(cs: seq<Config>, ms: seq<Move>, i: nat, opId: string)
    requires Trace(cs, ms) && i < |ms|
    requires RequiresIt(cs[i].s.ops, opId) && !RequiresIt(cs[i + 1].s.ops, opId)
    ensures Closes(cs[i].s, ms[i], opId)
  {
    assert CanMove(cs[i], ms[i]) && cs[i + 1] == MoveTo(cs[i], ms[i]);
    match ms[i]
    case RunVerification(results) => VerificationKeepsOpen(cs[i].s, results, opId);
    case RunGate(env) => GateKeepsOpen(cs[i].s, env, opId);
    case _ =>
  }

  /** Where the graph goes after each node. */
  ghost predicate GoesOn(c: Config, m: Move, c': Config) {
    match m
    case BeginTurn(_) => c'.node == Entry
    case RunEntry =>
      && !c'.s.error && !c'.s.blocked && !c'.s.awaiting
      && c'.node == (if c.s.pending != [] then AtGate else if c.s.required then AtVerification else MemoryPrepare)
    case RunMemory => c' == c.(node := Model)
    case RunModel(pending, _) =>
      && c'.s.pending == pending && c'.s.ops == c.s.ops && c'.s.required == c.s.required
      && c'.node == (if pending != [] then AtGate else if c.s.required then AtVerification else Final)
    case RunGate(_) =>
      c'.node == (if c'.s.awaiting || c'.s.error then Final else if c'.s.required then AtVerification else Model)
    case FailGate => c'.node == Final && c'.s.error && c'.s.pending == [] && c'.s.ops == c.s.ops
    case RunVerification(results) =>
      c'.node == Model <==> forall j :: 0 <= j < |results| ==> results[j] == Passed
    case Finish => c' == c.(node := Idle)
    case Abort => c' == c.(node := Idle)
  }

  lemma {:induction false} NextNode(c: Config, m: Move)
    requires CanMove(c, m)
    ensures GoesOn(c, m, MoveTo(c, m))
  {
    if m.RunVerification? {
      VerificationKeepsFlag(c.s, m.results);
      assert Requiring(c.s.ops) == [] || AllPassed(m.results) || Verification(c.s, m.results).blocked;
    }
  }
}
