/**
 The registry of command processes per workflow run: registration, cancellation
 tombstones, and any interleaving of spawns, exits and cancellations around one lock.
 */
module ProcessRegistry {
  import opened Common

  type RunId = string
  type Proc = nat
  type Time = real

  function Active(active: map<RunId, set<Proc>>, run: RunId): (procs: set<Proc>) {
    if run in active then active[run] else {}
  }

  function Prune(cancelled: map<RunId, Time>, now: Time, ttl: Time): (kept: map<RunId, Time>)
    ensures forall r :: r in kept <==> r in cancelled && now - cancelled[r] < ttl
    ensures forall r :: r in kept ==> kept[r] == cancelled[r]
  {
    map r | r in cancelled && now - cancelled[r] < ttl :: cancelled[r]
  }

  // ---------------------------------------------------------------- any interleaving

  /** Where a process stands with the registry. */
  datatype Life = Spawned | Registered | Refused | Unregistered

  datatype Process = Process(run: RunId, life: Life, alive: bool)

  /**
   `collected` is what cancellations snapshotted; `owed` are the terminations still to be
   carried out; `dropped` are the processes that were unregistered while alive, as happens
   when an attempt raises after its spawn.
   */
  datatype State = State(
    procs: map<Proc, Process>, cancelled: map<RunId, Time>, collected: map<RunId, set<Proc>>, owed: set<Proc>,
    dropped: set<Proc>)

  datatype Step =
    | Spawn(p: Proc, run: RunId)
    | Register(p: Proc, now: Time)
    | Unregister(p: Proc)
    | Die(p: Proc)
    | Cancel(run: RunId, now: Time, stamp: Time)
    | Terminate(p: Proc)

  const INIT := State(map[], map[], map[], {}, {})

  function RegisteredFor(s: State, run: RunId): (procs: set<Proc>) {
    set p | p in s.procs && s.procs[p].run == run && s.procs[p].life == Registered
  }

  predicate Enabled(s: State, step: Step) {
    match step
    case Spawn(p, run) => p !in s.procs && run != ""
    case Register(p, _) => p in s.procs && s.procs[p].life == Spawned
    case Unregister(p) => p in s.procs
    case Die(p) => p in s.procs
    case Cancel(_, _, _) => true
    case Terminate(p) => p in s.owed && p in s.procs
  }

  function After(s: State, step: Step, ttl: Time): (s': State)
    requires Enabled(s, step)
  {
    match step
    case Spawn(p, run) => s.(procs := s.procs[p := Process(run, Spawned, true)])
    case Register(p, now) =>
      var kept := Prune(s.cancelled, now, ttl);
      if s.procs[p].run in kept
      then s.(cancelled := kept, procs := s.procs[p := s.procs[p].(life := Refused)], owed := s.owed + {p})
      else s.(cancelled := kept, procs := s.procs[p := s.procs[p].(life := Registered)])
    case Unregister(p) =>
      s.(procs := s.procs[p := s.procs[p].(life := Unregistered)],
         dropped := if s.procs[p].alive then s.dropped + {p} else s.dropped)
    case Die(p) => s.(procs := s.procs[p := s.procs[p].(alive := false)])
    case Cancel(run, now, stamp) =>
      s.(cancelled := Prune(s.cancelled, now, ttl)[run := stamp],
         collected := s.collected[run := Active(s.collected, run) + RegisteredFor(s, run)],
         owed := s.owed + RegisteredFor(s, run))
    case Terminate(p) => s.(procs := s.procs[p := s.procs[p].(alive := false)], owed := s.owed - {p})
  }

  /** What a tombstone means for one process. */
  predicate ProcInv(s: State, p: Proc)
    requires p in s.procs
  {
    var x := s.procs[p];
    && (x.life == Registered && x.run in s.cancelled ==> p in Active(s.collected, x.run))
    && (x.life == Refused && x.alive ==> p in s.owed)
    && (p in Active(s.collected, x.run) && x.alive ==> p in s.owed)
    && (x.life == Unregistered && x.alive ==> p in s.dropped)
  }

  /** Collected processes exist, and belong to the run that they were collected for. */
  ghost predicate CollectedExist(s: State) {
    forall run, p :: p in Active(s.collected, run) ==> p in s.procs && s.procs[p].run == run
  }

  ghost predicate Inv(s: State) {
    CollectedExist(s) && forall p :: p in s.procs ==> ProcInv(s, p)
  }

  lemma {:induction false} StepKeepsProcInv(s: State, step: Step, ttl: Time, p: Proc)
    requires Inv(s) && Enabled(s, step) && p in After(s, step, ttl).procs
    ensures ProcInv(After(s, step, ttl), p)
  {
    if step.Spawn? && step.p == p {
      assert p !in Active(s.collected, step.run);
    } else {
      assert p in s.procs && ProcInv(s, p);
      if step.Cancel? && step.run == s.procs[p].run {
        assert p in RegisteredFor(s, step.run) <==> s.procs[p].life == Registered;
      }
    }
  }

  lemma {:induction false} StepKeepsInv(s: State, step: Step, ttl: Time)
    requires Inv(s) && Enabled(s, step)
    ensures Inv(After(s, step, ttl))
  {
    var s' := After(s, step, ttl);
    forall run, p | p in Active(s'.collected, run) ensures p in s'.procs && s'.procs[p].run == run {
      assert p in Active(s.collected, run) || (step.Cancel? && run == step.run && p in RegisteredFor(s, run));
    }
    forall p | p in s'.procs ensures ProcInv(s', p) {
      StepKeepsProcInv(s, step, ttl, p);
    }
  }

  ghost predicate Trace(states: seq<State>, steps: seq<Step>, ttl: Time) {
    && |states| == |steps| + 1 && states[0] == INIT
    && forall i :: 0 <= i < |steps| ==> Enabled(states[i], steps[i]) && states[i + 1] == After(states[i], steps[i], ttl)
  }

  lemma {:induction false} TraceInv(states: seq<State>, steps: seq<Step>, ttl: Time, n: nat)
    requires Trace(states, steps, ttl) && n < |states|
    ensures Inv(states[n])
  {
    if n > 0 {
      TraceInv(states, steps, ttl, n - 1);
      StepKeepsInv(states[n - 1], steps[n - 1], ttl);
    }
  }

  /** The clock reading of a step that takes the lock. */
  predicate Before(step: Step, limit: Time) {
    && (step.Register? ==> step.now < limit)
    && (step.Cancel? ==> step.now < limit && step.now <= step.stamp)
  }

  /** A tombstone planted at `stamp` stays for `ttl`, whatever else happens. */
  lemma {:induction false} TombstoneStays(
    states: seq<State>, steps: seq<Step>, ttl: Time, j: nat, n: nat, run: RunId, stamp: Time)
    requires Trace(states, steps, ttl) && j <= n < |states|
    requires run in states[j].cancelled && states[j].cancelled[run] >= stamp
    requires forall i :: j <= i < n ==> Before(steps[i], stamp + ttl)
    requires forall i :: j <= i < n && steps[i].Cancel? ==> steps[i].stamp >= stamp
    ensures run in states[n].cancelled && states[n].cancelled[run] >= stamp
    decreases n - j
  {
    if j < n {
      assert states[j + 1] == After(states[j], steps[j], ttl);
      TombstoneStays(states, steps, ttl, j + 1, n, run, stamp);
    }
  }

  /**
   No process escapes cancellation. Take any cancellation of a run, and any later moment
   before its tombstone expires. Whatever is registered for the run then was collected by a
   cancellation; a process of the run that tries to register is refused; and whatever is
   alive of the run is about to register, or has its termination under way, or was dropped
   from the registry alive when its attempt raised.
   */
  lemma {:induction false} NoProcessEscapes(
    states: seq<State>, steps: seq<Step>, ttl: Time, j: nat, n: nat, p: Proc)
    requires Trace(states, steps, ttl) && j < n < |states| && steps[j].Cancel?
    requires forall i :: j < i < n ==> Before(steps[i], steps[j].stamp + ttl)
    requires forall i :: j < i < n && steps[i].Cancel? ==> steps[i].stamp >= steps[j].stamp
    requires p in states[n].procs && states[n].procs[p].run == steps[j].run
    ensures var x := states[n].procs[p];
            && (x.life == Registered ==> p in Active(states[n].collected, steps[j].run))
            && (x.alive && (x.life == Registered || x.life == Refused) ==> p in states[n].owed)
            && (x.alive ==> x.life == Spawned || p in states[n].owed || p in states[n].dropped)
    ensures n < |steps| && steps[n].Register? && steps[n].p == p && steps[n].now < steps[j].stamp + ttl ==>
              states[n + 1].procs[p].life == Refused && p in states[n + 1].owed
  {
    assert states[j + 1] == After(states[j], steps[j], ttl);
    TombstoneStays(states, steps, ttl, j + 1, n, steps[j].run, steps[j].stamp);
    TraceInv(states, steps, ttl, n);
    assert ProcInv(states[n], p);
    if n < |steps| {
      assert states[n + 1] == After(states[n], steps[n], ttl);
    }
  }

  /** The exception is real: a process that is dropped alive outlives the cancellation of its run. */
  lemma {:induction false} DroppedProcessEscapes(p: Proc, run: RunId, ttl: Time, now: Time)
    returns (states: seq<State>, steps: seq<Step>)
    requires run != "" && ttl > 0.0
    ensures Trace(states, steps, ttl)
    ensures var s := states[|steps|];
            && p in s.procs && s.procs[p] == Process(run, Unregistered, true)
            && run in s.cancelled && s.owed == {}
  {
    var p1, p2 := Process(run, Spawned, true), Process(run, Registered, true);
    var p3 := Process(run, Unregistered, true);
    steps := [Spawn(p, run), Register(p, now), Unregister(p), Cancel(run, now, now)];
    var s1 := State(map[p := p1], map[], map[], {}, {});
    var s2 := State(map[p := p2], map[], map[], {}, {});
    var s3 := State(map[p := p3], map[], map[], {}, {p});
    assert After(INIT, steps[0], ttl) == s1;
    assert Prune(map[], now, ttl) == map[];
    assert After(s1, steps[1], ttl) == s2;
    assert After(s2, steps[2], ttl) == s3;
    var s4 := After(s3, steps[3], ttl);
    assert RegisteredFor(s3, run) == {};
    states := [INIT, s1, s2, s3, s4];
  }

  /**
   Once no termination is outstanding, whatever was ever refused or collected is dead. This
   rests on what the terminate step means: it is the only one that strikes a debt, and it
   ends the process.
   */
  lemma {:induction false} NothingSurvivesCancellation(states: seq<State>, steps: seq<Step>, ttl: Time, n: nat, p: Proc)
    requires Trace(states, steps, ttl) && n < |states| && states[n].owed == {} && p in states[n].procs
    requires states[n].procs[p].life == Refused || p in Active(states[n].collected, states[n].procs[p].run)
    ensures !states[n].procs[p].alive
  {
    TraceInv(states, steps, ttl, n);
    assert ProcInv(states[n], p);
  }

  /** Refusal is final: a refused process never becomes registered. */
  lemma {:induction false} RefusedForGood(states: seq<State>, steps: seq<Step>, ttl: Time, j: nat, n: nat, p: Proc)
    requires Trace(states, steps, ttl) && j <= n < |states|
    requires p in states[j].procs && (states[j].procs[p].life == Refused || states[j].procs[p].life == Unregistered)
    ensures p in states[n].procs && (states[n].procs[p].life == Refused || states[n].procs[p].life == Unregistered)
    decreases n - j
  {
    if j < n {
      assert Enabled(states[j], steps[j]) && states[j + 1] == After(states[j], steps[j], ttl);
      RefusedForGood(states, steps, ttl, j + 1, n, p);
    }
  }

  // ---------------------------------------------------------------- the locked operations

  /** The registry as it runs; `state` is what it amounts to in the transition system. */
  class Registry {
    var active: map<RunId, set<Proc>>
    var cancelled: map<RunId, Time>
    ghost var state: State
    const ttl: Time

    ghost predicate Valid()
      reads this
    {
      && Inv(state) && cancelled == state.cancelled
      && (forall run :: run in active ==> active[run] != {})
      && (forall run :: Active(active, run) == RegisteredFor(state, run))
    }

    constructor (ttl: Time)
      ensures Valid() && state == INIT && this.ttl == ttl
    {
      this.ttl := ttl;
      active, cancelled := map[], map[];
      state := INIT;
    }

    /** A subprocess was started for a run. */
    ghost method NoteSpawn(run: RunId, p: Proc)
      requires Valid() && Enabled(state, Step.Spawn(p, run))
      modifies this`state
      ensures Valid() && state == After(old(state), Step.Spawn(p, run), ttl)
    {
      StepKeepsInv(state, Step.Spawn(p, run), ttl);
      var was := state;
      state := After(state, Step.Spawn(p, run), ttl);
      assert forall r :: RegisteredFor(state, r) == RegisteredFor(was, r);
    }

    /** A process without a run is let through and not tracked. */
    method Register(run: Option<RunId>, p: Proc, now: Time) returns (registered: bool)
      requires Valid()
      requires run.Some? && run.value != "" ==>
                 p in state.procs && state.procs[p].run == run.value && state.procs[p].life == Spawned
      modifies this
      ensures Valid()
      ensures run.None? || run.value == "" ==>
                registered && state == old(state) && active == old(active) && cancelled == old(cancelled)
      ensures run.Some? && run.value != "" ==>
                && state == After(old(state), Step.Register(p, now), ttl)
                && (registered <==> run.value !in Prune(old(cancelled), now, ttl))
                && (registered <==> state.procs[p].life == Registered)
    {
      if run.None? || run.value == "" { return true; }
      ghost var was := state;
      StepKeepsInv(state, Step.Register(p, now), ttl);
      state := After(state, Step.Register(p, now), ttl);
      cancelled := Prune(cancelled, now, ttl);
      if run.value in cancelled {
        LifeChanges(was, state, p, run.value);
        return false;
      }
      active := active[run.value := Active(active, run.value) + {p}];
      LifeChanges(was, state, p, run.value);
      registered := true;
    }

    method Unregister(run: Option<RunId>, p: Proc)
      requires Valid()
      requires run.Some? && run.value != "" ==> p in state.procs && state.procs[p].run == run.value
      modifies this
      ensures Valid() && cancelled == old(cancelled)
      ensures state == if run.None? || run.value == "" then old(state) else After(old(state), Step.Unregister(p), ttl)
    {
      if run.None? || run.value == "" { return; }
      ghost var was := state;
      StepKeepsInv(state, Step.Unregister(p), ttl);
      state := After(state, Step.Unregister(p), ttl);
      LifeChanges(was, state, p, run.value);
      if run.value !in active { return; }
      var left := active[run.value] - {p};
      active := if left == {} then active - {run.value} else active[run.value := left];
    }

    /** Plants the tombstone and collects the processes to terminate, under the same lock. */
    method CancelRun(run: RunId, now: Time, stamp: Time) returns (processes: set<Proc>)
      requires Valid()
      modifies this
      ensures Valid() && active == old(active)
      ensures state == After(old(state), Step.Cancel(run, now, stamp), ttl)
      ensures run in cancelled && cancelled[run] == stamp
      ensures processes == RegisteredFor(old(state), run) && processes <= state.owed && processes <= state.procs.Keys
    {
      StepKeepsInv(state, Step.Cancel(run, now, stamp), ttl);
      ghost var was := state;
      state := After(state, Step.Cancel(run, now, stamp), ttl);
      assert forall r :: RegisteredFor(state, r) == RegisteredFor(was, r);
      cancelled := Prune(cancelled, now, ttl)[run := stamp];
      processes := Active(active, run);
    }

    /** Signals a process and waits for its end. */
    ghost method TerminateProcess(p: Proc)
      requires Valid() && Enabled(state, Step.Terminate(p))
      modifies this`state
      ensures Valid() && state == After(old(state), Step.Terminate(p), ttl)
    {
      StepKeepsInv(state, Step.Terminate(p), ttl);
      var was := state;
      state := After(state, Step.Terminate(p), ttl);
      assert forall r :: RegisteredFor(state, r) == RegisteredFor(was, r);
    }

    /** The whole cancellation, undisturbed: whatever was registered for the run is dead afterwards. */
    method CancelRunProcesses(run: RunId, now: Time, stamp: Time) returns (matched: nat)
      requires Valid()
      modifies this
      ensures Valid() && run in cancelled && matched == |RegisteredFor(old(state), run)|
      ensures forall p :: p in RegisteredFor(old(state), run) ==> p in state.procs && !state.procs[p].alive
    {
      var processes := CancelRun(run, now, stamp);
      matched := |processes|;
      var left := processes;
      while left != {}
        invariant Valid() && run in cancelled && left <= processes <= state.procs.Keys && left <= state.owed
        invariant forall p :: p in processes && p !in left ==> !state.procs[p].alive
        decreases |left|
      {
        var p :| p in left;
        TerminateProcess(p);
        left := left - {p};
      }
    }
  }

  /** A change of one process's standing changes only its own run's registrations. */
  lemma {:induction false} LifeChanges(s: State, s': State, p: Proc, run: RunId)
    requires p in s.procs && s.procs[p].run == run
    requires s'.procs.Keys == s.procs.Keys && s'.procs[p].run == run
    requires forall q :: q in s.procs && q != p ==> s'.procs[q] == s.procs[q]
    ensures forall r :: r != run ==> RegisteredFor(s', r) == RegisteredFor(s, r)
    ensures RegisteredFor(s', run) == if s'.procs[p].life == Registered then RegisteredFor(s, run) + {p}
                                      else RegisteredFor(s, run) - {p}
  {
  }

  // ---------------------------------------------------------------- bounded execution

  /** How one attempt of a command ended. */
  datatype Attempt =
    | NotFound                            // the executable does not exist: nothing was spawned
    | SpawnRaised(transient: bool)        // the spawn itself failed
    | TurnedAway                          // spawned, then refused by the registry and terminated
    | RaisedAfterSpawn(transient: bool)   // spawned, then an exception: the process is left running
    | TimedOut
    | ExitedOk
    | ExitedBadly(transient: bool)
    | Interrupted                         // cancelled while running

  predicate Spawns(a: Attempt) {
    !a.NotFound? && !a.SpawnRaised?
  }

  /** A failure that a retry-safe command may repeat. */
  predicate Retryable(a: Attempt): (yes: bool)
    ensures yes <==> a.TimedOut? || a == ExitedBadly(true) || a == SpawnRaised(true) || a == RaisedAfterSpawn(true)
  {
    a.TimedOut? || ((a.ExitedBadly? || a.SpawnRaised? || a.RaisedAfterSpawn?) && a.transient)
  }

  /** How many of the first `n` attempts spawned a process. */
  function SpawnedBy(outcomes: nat -> Attempt, n: nat): (count: nat)
    ensures count <= n
  {
    if n == 0 then 0
    else SpawnedBy(outcomes, n - 1)
         + match outcomes(n - 1) case NotFound => 0 case SpawnRaised(_) => 0 case _ => 1
  }

  /** How many of the first `n` attempts left their process running. */
  function LeftBy(outcomes: nat -> Attempt, n: nat): (count: nat)
    ensures count <= SpawnedBy(outcomes, n)
    ensures count > 0 <==> exists k :: 0 <= k < n && outcomes(k).RaisedAfterSpawn?
  {
    if n == 0 then 0 else LeftBy(outcomes, n - 1) + if outcomes(n - 1).RaisedAfterSpawn? then 1 else 0
  }

  datatype CommandResult = Success | Failure | Stopped | Aborted

  /** The attempts of a command: `result` is what the last one decides, if it ends the command by itself. */
  method TryCommand(retrySafe: bool, maxAttempts: nat, outcomes: nat -> Attempt)
    returns (result: Option<CommandResult>, spawned: nat, attempts: nat, left: nat)
    requires maxAttempts >= 1
    ensures 1 <= attempts <= maxAttempts
    ensures forall k :: 0 <= k < attempts - 1 ==> retrySafe && Retryable(outcomes(k))
    ensures attempts < maxAttempts ==> !retrySafe || !Retryable(outcomes(attempts - 1))
    ensures spawned == SpawnedBy(outcomes, attempts) && left == LeftBy(outcomes, attempts)
    ensures var last := outcomes(attempts - 1);
            result == if last.ExitedOk? then Some(Success) else if last.TurnedAway? then Some(Stopped)
                      else if last.Interrupted? then Some(Aborted) else None
  {
    spawned, attempts, left := 0, 0, 0;
    var again := true;
    while again
      invariant 0 <= attempts <= maxAttempts && (again ==> attempts < maxAttempts)
      invariant spawned == SpawnedBy(outcomes, attempts) && left == LeftBy(outcomes, attempts)
      invariant forall k :: 0 <= k < attempts - 1 ==> retrySafe && Retryable(outcomes(k))
      invariant again && attempts > 0 ==> retrySafe && Retryable(outcomes(attempts - 1))
      invariant !again ==> attempts > 0 && !(retrySafe && Retryable(outcomes(attempts - 1)) && attempts < maxAttempts)
      invariant !again ==> var o := outcomes(attempts - 1); !o.ExitedOk? && !o.TurnedAway? && !o.Interrupted?
      decreases maxAttempts - attempts, again
    {
      var outcome := outcomes(attempts);
      attempts := attempts + 1;
      if Spawns(outcome) { spawned := spawned + 1; }
      if outcome.RaisedAfterSpawn? { left := left + 1; }
      if outcome.TurnedAway? { return Some(Stopped), spawned, attempts, left; }
      if outcome.ExitedOk? { return Some(Success), spawned, attempts, left; }
      if outcome.Interrupted? { return Some(Aborted), spawned, attempts, left; }
      again := retrySafe && Retryable(outcome) && attempts < maxAttempts;
    }
    result := None;
  }

  /**
   Runs a command with bounded, safe retries. `outcomes(k)` is what attempt `k` meets,
   `fallback` what the fallback command would meet; `left` counts the processes that were
   left running.
   */
  method RunCommand(retrySafe: bool, maxRetries: nat, outcomes: nat -> Attempt, fallback: Option<Attempt>)
    returns (result: CommandResult, spawned: nat, attempts: nat, fellBack: bool, left: nat)
    requires 1 <= maxRetries <= 10
    ensures 1 <= attempts <= (if retrySafe then maxRetries else 1)
    ensures forall k :: 0 <= k < attempts - 1 ==> Retryable(outcomes(k))
    ensures attempts < (if retrySafe then maxRetries else 1) ==> !Retryable(outcomes(attempts - 1))
    ensures var last := outcomes(attempts - 1);
            fellBack <==> fallback.Some? && retrySafe && !last.ExitedOk? && !last.TurnedAway? && !last.Interrupted?
    ensures spawned == SpawnedBy(outcomes, attempts)
                       + if fellBack && !fallback.value.NotFound? && !fallback.value.SpawnRaised? then 1 else 0
    ensures left == LeftBy(outcomes, attempts) + if fellBack && fallback.value.RaisedAfterSpawn? then 1 else 0
    ensures spawned <= (if retrySafe then maxRetries + 1 else 1)
    ensures result == Success <==>
              outcomes(attempts - 1).ExitedOk? || (fellBack && fallback.value.ExitedOk?)
    ensures result == Stopped <==> outcomes(attempts - 1).TurnedAway?
    ensures result == Aborted <==>
              outcomes(attempts - 1).Interrupted? || (fellBack && fallback.value.Interrupted?)
  {
    fellBack := false;
    var ended;
    ended, spawned, attempts, left := TryCommand(retrySafe, if retrySafe then maxRetries else 1, outcomes);
    if ended.Some? { return ended.value, spawned, attempts, false, left; }
    if fallback.Some? && retrySafe {
      fellBack := true;
      if Spawns(fallback.value) { spawned := spawned + 1; }
      if fallback.value.RaisedAfterSpawn? { left := left + 1; }
      result := if fallback.value.ExitedOk? then Success
                else if fallback.value.Interrupted? then Aborted else Failure;
      return;
    }
    result := Failure;
  }
}
