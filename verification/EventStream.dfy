/**
 The resumable event stream: a sequence counter, a bounded replay buffer, live
 publish/subscribe, and one client that disconnects and resumes at will. Keys do not
 expire in this model.
 */
module EventStream {
  import opened Common

  const BUFFER_LIMIT: nat := 1000

  /** `wire` says whether the published text decodes again (see `SseWire`). */
  datatype Event = Event(id: nat, terminal: bool, wire: bool, body: string)

  /** The RPUSH followed by LTRIM of a publish. */
  function Trim(buffer: seq<Event>): (b: seq<Event>) {
    if |buffer| <= BUFFER_LIMIT then buffer else buffer[|buffer| - BUFFER_LIMIT..]
  }

  predicate HistoryGap(last: nat, oldest: Option<nat>, latest: nat) {
    latest > last && (oldest.None? || oldest.value > last + 1)
  }

  function Oldest(buffer: seq<Event>): (id: Option<nat>) {
    if buffer == [] then None else Some(buffer[0].id)
  }

  /** Identifiers grow strictly along a log. */
  predicate Increasing(log: seq<Event>) {
    && (forall i :: 0 <= i < |log| ==> log[i].id >= 1)
    && (forall i, j :: 0 <= i < j < |log| ==> log[i].id < log[j].id)
  }

  /** The id that a client has after the first `k` events of the log. */
  function IdAt(log: seq<Event>, k: nat): (id: nat)
    requires k <= |log|
  {
    if k == 0 then 0 else log[k - 1].id
  }

  // ---------------------------------------------------------------- the channel, sequentially

  class Channel {
    var sequence: nat
    var buffer: seq<Event>
    ghost var published: seq<Event>

    ghost predicate Valid()
      reads this
    {
      && sequence == |published|
      && (forall i :: 0 <= i < |published| ==> published[i].id == i + 1)
      && buffer == Trim(published)
    }

    constructor ()
      ensures Valid() && published == []
    {
      sequence := 0;
      buffer := [];
      published := [];
    }

    method Publish(terminal: bool, wire: bool, body: string) returns (id: nat)
      requires Valid()
      modifies this
      ensures Valid() && id == sequence == old(sequence) + 1
      ensures published == old(published) + [Event(id, terminal, wire, body)]
    {
      sequence := sequence + 1;
      id := sequence;
      var e := Event(id, terminal, wire, body);
      published := published + [e];
      TrimAppend(old(published), e);
      buffer := Trim(buffer + [e]);
    }

    /**
     A resume: exactly what was published after the client's last event, or an explicit gap
     if and only if that is more than the buffer holds.
     */
    method Replay(last: nat, ghost k: nat) returns (gap: bool, sent: seq<Event>)
      requires Valid() && k <= |published| && last == IdAt(published, k)
      ensures !gap ==> sent == published[k..]
      ensures gap ==> sent == []
      ensures gap <==> |published| - k > 1000
    {
      sent := [];
      gap := HistoryGap(last, Oldest(buffer), sequence);
      if gap { return; }
      ResumePoint(published, buffer, k, sequence);
      sent := ReplayBuffer(buffer, last, published, k);
    }
  }

  /** The replay loop over the end of a log: every entry with a larger id than the last one sent. */
  method ReplayBuffer(buffer: seq<Event>, last: nat, ghost log: seq<Event>, ghost k: nat) returns (sent: seq<Event>)
    requires Increasing(log) && k <= |log| && last == IdAt(log, k)
    requires |log| - k <= |buffer| <= |log| && buffer == log[|log| - |buffer|..]
    ensures sent == log[k..]
  {
    sent := [];
    ghost var b, n := |log| - |buffer|, k;
    var lastSent := last;
    for i := 0 to |buffer|
      invariant k <= n <= |log| && n == if b + i <= k then k else b + i
      invariant sent == log[k..n] && lastSent == IdAt(log, n)
    {
      assert buffer[i] == log[b + i];
      NewFromHere(log, n, b + i);
      if buffer[i].id > lastSent {
        assert b + i == n;
        lastSent := buffer[i].id;
        sent := sent + [buffer[i]];
        PieceGrows(log, k, n);
        n := n + 1;
      }
    }
  }

  lemma {:induction false} PieceGrows(log: seq<Event>, k: nat, n: nat)
    requires k <= n < |log|
    ensures log[k..n] + [log[n]] == log[k..n + 1]
  {
  }

  /** Whatever the client lacks and the buffer has dropped is reported as a gap. */
  lemma {:induction false} NoGapMeansNoLoss(log: seq<Event>, b: nat, n: nat, k: nat, latest: nat)
    requires Increasing(log) && b <= n <= |log| && k <= n
    requires forall i :: 0 <= i < |log| ==> log[i].id <= latest
    ensures b <= k || HistoryGap(IdAt(log, k), Oldest(log[b..n]), latest)
  {
    if k < b {
      assert IdAt(log, k) < log[k].id <= latest;
      if b < n {
        assert log[b..n][0] == log[b];
        assert log[k].id < log[b].id;
      }
    }
  }

  /** Without a gap, the buffer is the end of the log and starts no later than the client's place in it. */
  lemma {:induction false} ResumePoint(log: seq<Event>, buffer: seq<Event>, k: nat, latest: nat)
    requires Increasing(log) && buffer == Trim(log) && k <= |log|
    requires forall i :: 0 <= i < |log| ==> log[i].id <= latest
    requires !HistoryGap(IdAt(log, k), Oldest(buffer), latest)
    ensures |log| - k <= |buffer| <= |log| && buffer == log[|log| - |buffer|..]
  {
    var b := |log| - |buffer|;
    assert log[b..|log|] == buffer;
    NoGapMeansNoLoss(log, b, |log|, k, latest);
  }

  // ---------------------------------------------------------------- the stream, interleaved

  /**
   The server side of the client's connection. `upto` is the length of the log when the
   buffer was read, so `snap` is a piece of the log that ends there; `at` is the next
   entry of `snap` to replay.
   */
  datatype Session =
    | Offline
    | Subscribed(queue: seq<Event>)
    | Snapshotted(queue: seq<Event>, snap: seq<Event>, upto: nat)
    | Replaying(queue: seq<Event>, snap: seq<Event>, upto: nat, at: nat, replayed: bool, ended: bool)
    | Streaming(queue: seq<Event>)

  /** `got` is everything the client received; `lastId` its Last-Event-ID. */
  datatype Stream = Stream(
    counter: nat, inflight: set<nat>, log: seq<Event>, buffer: seq<Event>,
    session: Session, got: seq<Event>, lastId: nat, gaps: nat)

  datatype Step =
    | Incr | Commit(event: Event) | Fail(id: nat)
    | Connect | Snapshot | Decide | ReplayOne | EndReplay | Receive | Disconnect

  predicate Enabled(s: Stream, step: Step) {
    match step
    case Incr => true
    case Commit(e) => e.id in s.inflight
    case Fail(id) => id in s.inflight
    case Connect => s.session.Offline?
    case Snapshot => s.session.Subscribed?
    case Decide => s.session.Snapshotted?
    case ReplayOne => s.session.Replaying? && s.session.at < |s.session.snap|
    case EndReplay => s.session.Replaying? && s.session.at == |s.session.snap|
    case Receive => s.session.Streaming? && s.session.queue != []
    case Disconnect => !s.session.Offline?
  }

  function Enqueue(session: Session, e: Event): (session': Session) {
    if session.Offline? then session else session.(queue := session.queue + [e])
  }

  function Deliver(s: Stream, e: Event): (s': Stream) {
    s.(got := s.got + [e], lastId := e.id)
  }

  function After(s: Stream, step: Step): (s': Stream)
    requires Enabled(s, step)
  {
    var c := s.session;
    match step
    case Incr => s.(counter := s.counter + 1, inflight := s.inflight + {s.counter + 1})
    case Commit(e) =>
      s.(inflight := s.inflight - {e.id}, log := s.log + [e], buffer := Trim(s.buffer + [e]),
         session := Enqueue(c, e))
    case Fail(id) => s.(inflight := s.inflight - {id})
    case Connect => s.(session := Subscribed([]))
    case Snapshot => s.(session := Snapshotted(c.queue, s.buffer, |s.log|))
    case Decide =>
      if HistoryGap(s.lastId, Oldest(c.snap), s.counter)
      then s.(session := Offline, gaps := s.gaps + 1)
      else s.(session := Replaying(c.queue, c.snap, c.upto, 0, false, false))
    case ReplayOne =>
      var e := c.snap[c.at];
      if e.id <= s.lastId then s.(session := c.(at := c.at + 1))
      else Deliver(s, e).(session := c.(at := c.at + 1, replayed := true, ended := e.terminal))
    case EndReplay =>
      if c.ended then s.(session := Offline)
      else if !c.replayed && c.snap != [] && c.snap[|c.snap| - 1].terminal
      then Deliver(s, c.snap[|c.snap| - 1]).(session := Offline)
      else s.(session := Streaming(c.queue))
    case Receive =>
      var e := c.queue[0];
      if !e.wire || e.id <= s.lastId then s.(session := Streaming(c.queue[1..]))
      else Deliver(s, e).(session := if e.terminal then Offline else Streaming(c.queue[1..]))
    case Disconnect => s.(session := Offline)
  }

  const INIT := Stream(0, {}, [], [], Offline, [], 0, 0)

  /** Every id stored before is smaller than that of `e`. */
  predicate Newest(log: seq<Event>, e: Event) {
    forall i :: 0 <= i < |log| ==> log[i].id < e.id
  }

  /** Publishes may overlap, but they are stored in the order of their ids. */
  predicate Orderly(s: Stream, step: Step) {
    step.Commit? ==> Newest(s.log, step.event)
  }

  ghost predicate Trace(states: seq<Stream>, steps: seq<Step>) {
    && |states| == |steps| + 1 && states[0] == INIT
    && forall i :: 0 <= i < |steps| ==> Enabled(states[i], steps[i]) && states[i + 1] == After(states[i], steps[i])
  }

  // ---------------------------------------------------------------- invariant

  /** Adjacent repetitions removed. */
  function Collapse(g: seq<Event>): (c: seq<Event>) {
    if |g| <= 1 then g
    else
      var n := |g| - 1;
      if g[n] == g[n - 1] then Collapse(g[..n]) else Collapse(g[..n]) + [g[n]]
  }

  ghost predicate ServerInv(counter: nat, inflight: set<nat>, log: seq<Event>, buffer: seq<Event>) {
    && Increasing(log)
    && (forall i :: 0 <= i < |log| ==> log[i].id <= counter)
    && (forall id :: id in inflight ==> 1 <= id <= counter)
    && buffer == Trim(log)
  }

  /** The first `k` events of the log, without those at the positions in `missed`. */
  function Keep(log: seq<Event>, k: nat, missed: set<nat>): (kept: seq<Event>)
    requires k <= |log|
  {
    if k == 0 then []
    else if k - 1 in missed then Keep(log, k - 1, missed)
    else Keep(log, k - 1, missed) + [log[k - 1]]
  }

  /** Whatever the client passed by was undecodable, and the last event before `k` is one it received. */
  predicate MissedInv(log: seq<Event>, k: nat, missed: set<nat>) {
    && k <= |log| && (forall i :: i in missed ==> i < k && !log[i].wire) && (k > 0 ==> k - 1 !in missed)
  }

  /**
   The client has exactly the first `k` events without the missed ones, except that a
   terminal may be repeated.
   */
  ghost predicate ClientInv(log: seq<Event>, got: seq<Event>, lastId: nat, k: nat, missed: set<nat>) {
    && MissedInv(log, k, missed) && lastId == IdAt(log, k)
    && Collapse(got) == Keep(log, k, missed)
    && (if k == 0 then got == [] else got != [] && got[|got| - 1] == log[k - 1])
    && OnlyTerminalsRepeat(got)
  }

  predicate OnlyTerminalsRepeat(got: seq<Event>) {
    forall i :: 0 <= i < |got| - 1 && got[i] == got[i + 1] ==> got[i].terminal
  }

  /** The undelivered live messages are the newest part of the log. */
  predicate QueueIsTail(queue: seq<Event>, log: seq<Event>) {
    |queue| <= |log| && forall i :: 0 <= i < |queue| ==> queue[i] == log[|log| - |queue| + i]
  }

  predicate SnapIsPiece(snap: seq<Event>, upto: nat, log: seq<Event>) {
    |snap| <= upto <= |log| && forall i :: 0 <= i < |snap| ==> snap[i] == log[upto - |snap| + i]
  }

  ghost predicate SessionInv(c: Session, log: seq<Event>, k: nat) {
    match c
    case Offline => true
    case Subscribed(queue) => QueueIsTail(queue, log)
    case Snapshotted(queue, snap, upto) =>
      QueueIsTail(queue, log) && SnapIsPiece(snap, upto, log) && k <= upto && |log| - |queue| <= upto
    case Replaying(queue, snap, upto, at, _, _) =>
      && QueueIsTail(queue, log) && SnapIsPiece(snap, upto, log) && |log| - |queue| <= upto
      && k <= upto && at <= |snap| && upto - |snap| + at <= k
    case Streaming(queue) => QueueIsTail(queue, log) && OnlyUndecodable(log, k, |log| - |queue|)
  }

  /** Nothing from `k` up to `n` decodes. */
  predicate OnlyUndecodable(log: seq<Event>, k: nat, n: int) {
    forall i :: k <= i < n && i < |log| ==> !log[i].wire
  }

  ghost predicate Inv(s: Stream, k: nat, missed: set<nat>) {
    && ServerInv(s.counter, s.inflight, s.log, s.buffer)
    && ClientInv(s.log, s.got, s.lastId, k, missed)
    && SessionInv(s.session, s.log, k)
  }

  // What the client's part keeps.

  lemma {:induction false} CollapseAppend(g: seq<Event>, e: Event)
    ensures Collapse(g + [e]) == if g != [] && g[|g| - 1] == e then Collapse(g) else Collapse(g) + [e]
  {
    assert (g + [e])[..|g|] == g;
  }

  lemma {:induction false} RepeatsAppend(g: seq<Event>, e: Event)
    requires OnlyTerminalsRepeat(g) && (g != [] && g[|g| - 1] == e ==> e.terminal)
    ensures OnlyTerminalsRepeat(g + [e])
  {
  }

  /** What is kept of the first events depends on these alone. */
  lemma {:induction false} KeepDepends(log: seq<Event>, log': seq<Event>, k: nat, missed: set<nat>, missed': set<nat>)
    requires k <= |log| && k <= |log'|
    requires forall i :: 0 <= i < k ==> log[i] == log'[i] && (i in missed <==> i in missed')
    ensures Keep(log, k, missed) == Keep(log', k, missed')
  {
    if k > 0 { KeepDepends(log, log', k - 1, missed, missed'); }
  }

  lemma {:induction false} KeepSkips(log: seq<Event>, k: nat, i: nat, missed: set<nat>)
    requires k <= i <= |log| && forall j :: k <= j < i ==> j in missed
    ensures Keep(log, i, missed) == Keep(log, k, missed)
    decreases i
  {
    if k < i { KeepSkips(log, k, i - 1, missed); }
  }

  /** The positions from `k` up to `i`. */
  function Between(k: nat, i: nat): (s: set<nat>)
    ensures forall j :: j in s <==> k <= j < i
  {
    if k < i then Between(k, i - 1) + {i - 1} else {}
  }

  lemma {:induction false} KeepNext(log: seq<Event>, k: nat, i: nat, missed: set<nat>)
    requires k <= i < |log| && forall j :: j in missed ==> j < k
    ensures Keep(log, i + 1, missed + Between(k, i)) == Keep(log, k, missed) + [log[i]]
  {
    var missed' := missed + Between(k, i);
    KeepDepends(log, log, k, missed, missed');
    KeepSkips(log, k, i, missed');
  }

  /** Receiving the event at `i` passes by those since the last one. */
  lemma {:induction false} DeliverNext(log: seq<Event>, got: seq<Event>, lastId: nat, k: nat, missed: set<nat>, i: nat)
    requires Increasing(log) && ClientInv(log, got, lastId, k, missed) && k <= i < |log| && OnlyUndecodable(log, k, i)
    ensures ClientInv(log, got + [log[i]], log[i].id, i + 1, missed + Between(k, i))
  {
    LastIsAnother(log, got, lastId, k, missed, i);
    CollapseAppend(got, log[i]);
    RepeatsAppend(got, log[i]);
    KeepNext(log, k, i, missed);
    MissedGrows(log, k, missed, i);
  }

  lemma {:induction false} LastIsAnother(
    log: seq<Event>, got: seq<Event>, lastId: nat, k: nat, missed: set<nat>, i: nat)
    requires Increasing(log) && ClientInv(log, got, lastId, k, missed) && k <= i < |log|
    ensures got != [] ==> got[|got| - 1] != log[i]
  {
    assert k > 0 ==> log[k - 1].id < log[i].id;
  }

  lemma {:induction false} MissedGrows(log: seq<Event>, k: nat, missed: set<nat>, i: nat)
    requires MissedInv(log, k, missed) && k <= i < |log| && OnlyUndecodable(log, k, i)
    ensures MissedInv(log, i + 1, missed + Between(k, i))
  {
  }

  /** Receiving the last terminal again changes nothing but the repetition. */
  lemma {:induction false} DeliverAgain(log: seq<Event>, got: seq<Event>, lastId: nat, k: nat, missed: set<nat>)
    requires ClientInv(log, got, lastId, k, missed) && 0 < k && log[k - 1].terminal
    ensures ClientInv(log, got + [log[k - 1]], lastId, k, missed)
  {
    CollapseAppend(got, log[k - 1]);
    RepeatsAppend(got, log[k - 1]);
  }

  // What storing an event keeps.

  lemma {:induction false} TrimAppend(log: seq<Event>, e: Event)
    ensures Trim(Trim(log) + [e]) == Trim(log + [e])
  {
  }

  lemma {:induction false} StoreKeepsServer(
    counter: nat, inflight: set<nat>, log: seq<Event>, buffer: seq<Event>, e: Event)
    requires ServerInv(counter, inflight, log, buffer) && e.id in inflight && Newest(log, e)
    ensures ServerInv(counter, inflight - {e.id}, log + [e], Trim(buffer + [e]))
  {
    TrimAppend(log, e);
  }

  lemma {:induction false} StoreKeepsClient(
    log: seq<Event>, got: seq<Event>, lastId: nat, k: nat, missed: set<nat>, e: Event)
    requires ClientInv(log, got, lastId, k, missed)
    ensures ClientInv(log + [e], got, lastId, k, missed)
  {
    KeepDepends(log, log + [e], k, missed, missed);
  }

  lemma {:induction false} StoreKeepsQueue(queue: seq<Event>, log: seq<Event>, e: Event)
    requires QueueIsTail(queue, log)
    ensures QueueIsTail(queue + [e], log + [e])
  {
  }

  lemma {:induction false} StoreKeepsPiece(snap: seq<Event>, upto: nat, log: seq<Event>, e: Event)
    requires SnapIsPiece(snap, upto, log)
    ensures SnapIsPiece(snap, upto, log + [e])
  {
  }

  lemma {:induction false} CommitKeepsInv(s: Stream, k: nat, missed: set<nat>, e: Event)
    requires Inv(s, k, missed) && e.id in s.inflight && Newest(s.log, e)
    ensures Inv(After(s, Commit(e)), k, missed)
  {
    StoreKeepsServer(s.counter, s.inflight, s.log, s.buffer, e);
    StoreKeepsClient(s.log, s.got, s.lastId, k, missed, e);
    var c := s.session;
    if !c.Offline? { StoreKeepsQueue(c.queue, s.log, e); }
    if c.Snapshotted? || c.Replaying? { StoreKeepsPiece(c.snap, c.upto, s.log, e); }
  }

  // The steps of the server.

  /** To a client that has the event before `k`, exactly the events from there on are new. */
  lemma {:induction false} NewFromHere(log: seq<Event>, k: nat, i: nat)
    requires Increasing(log) && k <= |log| && i < |log|
    ensures log[i].id > IdAt(log, k) <==> i >= k
  {
    if i < k - 1 {
      assert log[i].id < log[k - 1].id;
    } else if i >= k && k > 0 {
      assert log[k - 1].id < log[i].id;
    }
  }

  /** Nothing below `k` becomes missed or stops being so. */
  ghost predicate SameBelow(missed: set<nat>, missed': set<nat>, k: nat) {
    forall i :: i in missed + missed' && i < k ==> i in missed && i in missed'
  }

  /** What a step does to the client's place: it passes by positions only when it takes a live event. */
  ghost predicate Moves(step: Step, k: nat, missed: set<nat>, k': nat, missed': set<nat>) {
    k <= k' && SameBelow(missed, missed', k) && (!step.Receive? ==> missed' == missed)
  }

  /** Receiving the very next event passes by nothing. */
  lemma {:induction false} DeliverHere(log: seq<Event>, got: seq<Event>, lastId: nat, k: nat, missed: set<nat>)
    requires Increasing(log) && ClientInv(log, got, lastId, k, missed) && k < |log|
    ensures ClientInv(log, got + [log[k]], log[k].id, k + 1, missed)
  {
    DeliverNext(log, got, lastId, k, missed, k);
    assert missed + Between(k, k) == missed;
  }

  /** A replayed event is new exactly if it is the very next one. */
  lemma {:induction false} ReplayedIsNext(s: Stream, k: nat, missed: set<nat>)
    requires Inv(s, k, missed) && Enabled(s, ReplayOne)
    ensures var c := s.session;
            var i := c.upto - |c.snap| + c.at;
            && 0 <= i < |s.log| && i <= k && c.snap[c.at] == s.log[i] && (s.log[i].id > s.lastId <==> i == k)
  {
    NewFromHere(s.log, k, s.session.upto - |s.session.snap| + s.session.at);
  }

  /** The next entry of the snapshot has been looked at, and the client's place is `k'`. */
  lemma {:induction false} ReplayAdvances(c: Session, log: seq<Event>, k: nat, k': nat, replayed: bool, ended: bool)
    requires c.Replaying? && SessionInv(c, log, k) && c.at < |c.snap|
    requires var i := c.upto - |c.snap| + c.at; k' == if i == k then k + 1 else k
    ensures SessionInv(c.(at := c.at + 1, replayed := replayed, ended := ended), log, k')
  {
  }

  lemma {:induction false} ReplayKeepsInv(s: Stream, k: nat, missed: set<nat>) returns (k': nat)
    requires Inv(s, k, missed) && Enabled(s, ReplayOne)
    ensures Inv(After(s, ReplayOne), k', missed)
    ensures k' == if s.session.upto - |s.session.snap| + s.session.at == k then k + 1 else k
  {
    var c, s' := s.session, After(s, ReplayOne);
    ReplayedIsNext(s, k, missed);
    k' := if c.upto - |c.snap| + c.at == k then k + 1 else k;
    ReplayAdvances(c, s.log, k, k', s'.session.replayed, s'.session.ended);
    if k' == k + 1 { DeliverHere(s.log, s.got, s.lastId, k, missed); }
    ReplayAfter(s, k, missed);
  }

  /** What a replay step does to the rest of the stream. */
  lemma {:induction false} ReplayAfter(s: Stream, k: nat, missed: set<nat>)
    requires Inv(s, k, missed) && Enabled(s, ReplayOne)
    ensures var c, s' := s.session, After(s, ReplayOne);
            && s'.counter == s.counter && s'.inflight == s.inflight && s'.log == s.log && s'.buffer == s.buffer
            && s'.session == c.(at := c.at + 1, replayed := s'.session.replayed, ended := s'.session.ended)
            && (if c.upto - |c.snap| + c.at == k then s'.got == s.got + [s.log[k]] && s'.lastId == s.log[k].id
                else s'.got == s.got && s'.lastId == s.lastId)
  {
    ReplayedIsNext(s, k, missed);
  }

  lemma {:induction false} QueueAdvances(queue: seq<Event>, log: seq<Event>)
    requires QueueIsTail(queue, log) && queue != []
    ensures QueueIsTail(queue[1..], log) && queue[0] == log[|log| - |queue|]
  {
  }

  lemma {:induction false} SkipKeepsInv(s: Stream, k: nat, missed: set<nat>)
    requires Inv(s, k, missed) && s.session.Streaming? && s.session.queue != []
    requires !s.session.queue[0].wire || s.session.queue[0].id <= s.lastId
    ensures Inv(s.(session := Streaming(s.session.queue[1..])), k, missed)
  {
    var queue := s.session.queue;
    QueueAdvances(queue, s.log);
    NewFromHere(s.log, k, |s.log| - |queue|);
    assert OnlyUndecodable(s.log, k, |s.log| - |queue| + 1);
  }

  lemma {:induction false} TakeKeepsInv(s: Stream, k: nat, missed: set<nat>, next: Session)
    returns (k': nat, missed': set<nat>)
    requires Inv(s, k, missed) && s.session.Streaming? && s.session.queue != []
    requires s.session.queue[0].id > s.lastId && (next == Offline || next == Streaming(s.session.queue[1..]))
    ensures Inv(Deliver(s, s.session.queue[0]).(session := next), k', missed')
    ensures k <= k' && SameBelow(missed, missed', k)
  {
    var queue := s.session.queue;
    var i := |s.log| - |queue|;
    QueueAdvances(queue, s.log);
    NewFromHere(s.log, k, i);
    StillLive(queue, s.log);
    DeliverNext(s.log, s.got, s.lastId, k, missed, i);
    SameBelowGrows(missed, k, i);
    k', missed' := i + 1, missed + Between(k, i);
    assert ClientInv(s.log, s.got + [queue[0]], queue[0].id, k', missed') && SessionInv(next, s.log, k');
  }

  lemma {:induction false} SameBelowGrows(missed: set<nat>, k: nat, i: nat)
    ensures SameBelow(missed, missed + Between(k, i), k)
  {
  }

  lemma {:induction false} StillLive(queue: seq<Event>, log: seq<Event>)
    requires QueueIsTail(queue, log) && queue != []
    ensures SessionInv(Streaming(queue[1..]), log, |log| - |queue| + 1)
  {
    QueueAdvances(queue, log);
  }

  lemma {:induction false} ReceiveKeepsInv(s: Stream, k: nat, missed: set<nat>) returns (k': nat, missed': set<nat>)
    requires Inv(s, k, missed) && Enabled(s, Receive)
    ensures Inv(After(s, Receive), k', missed') && Moves(Receive, k, missed, k', missed')
  {
    var e, rest := s.session.queue[0], Streaming(s.session.queue[1..]);
    if !e.wire || e.id <= s.lastId {
      SkipKeepsInv(s, k, missed);
      k', missed' := k, missed;
    } else {
      k', missed' := TakeKeepsInv(s, k, missed, if e.terminal then Offline else rest);
    }
  }

  lemma {:induction false} PieceAsSlice(snap: seq<Event>, upto: nat, log: seq<Event>)
    requires SnapIsPiece(snap, upto, log)
    ensures log[upto - |snap|..upto] == snap
  {
  }

  lemma {:induction false} DecideKeepsInv(s: Stream, k: nat, missed: set<nat>)
    requires Inv(s, k, missed) && Enabled(s, Decide)
    ensures Inv(After(s, Decide), k, missed)
  {
    var c := s.session;
    PieceAsSlice(c.snap, c.upto, s.log);
    NoGapMeansNoLoss(s.log, c.upto - |c.snap|, c.upto, k, s.counter);
  }

  lemma {:induction false} EndReplayKeepsInv(s: Stream, k: nat, missed: set<nat>)
    requires Inv(s, k, missed) && Enabled(s, EndReplay)
    ensures Inv(After(s, EndReplay), k, missed)
  {
    var c := s.session;
    assert k == c.upto;
    if c.snap != [] && c.snap[|c.snap| - 1].terminal {
      assert c.snap[|c.snap| - 1] == s.log[k - 1];
      DeliverAgain(s.log, s.got, s.lastId, k, missed);
    }
  }

  lemma {:induction false} BufferIsPiece(log: seq<Event>)
    ensures SnapIsPiece(Trim(log), |log|, log)
  {
  }

  /** Subscribing, reading the buffer and disconnecting. */
  lemma {:induction false} ConnectionKeepsInv(s: Stream, k: nat, missed: set<nat>, step: Step)
    requires Inv(s, k, missed) && Enabled(s, step) && (step.Connect? || step.Snapshot? || step.Disconnect?)
    ensures Inv(After(s, step), k, missed)
  {
    BufferIsPiece(s.log);
  }

  lemma {:induction false} CounterKeepsInv(s: Stream, k: nat, missed: set<nat>, step: Step)
    requires Inv(s, k, missed) && Enabled(s, step) && (step.Incr? || step.Fail?)
    ensures Inv(After(s, step), k, missed)
  {
    var s' := After(s, step);
    assert ServerInv(s'.counter, s'.inflight, s.log, s.buffer);
  }

  lemma {:induction false} StepKeepsInv(s: Stream, k: nat, missed: set<nat>, step: Step)
    returns (k': nat, missed': set<nat>)
    requires Inv(s, k, missed) && Enabled(s, step) && Orderly(s, step)
    ensures Inv(After(s, step), k', missed') && Moves(step, k, missed, k', missed')
  {
    k', missed' := k, missed;
    match step
    case Commit(e) => CommitKeepsInv(s, k, missed, e);
    case Decide => DecideKeepsInv(s, k, missed);
    case ReplayOne => k' := ReplayKeepsInv(s, k, missed);
    case EndReplay => EndReplayKeepsInv(s, k, missed);
    case Receive => k', missed' := ReceiveKeepsInv(s, k, missed);
    case Incr => CounterKeepsInv(s, k, missed, step);
    case Fail(_) => CounterKeepsInv(s, k, missed, step);
    case _ => ConnectionKeepsInv(s, k, missed, step);
  }

  ghost predicate OrderlyTrace(states: seq<Stream>, steps: seq<Step>) {
    Trace(states, steps) && forall i :: 0 <= i < |steps| ==> Orderly(states[i], steps[i])
  }

  lemma {:induction false} TraceInv(states: seq<Stream>, steps: seq<Step>, n: nat) returns (k: nat, missed: set<nat>)
    requires OrderlyTrace(states, steps) && n < |states|
    ensures Inv(states[n], k, missed)
  {
    if n == 0 {
      k, missed := 0, {};
    } else {
      k, missed := TraceInv(states, steps, n - 1);
      k, missed := StepKeepsInv(states[n - 1], k, missed, steps[n - 1]);
    }
  }

  /** How the client's place develops between two moments. */
  lemma {:induction false} TraceMoves(states: seq<Stream>, steps: seq<Step>, j: nat, n: nat, k: nat, missed: set<nat>)
    returns (k': nat, missed': set<nat>)
    requires OrderlyTrace(states, steps) && j <= n < |states| && Inv(states[j], k, missed)
    ensures Inv(states[n], k', missed') && k <= k' && SameBelow(missed, missed', k)
    ensures (forall i :: j <= i < n ==> !steps[i].Receive?) ==> missed' == missed
  {
    if j == n {
      k', missed' := k, missed;
    } else {
      k', missed' := TraceMoves(states, steps, j, n - 1, k, missed);
      k', missed' := StepKeepsInv(states[n - 1], k', missed', steps[n - 1]);
    }
  }

  lemma {:induction false} LogGrows(states: seq<Stream>, steps: seq<Step>, j: nat, n: nat)
    requires Trace(states, steps) && j <= n < |states|
    ensures |states[j].log| <= |states[n].log|
  {
    if j < n {
      LogGrows(states, steps, j, n - 1);
      assert states[n] == After(states[n - 1], steps[n - 1]);
    }
  }

  // What the client's place says about single events.

  lemma {:induction false} CollapseHolds(g: seq<Event>, e: Event)
    ensures e in Collapse(g) <==> e in g
  {
    if |g| > 1 {
      var n := |g| - 1;
      CollapseHolds(g[..n], e);
      assert g == g[..n] + [g[n]];
      if g[n] == g[n - 1] { assert g[..n][n - 1] == g[n]; }
    }
  }

  lemma {:induction false} KeepHolds(log: seq<Event>, k: nat, missed: set<nat>, i: nat)
    requires Increasing(log) && k <= |log| && i < |log|
    ensures log[i] in Keep(log, k, missed) <==> i < k && i !in missed
  {
    if k > 0 {
      KeepHolds(log, k - 1, missed, i);
      if i < k - 1 { assert log[i].id < log[k - 1].id; }
      if k - 1 < i { assert log[k - 1].id < log[i].id; }
    }
  }

  /** The client has received the event at `i` exactly if it lies before its place and was not missed. */
  lemma {:induction false} ReceivedExactly(s: Stream, k: nat, missed: set<nat>, i: nat)
    requires Inv(s, k, missed) && i < |s.log|
    ensures s.log[i] in s.got <==> i < k && i !in missed
  {
    CollapseHolds(s.got, s.log[i]);
    KeepHolds(s.log, k, missed, i);
  }

  /**
   Over any trace in which events are stored in the order of their ids, whether they decode
   or not: what the client has received is, with repetitions removed, the first `k` events of
   the log without the missed ones, all of which are undecodable; only a terminal event is
   ever repeated; so every decodable event before a received one has been received; and while
   the stream is live with nothing queued, the client has every decodable event there is.
   */
  lemma {:induction false} DecodableEventsArrive(states: seq<Stream>, steps: seq<Step>, n: nat)
    returns (k: nat, missed: set<nat>)
    requires OrderlyTrace(states, steps) && n < |states|
    ensures var s := states[n];
            && Increasing(s.log) && k <= |s.log| && Collapse(s.got) == Keep(s.log, k, missed)
            && OnlyTerminalsRepeat(s.got)
            && (forall i :: i in missed ==> i < k && !s.log[i].wire)
            && (forall i, m :: 0 <= i < m < |s.log| && s.log[m] in s.got && s.log[i].wire ==> s.log[i] in s.got)
            && (s.session == Streaming([]) ==> forall i :: 0 <= i < |s.log| && s.log[i].wire ==> s.log[i] in s.got)
  {
    k, missed := TraceInv(states, steps, n);
    var s := states[n];
    forall i | 0 <= i < |s.log| ensures s.log[i] in s.got <==> i < k && i !in missed {
      ReceivedExactly(s, k, missed, i);
    }
  }

  lemma {:induction false} NextIsUndecodable(log: seq<Event>, k: nat)
    requires OnlyUndecodable(log, k, |log|)
    ensures k < |log| ==> !log[k].wire
  {
  }

  lemma {:induction false} KeepAll(log: seq<Event>, k: nat)
    requires k <= |log|
    ensures Keep(log, k, {}) == log[..k]
  {
    if k > 0 {
      KeepAll(log, k - 1);
      assert log[..k] == log[..k - 1] + [log[k - 1]];
    }
  }

  /**
   Lossless resume: if moreover every stored event decodes, whatever the client has received,
   with repetitions removed, is a prefix of the log, and while the stream is live with nothing
   queued it is the whole log.
   */
  lemma {:induction false} LosslessResume(states: seq<Stream>, steps: seq<Step>, n: nat) returns (k: nat)
    requires OrderlyTrace(states, steps) && n < |states|
    requires forall i :: 0 <= i < |states[n].log| ==> states[n].log[i].wire
    ensures Increasing(states[n].log)
    ensures k <= |states[n].log| && Collapse(states[n].got) == states[n].log[..k]
    ensures OnlyTerminalsRepeat(states[n].got)
    ensures states[n].session == Streaming([]) ==> Collapse(states[n].got) == states[n].log
  {
    var missed;
    k, missed := TraceInv(states, steps, n);
    assert missed == {};
    KeepAll(states[n].log, k);
    if states[n].session == Streaming([]) { NextIsUndecodable(states[n].log, k); }
  }

  /** No event from position `i` on has been received. */
  ghost predicate NothingFrom(s: Stream, i: nat) {
    forall m :: i <= m < |s.log| ==> s.log[m] !in s.got
  }

  /**
   An event that was skipped live is received after all by the next resume that gets through
   its replay, if no later event was received before.
   */
  lemma {:induction false} SkippedEventIsRecovered(states: seq<Stream>, steps: seq<Step>, j: nat, n: nat, i: nat)
    requires OrderlyTrace(states, steps) && j <= n < |states| && NothingFrom(states[j], i)
    requires forall m :: j <= m < n ==> !steps[m].Receive?
    requires states[n].session.Replaying? && states[n].session.at == |states[n].session.snap|
    requires i < states[n].session.upto
    ensures i < |states[n].log| && states[n].log[i] in states[n].got
  {
    var k, missed := TraceInv(states, steps, j);
    var k', missed' := TraceMoves(states, steps, j, n, k, missed);
    assert k' == states[n].session.upto;
    if k > 0 { ReceivedExactly(states[j], k, missed, k - 1); }
    assert i >= k;
    ReceivedExactly(states[n], k', missed', i);
  }

  /** Once a later event has been received, an event that was skipped is lost for good. */
  lemma {:induction false} PassedEventIsLost(states: seq<Stream>, steps: seq<Step>, j: nat, n: nat, i: nat, m: nat)
    requires OrderlyTrace(states, steps) && j <= n < |states| && i < m < |states[j].log|
    requires states[j].log[m] in states[j].got && states[j].log[i] !in states[j].got
    ensures i < |states[n].log| && states[n].log[i] !in states[n].got
  {
    var k, missed := TraceInv(states, steps, j);
    ReceivedExactly(states[j], k, missed, m);
    ReceivedExactly(states[j], k, missed, i);
    var k', missed' := TraceMoves(states, steps, j, n, k, missed);
    LogGrows(states, steps, j, n);
    ReceivedExactly(states[n], k', missed', i);
  }

  // ---------------------------------------------------------------- what a resume does

  /** The rest of a replay that nothing disturbs. */
  function ReplayRest(s: Stream): (s': Stream)
    requires s.session.Replaying? && s.session.at <= |s.session.snap|
    decreases |s.session.snap| - s.session.at
  {
    if s.session.at == |s.session.snap| then After(s, EndReplay) else ReplayRest(After(s, ReplayOne))
  }

  /** A whole resume that nothing disturbs. */
  function Resume(s: Stream): (s': Stream)
    requires s.session.Offline?
  {
    var decided := After(AtBuffer(s), Decide);
    if decided.session.Offline? then decided else ReplayRest(decided)
  }

  predicate EndsTerminal(log: seq<Event>) {
    log != [] && log[|log| - 1].terminal
  }

  /** A replay of what is stored, with nothing queued behind it; the client's place is `k`. */
  ghost predicate Replays(s: Stream, k: nat) {
    && Increasing(s.log) && s.session.Replaying? && k <= |s.log| && s.lastId == IdAt(s.log, k)
    && var c := s.session;
       && c.queue == [] && SnapIsPiece(c.snap, |s.log|, s.log) && (c.snap == [] ==> s.log == [])
       && c.at <= |c.snap| && |s.log| - |c.snap| + c.at <= k
       && (if c.replayed then k > 0 && c.ended == s.log[k - 1].terminal else !c.ended)
  }

  /** The client has everything from `k` on, the last terminal event once `again` if so, and the connection follows. */
  ghost predicate Resumed(s: Stream, s': Stream, k: nat, again: bool)
    requires k <= |s.log|
  {
    && s'.log == s.log && s'.gaps == s.gaps && s'.lastId == IdAt(s.log, |s.log|)
    && s'.got == s.got + s.log[k..] + (if EndsTerminal(s.log) && again then [s.log[|s.log| - 1]] else [])
    && s'.session == if EndsTerminal(s.log) then Offline else Streaming([])
  }

  lemma {:induction false} ReplayEnds(s: Stream, k: nat)
    requires Replays(s, k) && s.session.at == |s.session.snap|
    ensures k == |s.log| && Resumed(s, After(s, EndReplay), k, !s.session.replayed)
  {
    var c := s.session;
    if c.snap != [] { assert c.snap[|c.snap| - 1] == s.log[|s.log| - 1]; }
  }

  /** One more step of such a replay: the client's place stays, or it gets the event there. */
  lemma {:induction false} ReplaysOn(s: Stream, k: nat) returns (k': nat)
    requires Replays(s, k) && s.session.at < |s.session.snap|
    ensures var s' := After(s, ReplayOne);
            && Replays(s', k') && s'.log == s.log && s'.gaps == s.gaps
            && k <= k' <= k + 1 && s'.got == s.got + s.log[k..k']
            && s'.session.replayed == (s.session.replayed || k < k')
  {
    var c := s.session;
    var i := |s.log| - |c.snap| + c.at;
    assert c.snap[c.at] == s.log[i];
    NewFromHere(s.log, k, i);
    k' := if i == k then k + 1 else k;
    assert s.log[k..k] == [] && (k < |s.log| ==> s.log[k..k + 1] == [s.log[k]]);
  }

  lemma {:induction false} ResumedFurther(s: Stream, mid: Stream, s': Stream, k: nat, k': nat, again: bool)
    requires k <= k' <= |s.log| && mid.log == s.log && mid.gaps == s.gaps && mid.got == s.got + s.log[k..k']
    requires Resumed(mid, s', k', again)
    ensures Resumed(s, s', k, again)
  {
    assert s.log[k..] == s.log[k..k'] + s.log[k'..];
  }

  lemma {:induction false} ReplayRestExactly(s: Stream, k: nat)
    requires Replays(s, k)
    ensures Resumed(s, ReplayRest(s), k, !s.session.replayed && k == |s.log|)
    decreases |s.session.snap| - s.session.at
  {
    if s.session.at == |s.session.snap| {
      ReplayEnds(s, k);
    } else {
      var mid := After(s, ReplayOne);
      var k' := ReplaysOn(s, k);
      ReplayRestExactly(mid, k');
      ResumedFurther(s, mid, ReplayRest(mid), k, k', !mid.session.replayed && k' == |s.log|);
    }
  }

  /** What the client lacks goes back beyond the buffer, or up to its start and the next number is not stored there. */
  ghost predicate Gap(log: seq<Event>, k: nat, latest: nat)
    requires k <= |log|
  {
    var start := if |log| <= 1000 then 0 else |log| - 1000;
    k < start || (k == start && latest > IdAt(log, k) && (k == |log| || log[k].id > IdAt(log, k) + 1))
  }

  lemma {:induction false} GapIsDecided(log: seq<Event>, k: nat, latest: nat)
    requires Increasing(log) && k <= |log| && forall i :: 0 <= i < |log| ==> log[i].id <= latest
    ensures HistoryGap(IdAt(log, k), Oldest(Trim(log)), latest) <==> Gap(log, k, latest)
  {
    var start := if |log| <= 1000 then 0 else |log| - 1000;
    assert Trim(log) == log[start..|log|];
    NoGapMeansNoLoss(log, start, |log|, k, latest);
    if start < k { NewFromHere(log, k, start); }
  }

  /** The state of a client that has subscribed and read the buffer. */
  function AtBuffer(s: Stream): (s': Stream)
    requires s.session.Offline?
    ensures s' == s.(session := Snapshotted([], s.buffer, |s.log|))
  {
    After(After(s, Connect), Snapshot)
  }

  /** The stream as its publishers leave it, and a client whose place in the log is `k`. */
  ghost predicate StandsAt(s: Stream, k: nat) {
    && ServerInv(s.counter, s.inflight, s.log, s.buffer) && s.session.Offline?
    && k <= |s.log| && s.lastId == IdAt(s.log, k)
  }

  lemma {:induction false} ReplayBegins(s: Stream, k: nat)
    requires StandsAt(s, k) && !Gap(s.log, k, s.counter)
    ensures var c := Replaying([], s.buffer, |s.log|, 0, false, false); Replays(s.(session := c), k)
  {
    BufferIsPiece(s.log);
  }

  lemma {:induction false} ResumeDecides(s: Stream, k: nat)
    requires StandsAt(s, k)
    ensures var d := After(AtBuffer(s), Decide);
            if Gap(s.log, k, s.counter) then d == s.(gaps := s.gaps + 1)
            else d == s.(session := Replaying([], s.buffer, |s.log|, 0, false, false))
  {
    GapIsDecided(s.log, k, s.counter);
  }

  /**
   A resume that nothing disturbs either reports a gap and delivers nothing, or delivers
   exactly what is stored after the client's place; a terminal event that the client already
   has is sent once more. The connection then ends if the last stored event is terminal, and
   is live otherwise.
   */
  lemma {:induction false} ResumeExactly(s: Stream, k: nat)
    requires StandsAt(s, k)
    ensures if Gap(s.log, k, s.counter) then Resume(s) == s.(gaps := s.gaps + 1)
            else Resumed(s, Resume(s), k, k == |s.log|)
  {
    ResumeDecides(s, k);
    if !Gap(s.log, k, s.counter) {
      var begun := s.(session := Replaying([], s.buffer, |s.log|, 0, false, false));
      ReplayBegins(s, k);
      ReplayRestExactly(begun, k);
      ResumedFrom(s, begun, ReplayRest(begun), k);
    }
  }

  lemma {:induction false} ResumedFrom(s: Stream, begun: Stream, s': Stream, k: nat)
    requires k <= |s.log| && begun == s.(session := begun.session) && Resumed(begun, s', k, k == |s.log|)
    ensures Resumed(s, s', k, k == |s.log|)
  {
  }

  // ---------------------------------------------------------------- both conditions are needed

  /**
   Exactly what is delivered live: a client with nothing queued, whose place is `k`, gets the
   next stored event if and only if it decodes and its id exceeds those of all events before
   that place. Otherwise it gets nothing, and no notice either.
   */
  lemma {:induction false} DeliveredExactlyInOrder(s: Stream, k: nat, missed: set<nat>, e: Event)
    requires Inv(s, k, missed) && s.session == Streaming([]) && e.id in s.inflight
    ensures var end := After(After(s, Commit(e)), Receive);
            && end.log == s.log + [e] && end.gaps == s.gaps
            && (end.got == s.got + [e] <==> e.wire && Newest(s.log[..k], e))
            && (!(e.wire && Newest(s.log[..k], e)) ==> end.got == s.got)
            && end.session == if e.wire && Newest(s.log[..k], e) && e.terminal then Offline else Streaming([])
  {
    LatestIdIsLargest(s.log, k, e);
    assert After(s, Commit(e)).session == Streaming([e]);
    assert [e][1..] == [];
  }

  lemma {:induction false} LatestIdIsLargest(log: seq<Event>, k: nat, e: Event)
    requires Increasing(log) && k <= |log| && e.id >= 1
    ensures Newest(log[..k], e) <==> IdAt(log, k) < e.id
  {
    if k > 0 {
      assert log[..k][k - 1] == log[k - 1];
      if IdAt(log, k) < e.id {
        forall i | 0 <= i < k ensures log[..k][i].id < e.id { assert i == k - 1 || log[i].id < log[k - 1].id; }
      }
    }
  }

  /** Two messages of a live client, the first undecodable: only the second is taken. */
  lemma {:induction false} UndecodableIsSkipped(s: Stream, bad: Event, good: Event)
    requires s.session == Streaming([bad, good]) && !bad.wire && good.wire && s.lastId < good.id
    ensures var end := After(After(s, Receive), Receive);
            && end.got == s.got + [good] && end.log == s.log && end.gaps == s.gaps
            && (!good.terminal ==> end.session == Streaming([]))
  {
    assert [bad, good][1..] == [good] && [good][1..] == [];
  }

  /** A live client drops, without notice, an event whose text does not decode. */
  lemma {:induction false} UndecodableEventIsLost(s: Stream, bad: Event, good: Event)
    requires s.session == Streaming([]) && s.inflight == {} && s.lastId <= s.counter
    requires !bad.wire && bad.id == s.counter + 1
    requires good.wire && good.id == s.counter + 2
    ensures var s1 := After(After(s, Incr), Commit(bad));
            var s2 := After(After(s1, Incr), Commit(good));
            var s3 := After(After(s2, Receive), Receive);
            && s3.log == s.log + [bad, good] && s3.got == s.got + [good] && s3.gaps == s.gaps
            && (!good.terminal ==> s3.session == Streaming([]))
  {
    var s1 := After(After(s, Incr), Commit(bad));
    var s2 := After(After(s1, Incr), Commit(good));
    assert s2.session == Streaming([bad, good]) && s2.log == s.log + [bad, good];
    assert s2.lastId < good.id;
    UndecodableIsSkipped(s2, bad, good);
  }

  /** Two messages of a live client, the second with a smaller id: only the first is taken. */
  lemma {:induction false} LaterIdHidesEarlier(s: Stream, x: Event, y: Event)
    requires s.session == Streaming([x, y]) && x.wire && !x.terminal && s.lastId < x.id && y.id < x.id
    ensures var end := After(After(s, Receive), Receive);
            end.got == s.got + [x] && end.session == Streaming([]) && end.log == s.log && end.gaps == s.gaps
  {
    assert [x, y][1..] == [y] && [y][1..] == [];
  }

  /** Two publishes that overtake each other lose the earlier one for a live client. */
  lemma {:induction false} OvertakingPublishIsLost(s: Stream, first: Event, second: Event)
    requires s.session == Streaming([]) && s.inflight == {} && s.lastId <= s.counter
    requires first.wire && second.wire && !second.terminal
    requires first.id == s.counter + 1 && second.id == s.counter + 2
    ensures var s1 := After(After(s, Incr), Incr);
            var s2 := After(After(s1, Commit(second)), Commit(first));
            var s3 := After(After(s2, Receive), Receive);
            && s3.log == s.log + [second, first] && s3.got == s.got + [second] && s3.gaps == s.gaps
            && s3.session == Streaming([])
  {
    var s1 := After(After(s, Incr), Incr);
    var s2 := After(After(s1, Commit(second)), Commit(first));
    assert s2.session == Streaming([second, first]);
    assert s2.log == s.log + [second, first];
    assert s2.lastId < second.id;
    LaterIdHidesEarlier(s2, second, first);
  }

  // ---------------------------------------------------------------- order of delivery, without assumptions

  predicate Ascending(got: seq<Event>) {
    forall i, j :: 0 <= i < j < |got| ==> got[i].id <= got[j].id
  }

  /** A resume re-sends the buffer's last event, a terminal one that was overtaken when it was stored. */
  predicate StaleResend(s: Stream, step: Step) {
    && step.EndReplay? && s.session.Replaying?
    && var c := s.session;
       && !c.ended && !c.replayed && c.snap != []
       && c.snap[|c.snap| - 1].terminal && c.snap[|c.snap| - 1].id < s.lastId
  }

  /** The client's Last-Event-ID is the id of the last event it received. */
  predicate LastIdInv(s: Stream) {
    s.lastId == if s.got == [] then 0 else s.got[|s.got| - 1].id
  }

  lemma {:induction false} AscendingGrows(got: seq<Event>, e: Event)
    ensures Ascending(got + [e]) <==> Ascending(got) && (got != [] ==> got[|got| - 1].id <= e.id)
  {
    var all := got + [e];
    assert forall i :: 0 <= i < |got| ==> all[i] == got[i];
    if Ascending(all) && got != [] {
      assert all[|got| - 1].id <= all[|got|].id;
    }
  }

  /** A step leaves what was received alone, or delivers one event; only a stale re-send goes back. */
  lemma {:induction false} StepKeepsOrder(s: Stream, step: Step)
    requires LastIdInv(s) && Enabled(s, step)
    ensures LastIdInv(After(s, step))
    ensures Ascending(After(s, step).got) <==> Ascending(s.got) && !StaleResend(s, step)
  {
    var s' := After(s, step);
    if s'.got != s.got {
      var e := s'.got[|s.got|];
      assert s'.got == s.got + [e];
      AscendingGrows(s.got, e);
    }
  }

  /**
   Whatever the publishers do: the ids that a client receives never decrease, if and only if
   no resume re-sends an overtaken terminal event.
   */
  lemma {:induction false} DeliveredIdsAscend(states: seq<Stream>, steps: seq<Step>, n: nat)
    requires Trace(states, steps) && n < |states|
    ensures LastIdInv(states[n])
    ensures Ascending(states[n].got) <==> forall i :: 0 <= i < n ==> !StaleResend(states[i], steps[i])
  {
    if n > 0 {
      DeliveredIdsAscend(states, steps, n - 1);
      StepKeepsOrder(states[n - 1], steps[n - 1]);
    }
  }

  /** Events that are stored in the order of their ids are never re-sent stale. */
  lemma {:induction false} InOrderIsNeverStale(s: Stream, k: nat, missed: set<nat>, step: Step)
    requires Inv(s, k, missed) && Enabled(s, step)
    ensures !StaleResend(s, step)
  {
    if step.EndReplay? && s.session.snap != [] {
      var c := s.session;
      assert k == c.upto && c.snap[|c.snap| - 1] == s.log[k - 1];
    }
  }

  /** One more step of a trace, with its outcome. */
  lemma {:induction false} Extend(states: seq<Stream>, steps: seq<Step>, step: Step, next: Stream)
    returns (states': seq<Stream>, steps': seq<Step>)
    requires Trace(states, steps) && Enabled(states[|steps|], step) && After(states[|steps|], step) == next
    ensures Trace(states', steps') && states'[|steps'|] == next
  {
    states', steps' := states + [next], steps + [step];
  }

  /** Connecting to an empty stream and becoming live. */
  lemma {:induction false} LiveAtOnce() returns (states: seq<Stream>, steps: seq<Step>)
    ensures Trace(states, steps) && states[|steps|] == INIT.(session := Streaming([]))
  {
    states, steps := [INIT], [];
    states, steps := Extend(states, steps, Connect, INIT.(session := Subscribed([])));
    states, steps := Extend(states, steps, Snapshot, INIT.(session := Snapshotted([], [], 0)));
    states, steps := Extend(states, steps, Decide, INIT.(session := Replaying([], [], 0, 0, false, false)));
    states, steps := Extend(states, steps, EndReplay, INIT.(session := Streaming([])));
  }

  /** Event 2 overtakes the terminal event 1; a live client receives only event 2, and disconnects. */
  lemma {:induction false} Overtaken(first: Event, second: Event) returns (states: seq<Stream>, steps: seq<Step>)
    requires first.id == 1 && first.wire && second.id == 2 && second.wire && !second.terminal
    ensures Trace(states, steps)
    ensures states[|steps|] == Stream(2, {}, [second, first], [second, first], Offline, [second], 2, 0)
  {
    states, steps := LiveAtOnce();
    states, steps := Extend(states, steps, Incr, Stream(1, {1}, [], [], Streaming([]), [], 0, 0));
    states, steps := Extend(states, steps, Incr, Stream(2, {1, 2}, [], [], Streaming([]), [], 0, 0));
    assert {1, 2} - {2} == {1} && {1} - {1} == {} && [] + [second] == [second];
    states, steps := Extend(states, steps, Commit(second),
                            Stream(2, {1}, [second], [second], Streaming([second]), [], 0, 0));
    states, steps := Extend(states, steps, Receive,
                            Stream(2, {1}, [second], [second], Streaming([]), [second], 2, 0));
    assert [second] + [first] == [second, first] && [] + [first] == [first];
    states, steps := Extend(states, steps, Commit(first),
                            Stream(2, {}, [second, first], [second, first], Streaming([first]), [second], 2, 0));
    states, steps := Extend(states, steps, Disconnect,
                            Stream(2, {}, [second, first], [second, first], Offline, [second], 2, 0));
  }

  /** Delivered ids can decrease: the overtaken terminal event is re-sent after a later one. */
  lemma {:induction false} StaleResendHappens(first: Event, second: Event)
    returns (states: seq<Stream>, steps: seq<Step>)
    requires first.id == 1 && first.wire && first.terminal && second.id == 2 && second.wire && !second.terminal
    ensures Trace(states, steps) && states[|steps|].got == [second, first] && !Ascending(states[|steps|].got)
  {
    states, steps := Overtaken(first, second);
    var b := [second, first];
    states, steps := Extend(states, steps, Connect, Stream(2, {}, b, b, Subscribed([]), [second], 2, 0));
    states, steps := Extend(states, steps, Snapshot, Stream(2, {}, b, b, Snapshotted([], b, 2), [second], 2, 0));
    states, steps := Extend(states, steps, Decide,
                            Stream(2, {}, b, b, Replaying([], b, 2, 0, false, false), [second], 2, 0));
    states, steps := Extend(states, steps, ReplayOne,
                            Stream(2, {}, b, b, Replaying([], b, 2, 1, false, false), [second], 2, 0));
    states, steps := Extend(states, steps, ReplayOne,
                            Stream(2, {}, b, b, Replaying([], b, 2, 2, false, false), [second], 2, 0));
    assert [second] + [first] == b;
    states, steps := Extend(states, steps, EndReplay, Stream(2, {}, b, b, Offline, b, 1, 0));
    assert b[0].id > b[1].id;
  }

  /**
   Exactly when a gap is reported: something that the client lacks has left the buffer, or
   the client's place is where the buffer starts and the number after its last one was taken
   but not stored there.
   */
  lemma {:induction false} GapExactly(s: Stream, k: nat, missed: set<nat>)
    requires Inv(s, k, missed) && s.session.Snapshotted?
    ensures var c := s.session;
            var start := c.upto - |c.snap|;
            HistoryGap(s.lastId, Oldest(c.snap), s.counter) <==>
              || k < start
              || (k == start && s.counter > s.lastId && (k == c.upto || s.log[k].id > s.lastId + 1))
  {
    var c := s.session;
    var start := c.upto - |c.snap|;
    PieceAsSlice(c.snap, c.upto, s.log);
    NoGapMeansNoLoss(s.log, start, c.upto, k, s.counter);
    if start < k { NewFromHere(s.log, k, start); }
  }

  /**
   A gap notice does not mean that something was lost: a number that was taken and not yet
   stored, or never will be, is enough.
   */
  lemma {:induction false} GapWithoutLoss() returns (states: seq<Stream>, steps: seq<Step>)
    ensures Trace(states, steps) && states[|steps|].gaps == 1 && states[|steps|].log == []
  {
    var s := INIT.(counter := 1, inflight := {1});
    states, steps := [INIT], [];
    states, steps := Extend(states, steps, Incr, s);
    states, steps := Extend(states, steps, Connect, s.(session := Subscribed([])));
    states, steps := Extend(states, steps, Snapshot, s.(session := Snapshotted([], [], 0)));
    states, steps := Extend(states, steps, Decide, s.(gaps := 1));
  }

  /** An undecodable event is skipped by a live client. */
  lemma {:induction false} SkippedLive(bad: Event) returns (states: seq<Stream>, steps: seq<Step>)
    requires bad.id == 1 && !bad.wire
    ensures Trace(states, steps) && states[|steps|] == Stream(1, {}, [bad], [bad], Offline, [], 0, 0)
  {
    var b := [bad];
    states, steps := LiveAtOnce();
    states, steps := Extend(states, steps, Incr, Stream(1, {1}, [], [], Streaming([]), [], 0, 0));
    assert {1} - {1} == {} && [] + b == b && b[1..] == [];
    states, steps := Extend(states, steps, Commit(bad), Stream(1, {}, b, b, Streaming(b), [], 0, 0));
    states, steps := Extend(states, steps, Receive, Stream(1, {}, b, b, Streaming([]), [], 0, 0));
    states, steps := Extend(states, steps, Disconnect, Stream(1, {}, b, b, Offline, [], 0, 0));
  }

  /** An undecodable event is skipped live and received by the next resume. */
  lemma {:induction false} SkippedThenResumed(bad: Event) returns (states: seq<Stream>, steps: seq<Step>)
    requires bad.id == 1 && !bad.wire
    ensures Trace(states, steps) && states[|steps|].got == [bad] && states[|steps|].gaps == 0
  {
    var b := [bad];
    states, steps := SkippedLive(bad);
    states, steps := Extend(states, steps, Connect, Stream(1, {}, b, b, Subscribed([]), [], 0, 0));
    states, steps := Extend(states, steps, Snapshot, Stream(1, {}, b, b, Snapshotted([], b, 1), [], 0, 0));
    states, steps := Extend(states, steps, Decide,
                            Stream(1, {}, b, b, Replaying([], b, 1, 0, false, false), [], 0, 0));
    states, steps := Extend(states, steps, ReplayOne,
                            Stream(1, {}, b, b, Replaying([], b, 1, 1, true, bad.terminal), b, 1, 0));
  }
}
