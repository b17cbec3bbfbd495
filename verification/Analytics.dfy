/**
 Usage metrics: messages are gathered into time buckets, and a row is emitted for every
 bucket of the requested period. Times are microseconds from the epoch, in UTC.
 */
module Analytics {
  import opened Common

  const SECOND: int := 1_000_000
  const MINUTE: int := 60 * SECOND
  const HOUR: int := 60 * MINUTE
  const DAY: int := 24 * HOUR

  /** A number read from loosely typed usage data. */
  datatype Number = Finite(value: real) | NotFinite

  datatype Usage = Usage(cost: Number, prompt: int, completion: int, total: int, cached: int, ttft: Number, ttr: int)

  /** A message after the fallback for missing usage data; `thinking` is the fallback response time. */
  datatype Message = Message(at: int, assistant: bool, usage: Option<Usage>, thinking: Option<nat>)

  datatype Figures = Figures(cost: real, prompt: int, completion: int, cached: int, total: int)

  datatype Stats = Stats(figures: Figures, ttftSum: real, ttftCount: nat, ttrSum: int, ttrCount: nat)

  datatype Row = Row(start: int, figures: Figures, avgTtft: Option<real>, avgTtr: Option<real>)

  datatype Report = Report(rows: seq<Row>, figures: Figures, avgTtft: Option<real>, avgTtr: Option<real>)

  const NO_FIGURES := Figures(0.0, 0, 0, 0, 0)
  const NO_STATS := Stats(NO_FIGURES, 0.0, 0, 0, 0)

  function PlusFigures(a: Figures, b: Figures): (c: Figures) {
    Figures(a.cost + b.cost, a.prompt + b.prompt, a.completion + b.completion, a.cached + b.cached, a.total + b.total)
  }

  function Plus(a: Stats, b: Stats): (c: Stats) {
    Stats(PlusFigures(a.figures, b.figures), a.ttftSum + b.ttftSum, a.ttftCount + b.ttftCount,
          a.ttrSum + b.ttrSum, a.ttrCount + b.ttrCount)
  }

  // ---------------------------------------------------------------- periods and buckets

  datatype Request = Request(lastDays: Option<nat>, startDate: Option<int>, endDate: Option<int>,
                             startTime: Option<int>, endTime: Option<int>)

  datatype Period = Period(start: int, end: int, byTime: bool)

  datatype BadRequest = StartAfterEnd

  predicate TimePeriod(p: Period) { p.byTime && p.start <= p.end }

  predicate DatePeriod(p: Period) { !p.byTime && p.start <= p.end && p.start % DAY == 0 }

  function DateOf(t: int): (day: int) { t / DAY }

  function Midnight(day: int): (t: int) { day * DAY }

  /** The days that a request without a start asks for. */
  function Days(r: Request): (days: nat)
    ensures days >= 1 && (r.lastDays.Some? && r.lastDays.value >= 1 ==> days == r.lastDays.value)
  {
    if r.lastDays.Some? && r.lastDays.value > 0 then r.lastDays.value else 7
  }

  /** Explicit times win over dates, and dates over a number of days. */
  function ResolvePeriod(r: Request, now: int): (p: Result<Period, BadRequest>)
    ensures p.Ok? ==> if r.startTime.Some? || r.endTime.Some? then TimePeriod(p.value) else DatePeriod(p.value)
  {
    var days := Days(r);
    if r.startTime.Some? || r.endTime.Some? then
      var s, e := r.startTime.GetOr(now - days * DAY), r.endTime.GetOr(now);
      if s > e then Err(StartAfterEnd) else Ok(Period(s, e, true))
    else if r.startDate.Some? then
      var s, e := r.startDate.value, r.endDate.GetOr(DateOf(now));
      if s > e then Err(StartAfterEnd) else Ok(Period(Midnight(s), Midnight(e) + DAY - 1, false))
    else
      Ok(Period(Midnight(DateOf(now) - (days - 1)), now, false))
  }

  predicate Within(t: int, p: Period) { p.start <= t <= p.end }

  /**
   The moments of a period: between the times asked for; or all those of the days asked for;
   or those up to now of the last days, today included. It is refused if it starts after its end.
   */
  lemma {:induction false} PeriodHolds(r: Request, now: int, t: int)
    ensures var p := ResolvePeriod(r, now);
            if r.startTime.Some? || r.endTime.Some? then
              var s, e := r.startTime.GetOr(now - Days(r) * DAY), r.endTime.GetOr(now);
              (p.Err? <==> e < s) && (p.Ok? ==> (Within(t, p.value) <==> s <= t <= e))
            else if r.startDate.Some? then
              var s, e := r.startDate.value, r.endDate.GetOr(DateOf(now));
              (p.Err? <==> e < s) && (p.Ok? ==> (Within(t, p.value) <==> s <= DateOf(t) <= e))
            else
              p.Ok? && (Within(t, p.value) <==> t <= now && DateOf(now) - Days(r) < DateOf(t))
  {
    DateBounds(t);
    DateBounds(now);
    if r.startTime.None? && r.endTime.None? {
      if r.startDate.Some? {
        DateOrder(r.startDate.value, DateOf(t));
        DateOrder(DateOf(t), r.endDate.GetOr(DateOf(now)));
      } else {
        DateOrder(DateOf(now) - (Days(r) - 1), DateOf(t));
      }
    }
  }

  lemma {:induction false} DateBounds(t: int)
    ensures Midnight(DateOf(t)) <= t < Midnight(DateOf(t)) + DAY
  {
  }

  lemma {:induction false} DateOrder(a: int, b: int)
    ensures a <= b <==> Midnight(a) <= Midnight(b)
    ensures a < b <==> Midnight(a) + DAY <= Midnight(b)
  {
    assert Midnight(b) - Midnight(a) == (b - a) * DAY;
  }

  function SelectBucketSize(p: Period): (width: int)
    ensures width > 0 && width % SECOND == 0
    ensures 0 <= p.end - p.start <= 90 * DAY ==> p.end - p.start <= 90 * width
    ensures width in {5 * MINUTE, 15 * MINUTE, HOUR, 6 * HOUR, DAY, 7 * DAY}
    ensures width > 5 * MINUTE <==> p.end - p.start > 2 * HOUR
    ensures width > 15 * MINUTE <==> p.end - p.start > 12 * HOUR
    ensures width > HOUR <==> p.end - p.start > 2 * DAY
    ensures width > 6 * HOUR <==> p.end - p.start > 14 * DAY
    ensures width > DAY <==> p.end - p.start > 90 * DAY
  {
    var span := p.end - p.start;
    if span <= 2 * HOUR then 5 * MINUTE
    else if span <= 12 * HOUR then 15 * MINUTE
    else if span <= 48 * HOUR then HOUR
    else if span <= 14 * DAY then 6 * HOUR
    else if span <= 90 * DAY then DAY
    else 7 * DAY
  }

  function BucketSize(p: Period): (width: int)
    ensures width > 0 && width % SECOND == 0
  {
    if p.byTime then SelectBucketSize(p) else DAY
  }

  /** Whole seconds, truncated toward zero. */
  function WholeSeconds(t: int): (s: int)
    ensures t >= 0 ==> s * SECOND <= t < (s + 1) * SECOND
    ensures t <= 0 ==> (s - 1) * SECOND < t <= s * SECOND
  {
    if t >= 0 then t / SECOND else -((-t) / SECOND)
  }

  function FloorToBucket(t: int, width: int): (b: int)
    requires width > 0 && width % SECOND == 0
  {
    var w := width / SECOND;
    WholeSeconds(t) / w * w * SECOND
  }

  // ---------------------------------------------------------------- the accumulation

  function Clamp(n: int): (r: int) { if n < 0 then 0 else n }

  /** What one message adds; usage that is not a number, or negative, adds nothing. */
  function Contribution(m: Message): (s: Stats) {
    var ttr: Option<int> := if m.usage.Some? && m.usage.value.ttr >= 0 then Some(m.usage.value.ttr) else m.thinking;
    var (ttrSum, ttrCount) := if ttr.Some? then (ttr.value, 1) else (0, 0);
    if m.usage.None? then Stats(NO_FIGURES, 0.0, 0, ttrSum, ttrCount)
    else
      var u := m.usage.value;
      var cost := if u.cost.Finite? && u.cost.value >= 0.0 then u.cost.value else 0.0;
      var (ttftSum, ttftCount) := if u.ttft.Finite? && u.ttft.value >= 0.0 then (u.ttft.value, 1) else (0.0, 0);
      Stats(Figures(cost, Clamp(u.prompt), Clamp(u.completion), Clamp(u.cached), Clamp(u.total)),
            ttftSum, ttftCount, ttrSum, ttrCount)
  }

  predicate Counted(m: Message, p: Period) {
    m.assistant && p.start <= m.at <= p.end
  }

  /** What the loop makes of a message: nothing, or an addition to one bucket. */
  datatype Item = Skipped | Item(bucket: int, add: Stats)

  function ItemOf(m: Message, p: Period): (i: Item) {
    if Counted(m, p) then Item(FloorToBucket(m.at, BucketSize(p)), Contribution(m)) else Skipped
  }

  function Items(ms: seq<Message>, p: Period): (items: seq<Item>)
    ensures |items| == |ms| && forall i :: 0 <= i < |ms| ==> items[i] == ItemOf(ms[i], p)
  {
    seq(|ms|, i requires 0 <= i < |ms| => ItemOf(ms[i], p))
  }

  /** Everything the first `n` items add up to. */
  function Sum(items: seq<Item>, n: nat): (s: Stats)
    requires n <= |items|
  {
    if n == 0 then NO_STATS
    else if items[n - 1].Item? then Plus(Sum(items, n - 1), items[n - 1].add)
    else Sum(items, n - 1)
  }

  predicate InBucket(i: Item, b: int) {
    i.Item? && i.bucket == b
  }

  /** What the items of one bucket add up to. */
  function BucketSum(items: seq<Item>, n: nat, b: int): (s: Stats)
    requires n <= |items|
  {
    if n == 0 then NO_STATS
    else if InBucket(items[n - 1], b) then Plus(BucketSum(items, n - 1, b), items[n - 1].add)
    else BucketSum(items, n - 1, b)
  }

  function Lookup(buckets: map<int, Stats>, b: int): (s: Stats) {
    if b in buckets then buckets[b] else NO_STATS
  }

  /** The map holds, for every time, the sum of that bucket. */
  ghost predicate Sums(buckets: map<int, Stats>, items: seq<Item>, n: nat)
    requires n <= |items|
  {
    forall b :: Lookup(buckets, b) == BucketSum(items, n, b)
  }

  /** The body of the accumulation loop. */
  method AddItem(buckets: map<int, Stats>, totals: Stats, item: Item, ghost items: seq<Item>, ghost n: nat)
    returns (buckets': map<int, Stats>, totals': Stats)
    requires n < |items| && item == items[n] && Sums(buckets, items, n) && totals == Sum(items, n)
    ensures Sums(buckets', items, n + 1) && totals' == Sum(items, n + 1)
  {
    buckets', totals' := buckets, totals;
    if item.Item? {
      totals' := Plus(totals, item.add);
      buckets' := buckets[item.bucket := Plus(Lookup(buckets, item.bucket), item.add)];
      forall b ensures Lookup(buckets', b) == BucketSum(items, n + 1, b) {
        assert Lookup(buckets, b) == BucketSum(items, n, b);
      }
    }
  }

  /** The accumulation loop, over what each message adds. */
  method AddUp(items: seq<Item>) returns (buckets: map<int, Stats>, totals: Stats)
    ensures totals == Sum(items, |items|) && Sums(buckets, items, |items|)
  {
    buckets, totals := map[], NO_STATS;
    for i := 0 to |items|
      invariant totals == Sum(items, i) && Sums(buckets, items, i)
    {
      buckets, totals := AddItem(buckets, totals, items[i], items, i);
    }
  }

  method Accumulate(ms: seq<Message>, p: Period) returns (buckets: map<int, Stats>, totals: Stats)
    ensures totals == Sum(Items(ms, p), |ms|)
    ensures Sums(buckets, Items(ms, p), |ms|)
  {
    buckets, totals := AddUp(Items(ms, p));
  }

  // ---------------------------------------------------------------- buckets tile the period

  lemma {:induction false} FloorIsMultiple(t: int, width: int)
    requires width > 0 && width % SECOND == 0
    ensures FloorToBucket(t, width) % width == 0
    ensures var whole := WholeSeconds(t) * SECOND;
            FloorToBucket(t, width) <= whole < FloorToBucket(t, width) + width
  {
    var w, s := width / SECOND, WholeSeconds(t);
    var q := s / w;
    assert width == w * SECOND;
    assert q * w <= s < q * w + w by { DivBounds(s, w); }
    assert FloorToBucket(t, width) == q * width;
    MultipleMod(q, width);
  }

  lemma {:induction false} DivBounds(s: int, w: int)
    requires w > 0
    ensures s / w * w <= s < s / w * w + w
  {
  }

  lemma {:induction false} MultipleMod(q: int, w: int)
    requires w > 0
    ensures q * w % w == 0
  {
    var r := q * w % w;
    var k := q * w / w;
    assert q * w == k * w + r;
    assert (q - k) * w == r;
    SmallMultiple(q - k, w);
  }

  lemma {:induction false} SmallMultiple(k: int, w: int)
    requires w > 0 && -w < k * w < w
    ensures k == 0
  {
    assert k >= 1 ==> k * w >= w;
    assert k <= -1 ==> k * w <= -w;
  }

  lemma {:induction false} MultiplesApart(a: int, b: int, w: int)
    requires w > 0 && a % w == 0 && b % w == 0 && a <= b < a + w
    ensures a == b
  {
    assert a == a / w * w && b == b / w * w;
    assert (b / w - a / w) * w == b - a;
    SmallMultiple(b / w - a / w, w);
  }

  lemma {:induction false} FloorIsMonotone(s: int, t: int, width: int)
    requires width > 0 && width % SECOND == 0 && s <= t
    ensures FloorToBucket(s, width) <= FloorToBucket(t, width)
  {
    var a, b := FloorToBucket(s, width), FloorToBucket(t, width);
    FloorIsMultiple(s, width);
    FloorIsMultiple(t, width);
    assert WholeSeconds(s) <= WholeSeconds(t);
    if b < a {
      assert b <= a < b + width;
      MultiplesApart(b, a, width);
    }
  }

  /** From 1970 on, a bucket starts no later than the times it holds. */
  lemma {:induction false} FloorIsBelow(t: int, width: int)
    requires width > 0 && width % SECOND == 0 && t >= 0
    ensures FloorToBucket(t, width) <= t < FloorToBucket(t, width) + width
  {
    FloorIsMultiple(t, width);
  }

  /** `times` are all the bucket starts from that of the period's start to its end, in order. */
  ghost predicate Tiles(times: seq<int>, p: Period) {
    var width := BucketSize(p);
    && (forall i, j :: 0 <= i < j < |times| ==> times[i] < times[j])
    && forall b :: b in times <==> FloorToBucket(p.start, width) <= b <= p.end && b % width == 0
  }

  /** What the first `k` rows at `times` report, all statistics together. */
  function SumOver(items: seq<Item>, n: nat, times: seq<int>, k: nat): (s: Stats)
    requires n <= |items| && k <= |times|
  {
    if k == 0 then NO_STATS
    else Plus(SumOver(items, n, times, k - 1), BucketSum(items, n, times[k - 1]))
  }

  lemma {:induction false} NothingOverNone(items: seq<Item>, times: seq<int>, k: nat)
    requires k <= |times|
    ensures SumOver(items, 0, times, k) == NO_STATS
  {
    if k > 0 { NothingOverNone(items, times, k - 1); }
  }

  /** An item whose bucket has no row is not in the rows' sum. */
  lemma {:induction false} MissedItem(items: seq<Item>, n: nat, times: seq<int>, k: nat)
    requires 0 < n <= |items| && k <= |times| && forall i :: 0 <= i < k ==> !InBucket(items[n - 1], times[i])
    ensures SumOver(items, n, times, k) == SumOver(items, n - 1, times, k)
  {
    if k > 0 { MissedItem(items, n, times, k - 1); }
  }

  lemma {:induction false} PlusMoves(a: Stats, b: Stats, c: Stats)
    ensures Plus(Plus(a, c), b) == Plus(Plus(a, b), c) == Plus(a, Plus(b, c))
  {
  }

  /** An item whose bucket has a row is counted in the rows' sum once. */
  lemma {:induction false} HitItem(items: seq<Item>, n: nat, times: seq<int>, j: nat, k: nat)
    requires 0 < n <= |items| && j < k <= |times| && InBucket(items[n - 1], times[j])
    requires forall i, j :: 0 <= i < j < |times| ==> times[i] < times[j]
    ensures SumOver(items, n, times, k) == Plus(SumOver(items, n - 1, times, k), items[n - 1].add)
  {
    var last := BucketSum(items, n - 1, times[k - 1]);
    if j == k - 1 {
      MissedItem(items, n, times, k - 1);
    } else {
      HitItem(items, n, times, j, k - 1);
      assert BucketSum(items, n, times[k - 1]) == last;
    }
    PlusMoves(SumOver(items, n - 1, times, k - 1), last, items[n - 1].add);
  }

  /** If every bucket has a row, the rows add up to everything. */
  lemma {:induction false} ItemsAddUp(items: seq<Item>, n: nat, times: seq<int>)
    requires n <= |items| && forall i :: 0 <= i < n && items[i].Item? ==> items[i].bucket in times
    requires forall i, j :: 0 <= i < j < |times| ==> times[i] < times[j]
    ensures SumOver(items, n, times, |times|) == Sum(items, n)
  {
    if n == 0 {
      NothingOverNone(items, times, |times|);
    } else {
      ItemsAddUp(items, n - 1, times);
      if items[n - 1].Item? {
        var j :| 0 <= j < |times| && times[j] == items[n - 1].bucket;
        HitItem(items, n, times, j, |times|);
      } else {
        MissedItem(items, n, times, |times|);
      }
    }
  }

  /** The bucket of a counted message has a row, if the period's end does not fall before its own bucket. */
  lemma {:induction false} CountedMessageHasRow(m: Message, p: Period, times: seq<int>)
    requires Tiles(times, p) && Counted(m, p) && FloorToBucket(p.end, BucketSize(p)) <= p.end
    ensures FloorToBucket(m.at, BucketSize(p)) in times
  {
    FloorIsMonotone(p.start, m.at, BucketSize(p));
    FloorIsMonotone(m.at, p.end, BucketSize(p));
    FloorIsMultiple(m.at, BucketSize(p));
  }

  /** The rows of a period report exactly what its messages add up to. */
  lemma {:induction false} RowsAddUp(ms: seq<Message>, p: Period, times: seq<int>)
    requires Tiles(times, p) && FloorToBucket(p.end, BucketSize(p)) <= p.end
    ensures SumOver(Items(ms, p), |ms|, times, |times|) == Sum(Items(ms, p), |ms|)
  {
    var items := Items(ms, p);
    forall i | 0 <= i < |ms| && items[i].Item? ensures items[i].bucket in times {
      CountedMessageHasRow(ms[i], p, times);
    }
    ItemsAddUp(items, |ms|, times);
  }

  /** A message of one token at a given time. */
  function Probe(at: int): (m: Message) {
    Message(at, true, Some(Usage(Finite(0.0), 0, 0, 1, 0, NotFinite, -1)), None)
  }

  /** Whatever is counted in a period is in its rows. */
  ghost predicate Conserves(p: Period, times: seq<int>) {
    forall ms: seq<Message> :: SumOver(Items(ms, p), |ms|, times, |times|) == Sum(Items(ms, p), |ms|)
  }

  lemma {:induction false} LostMessage(p: Period, times: seq<int>) returns (ms: seq<Message>)
    requires p.start <= p.end && Tiles(times, p) && FloorToBucket(p.end, BucketSize(p)) > p.end
    ensures SumOver(Items(ms, p), |ms|, times, |times|) != Sum(Items(ms, p), |ms|)
  {
    ms := [Probe(p.end)];
    var items := Items(ms, p);
    assert items[0] == ItemOf(ms[0], p) && items[0].bucket > p.end;
    forall i | 0 <= i < |times| ensures !InBucket(items[0], times[i]) { assert times[i] in times; }
    LostItem(items, times);
  }

  lemma {:induction false} LostItem(items: seq<Item>, times: seq<int>)
    requires |items| == 1 && items[0].Item? && items[0].add.figures.total == 1
    requires forall i :: 0 <= i < |times| ==> !InBucket(items[0], times[i])
    ensures SumOver(items, 1, times, |times|) != Sum(items, 1)
  {
    MissedItem(items, 1, times, |times|);
    NothingOverNone(items, times, |times|);
    assert Sum(items, 0) == NO_STATS;
  }

  /**
   The rows of a period report exactly its totals, for every set of messages, if and only if
   the end of the period does not fall before the start of its own bucket.
   */
  lemma {:induction false} ConservedExactly(p: Period, times: seq<int>)
    requires p.start <= p.end && Tiles(times, p)
    ensures Conserves(p, times) <==> FloorToBucket(p.end, BucketSize(p)) <= p.end
  {
    if FloorToBucket(p.end, BucketSize(p)) <= p.end {
      forall ms: seq<Message> ensures SumOver(Items(ms, p), |ms|, times, |times|) == Sum(Items(ms, p), |ms|) {
        RowsAddUp(ms, p, times);
      }
    } else {
      var ms := LostMessage(p, times);
    }
  }

  /** From 1970 on the condition always holds; before, a fraction of a second can break it. */
  lemma {:induction false} ConservedSince1970(p: Period, times: seq<int>)
    requires p.start <= p.end && p.end >= 0 && Tiles(times, p)
    ensures Conserves(p, times)
  {
    FloorIsBelow(p.end, BucketSize(p));
    ConservedExactly(p, times);
  }

  lemma {:induction false} LostBefore1970()
    ensures var p := Period(-500_000, -200_000, true);
            Tiles([], p) && !Conserves(p, [])
  {
    var p := Period(-500_000, -200_000, true);
    assert BucketSize(p) == 5 * MINUTE;
    assert FloorToBucket(p.start, BucketSize(p)) == 0;
    ConservedExactly(p, []);
  }

  // ---------------------------------------------------------------- the rows

  function Average(sum: real, count: nat): (r: Option<real>) {
    if count > 0 then Some(sum / count as real) else None
  }

  function RowOf(start: int, s: Stats): (r: Row) {
    Row(start, s.figures, Average(s.ttftSum, s.ttftCount), Average(s.ttrSum as real, s.ttrCount))
  }

  function Starts(rows: seq<Row>): (times: seq<int>)
    ensures |times| == |rows|
  {
    seq(|rows|, i requires 0 <= i < |rows| => rows[i].start)
  }

  /** Every multiple of the width from `first` up to `next`, once each, in order. */
  ghost predicate Steps(times: seq<int>, first: int, next: int, width: int)
    requires width > 0
  {
    && (forall i, j :: 0 <= i < j < |times| ==> times[i] < times[j])
    && (forall b :: b in times <==> first <= b < next && b % width == 0)
    && |times| * width == next - first
  }

  lemma {:induction false} StepOn(times: seq<int>, first: int, next: int, width: int)
    requires width > 0 && Steps(times, first, next, width) && first <= next && next % width == 0
    ensures Steps(times + [next], first, next + width, width) && (next + width) % width == 0
  {
    var more := times + [next];
    forall i | 0 <= i < |times| ensures times[i] < next { assert times[i] in times; }
    forall b ensures b in more <==> first <= b < next + width && b % width == 0 {
      assert b in more <==> b in times || b == next;
      if next <= b < next + width && b % width == 0 { MultiplesApart(next, b, width); }
    }
    MultipleMod(next / width + 1, width);
    assert (next / width + 1) * width == next + width;
    assert (|times| + 1) * width == |times| * width + width;
  }

  /** Each row carries the figures of the messages of its bucket. */
  ghost predicate RowsTell(rows: seq<Row>, items: seq<Item>) {
    forall i :: 0 <= i < |rows| ==> rows[i] == RowOf(rows[i].start, BucketSum(items, |items|, rows[i].start))
  }

  function SumRows(rows: seq<Row>, k: nat): (f: Figures)
    requires k <= |rows|
  {
    if k == 0 then NO_FIGURES else PlusFigures(SumRows(rows, k - 1), rows[k - 1].figures)
  }

  lemma {:induction false} RowFiguresSum(rows: seq<Row>, k: nat, items: seq<Item>)
    requires RowsTell(rows, items) && k <= |rows|
    ensures SumRows(rows, k) == SumOver(items, |items|, Starts(rows), k).figures
  {
    if k > 0 { RowFiguresSum(rows, k - 1, items); }
  }

  /** The row loop when the request gives times: one row per bucket. */
  method EmitByTime(ghost items: seq<Item>, p: Period, buckets: map<int, Stats>) returns (rows: seq<Row>)
    requires TimePeriod(p)
    requires Sums(buckets, items, |items|)
    ensures Tiles(Starts(rows), p) && RowsTell(rows, items)
    ensures p.end - p.start <= 90 * DAY ==> |rows| <= 91
  {
    rows := [];
    var width := BucketSize(p);
    var first := FloorToBucket(p.start, width);
    FloorIsMultiple(p.start, width);
    var current := first;
    while current <= p.end
      invariant first <= current && current % width == 0
      invariant Steps(Starts(rows), first, current, width)
      invariant current <= p.end + width || rows == []
      invariant RowsTell(rows, items)
      decreases p.end - current
    {
      ghost var before := Starts(rows);
      StepOn(before, first, current, width);
      rows := rows + [RowOf(current, Lookup(buckets, current))];
      assert Starts(rows) == before + [current];
      current := current + width;
    }
    StepsTile(Starts(rows), current, p);
    if p.end - p.start <= 90 * DAY { FewRows(|rows|, current, p); }
  }

  /** The row loop when the request gives dates: one row per calendar day. */
  method EmitByDate(ghost items: seq<Item>, p: Period, buckets: map<int, Stats>) returns (rows: seq<Row>)
    requires DatePeriod(p)
    requires Sums(buckets, items, |items|)
    ensures Tiles(Starts(rows), p) && RowsTell(rows, items)
    ensures |rows| == DateOf(p.end) - DateOf(p.start) + 1
  {
    rows := [];
    var first, date := DateOf(p.start), DateOf(p.start);
    var last := DateOf(p.end);
    DaysCover(p.start, p.end);
    while date <= last
      invariant first <= date <= last + 1 && |rows| == date - first
      invariant Steps(Starts(rows), Midnight(first), Midnight(date), DAY)
      invariant RowsTell(rows, items)
      decreases last - date
    {
      var current := Midnight(date);
      ghost var before := Starts(rows);
      NextDay(before, first, date);
      rows := rows + [RowOf(current, Lookup(buckets, current))];
      assert Starts(rows) == before + [current];
      date := date + 1;
    }
    StepsTile(Starts(rows), Midnight(date), p);
  }

  lemma {:induction false} NextDay(times: seq<int>, first: int, date: int)
    requires first <= date && Steps(times, Midnight(first), Midnight(date), DAY)
    ensures Steps(times + [Midnight(date)], Midnight(first), Midnight(date + 1), DAY)
  {
    MultipleMod(date, DAY);
    StepOn(times, Midnight(first), Midnight(date), DAY);
  }

  lemma {:induction false} DaysCover(start: int, end: int)
    requires start <= end && start % DAY == 0
    ensures FloorToBucket(start, DAY) == Midnight(DateOf(start)) && DateOf(start) <= DateOf(end)
    ensures end < Midnight(DateOf(end) + 1) <= end + DAY && Midnight(DateOf(end) + 1) % DAY == 0
    ensures Steps([], Midnight(DateOf(start)), Midnight(DateOf(start)), DAY)
  {
    MidnightIsBucket(start);
    MultipleMod(DateOf(end) + 1, DAY);
  }

  lemma {:induction false} MidnightIsBucket(t: int)
    requires t % DAY == 0
    ensures FloorToBucket(t, DAY) == t == Midnight(DateOf(t))
  {
    assert DAY == 86400 * SECOND;
    var d := t / DAY;
    assert t == d * DAY;
    assert WholeSeconds(t) == d * 86400;
  }

  lemma {:induction false} StepsTile(times: seq<int>, next: int, p: Period)
    requires Steps(times, FloorToBucket(p.start, BucketSize(p)), next, BucketSize(p))
    requires p.end < next && next % BucketSize(p) == 0
    requires times == [] || next <= p.end + BucketSize(p)
    ensures Tiles(times, p)
  {
    var width := BucketSize(p);
    var first := FloorToBucket(p.start, width);
    forall b ensures b in times <==> first <= b <= p.end && b % width == 0 {
      if b in times {
        if p.end < b { MultiplesApart(b, next, width); }
      }
    }
  }

  lemma {:induction false} FewRows(count: nat, next: int, p: Period)
    requires p.start <= p.end && p.byTime && p.end - p.start <= 90 * DAY
    requires count * BucketSize(p) == next - FloorToBucket(p.start, BucketSize(p))
    requires count == 0 || next <= p.end + BucketSize(p)
    ensures count <= 91
  {
    var width := BucketSize(p);
    FloorIsMultiple(p.start, width);
    assert count >= 92 ==> count * width >= 92 * width;
  }

  // ---------------------------------------------------------------- what the figures mean

  datatype Measure = Cost | PromptTokens | CompletionTokens | CachedTokens | AllTokens
                   | FirstTokenTime | FirstTokenCount | ResponseTime | ResponseCount

  /** What one message counts for. Costs and times that are no numbers, and all that is negative, count for nothing. */
  function Measured(m: Message, k: Measure): (r: real)
    ensures r >= 0.0
  {
    if k.ResponseTime? then (if ResponseKnown(m) then ResponseOf(m) as real else 0.0)
    else if k.ResponseCount? then (if ResponseKnown(m) then 1.0 else 0.0)
    else if m.usage.None? then 0.0
    else InUsage(m.usage.value, k)
  }

  predicate Usable(n: Number) { n.Finite? && n.value >= 0.0 }

  function Amount(n: Number): (r: real)
    ensures r >= 0.0
  {
    if Usable(n) then n.value else 0.0
  }

  function InUsage(u: Usage, k: Measure): (r: real)
    ensures r >= 0.0
  {
    match k
    case Cost => Amount(u.cost)
    case PromptTokens => Amount(Finite(u.prompt as real))
    case CompletionTokens => Amount(Finite(u.completion as real))
    case CachedTokens => Amount(Finite(u.cached as real))
    case AllTokens => Amount(Finite(u.total as real))
    case FirstTokenTime => Amount(u.ttft)
    case FirstTokenCount => if Usable(u.ttft) then 1.0 else 0.0
    case ResponseTime => Amount(Finite(u.ttr as real))
    case ResponseCount => if u.ttr >= 0 then 1.0 else 0.0
  }

  predicate ResponseKnown(m: Message) {
    (m.usage.Some? && m.usage.value.ttr >= 0) || m.thinking.Some?
  }

  /** The response time of the usage data, or else that of the thinking segments. */
  function ResponseOf(m: Message): (ms: int)
    requires ResponseKnown(m)
    ensures ms >= 0
  {
    if m.usage.Some? && m.usage.value.ttr >= 0 then m.usage.value.ttr else m.thinking.value
  }

  function Read(s: Stats, k: Measure): (r: real) {
    match k
    case Cost => s.figures.cost
    case PromptTokens => s.figures.prompt as real
    case CompletionTokens => s.figures.completion as real
    case CachedTokens => s.figures.cached as real
    case AllTokens => s.figures.total as real
    case FirstTokenTime => s.ttftSum
    case FirstTokenCount => s.ttftCount as real
    case ResponseTime => s.ttrSum as real
    case ResponseCount => s.ttrCount as real
  }

  /** An assistant message within the period and, if one is given, in the bucket. */
  predicate Chosen(m: Message, p: Period, bucket: Option<int>) {
    && m.assistant && p.start <= m.at <= p.end
    && (bucket.Some? ==> FloorToBucket(m.at, BucketSize(p)) == bucket.value)
  }

  /** A measure summed over the chosen messages. */
  function Total(ms: seq<Message>, p: Period, bucket: Option<int>, k: Measure): (r: real) {
    if ms == [] then 0.0
    else
      var n := |ms| - 1;
      Total(ms[..n], p, bucket, k) + if Chosen(ms[n], p, bucket) then Measured(ms[n], k) else 0.0
  }

  lemma {:induction false} ContributionIsMeasured(m: Message, k: Measure)
    ensures Read(Contribution(m), k) == Measured(m, k)
  {
  }

  lemma {:induction false} ReadPlus(a: Stats, b: Stats, k: Measure)
    ensures Read(Plus(a, b), k) == Read(a, k) + Read(b, k)
  {
  }

  lemma {:induction false} SumIsTotal(ms: seq<Message>, p: Period, n: nat, k: Measure)
    requires n <= |ms|
    ensures Read(Sum(Items(ms, p), n), k) == Total(ms[..n], p, None, k)
  {
    if n > 0 {
      SumIsTotal(ms, p, n - 1, k);
      assert ms[..n][..n - 1] == ms[..n - 1];
      if Counted(ms[n - 1], p) {
        ReadPlus(Sum(Items(ms, p), n - 1), Contribution(ms[n - 1]), k);
        ContributionIsMeasured(ms[n - 1], k);
      }
    }
  }

  lemma {:induction false} BucketSumIsTotal(ms: seq<Message>, p: Period, n: nat, b: int, k: Measure)
    requires n <= |ms|
    ensures Read(BucketSum(Items(ms, p), n, b), k) == Total(ms[..n], p, Some(b), k)
  {
    if n > 0 {
      BucketSumIsTotal(ms, p, n - 1, b, k);
      assert ms[..n][..n - 1] == ms[..n - 1];
      if Chosen(ms[n - 1], p, Some(b)) {
        ReadPlus(BucketSum(Items(ms, p), n - 1, b), Contribution(ms[n - 1]), k);
        ContributionIsMeasured(ms[n - 1], k);
      }
    }
  }

  /** An average is there if something was counted, and is the sum over the count. */
  predicate IsAverage(a: Option<real>, sum: real, count: real) {
    (a.Some? <==> count > 0.0) && (a.Some? ==> a.value * count == sum)
  }

  ghost predicate AveragesTell(
    ttft: Option<real>, ttr: Option<real>, ms: seq<Message>, p: Period, bucket: Option<int>)
  {
    && IsAverage(ttft, Total(ms, p, bucket, FirstTokenTime), Total(ms, p, bucket, FirstTokenCount))
    && IsAverage(ttr, Total(ms, p, bucket, ResponseTime), Total(ms, p, bucket, ResponseCount))
  }

  /** Figures are the sums of their measures over the chosen messages. */
  ghost predicate FiguresTell(f: Figures, ms: seq<Message>, p: Period, bucket: Option<int>) {
    && f.cost == Total(ms, p, bucket, Cost)
    && f.prompt as real == Total(ms, p, bucket, PromptTokens)
    && f.completion as real == Total(ms, p, bucket, CompletionTokens)
    && f.cached as real == Total(ms, p, bucket, CachedTokens)
    && f.total as real == Total(ms, p, bucket, AllTokens)
  }

  lemma {:induction false} AverageTells(sum: real, count: nat)
    ensures IsAverage(Average(sum, count), sum, count as real)
  {
  }

  lemma {:induction false} AveragesAre(s: Stats, ms: seq<Message>, p: Period, bucket: Option<int>)
    requires forall k :: Read(s, k) == Total(ms, p, bucket, k)
    ensures AveragesTell(Average(s.ttftSum, s.ttftCount), Average(s.ttrSum as real, s.ttrCount), ms, p, bucket)
  {
    AverageTells(s.ttftSum, s.ttftCount);
    AverageTells(s.ttrSum as real, s.ttrCount);
    assert s.ttftSum == Read(s, FirstTokenTime) == Total(ms, p, bucket, FirstTokenTime);
    assert s.ttftCount as real == Read(s, FirstTokenCount) == Total(ms, p, bucket, FirstTokenCount);
    assert s.ttrSum as real == Read(s, ResponseTime) == Total(ms, p, bucket, ResponseTime);
    assert s.ttrCount as real == Read(s, ResponseCount) == Total(ms, p, bucket, ResponseCount);
  }

  lemma {:induction false} StatsTell(s: Stats, ms: seq<Message>, p: Period, bucket: Option<int>)
    requires forall k :: Read(s, k) == Total(ms, p, bucket, k)
    ensures FiguresTell(s.figures, ms, p, bucket)
    ensures AveragesTell(Average(s.ttftSum, s.ttftCount), Average(s.ttrSum as real, s.ttrCount), ms, p, bucket)
  {
    AveragesAre(s, ms, p, bucket);
    assert Read(s, Cost) == s.figures.cost && Read(s, PromptTokens) == s.figures.prompt as real;
    assert Read(s, CompletionTokens) == s.figures.completion as real;
    assert Read(s, CachedTokens) == s.figures.cached as real && Read(s, AllTokens) == s.figures.total as real;
  }

  lemma {:induction false} TotalsTell(ms: seq<Message>, p: Period)
    ensures var s := Sum(Items(ms, p), |ms|);
            && FiguresTell(s.figures, ms, p, None)
            && AveragesTell(Average(s.ttftSum, s.ttftCount), Average(s.ttrSum as real, s.ttrCount), ms, p, None)
  {
    assert ms[..|ms|] == ms;
    forall k ensures Read(Sum(Items(ms, p), |ms|), k) == Total(ms, p, None, k) { SumIsTotal(ms, p, |ms|, k); }
    StatsTell(Sum(Items(ms, p), |ms|), ms, p, None);
  }

  /** A row tells the sums and averages of the messages of its bucket. */
  ghost predicate RowTells(row: Row, ms: seq<Message>, p: Period) {
    && FiguresTell(row.figures, ms, p, Some(row.start))
    && AveragesTell(row.avgTtft, row.avgTtr, ms, p, Some(row.start))
  }

  lemma {:induction false} EveryRowTells(rows: seq<Row>, ms: seq<Message>, p: Period, i: nat)
    requires RowsTell(rows, Items(ms, p)) && i < |rows|
    ensures RowTells(rows[i], ms, p)
  {
    var b := rows[i].start;
    var s := BucketSum(Items(ms, p), |ms|, b);
    assert ms[..|ms|] == ms;
    forall k ensures Read(s, k) == Total(ms, p, Some(b), k) { BucketSumIsTotal(ms, p, |ms|, b, k); }
    StatsTell(s, ms, p, Some(b));
  }

  /** The endpoint, after authentication, for the messages of the user. */
  method GetMetrics(r: Request, now: int, ms: seq<Message>) returns (report: Result<Report, BadRequest>)
    ensures report.Err? <==> ResolvePeriod(r, now).Err?
    ensures report.Ok? ==>
              var p := ResolvePeriod(r, now).value;
              && Tiles(Starts(report.value.rows), p)
              && (forall i :: 0 <= i < |report.value.rows| ==> RowTells(report.value.rows[i], ms, p))
              && FiguresTell(report.value.figures, ms, p, None)
              && AveragesTell(report.value.avgTtft, report.value.avgTtr, ms, p, None)
              && (FloorToBucket(p.end, BucketSize(p)) <= p.end ==>
                    SumRows(report.value.rows, |report.value.rows|) == report.value.figures)
              && (p.byTime && p.end - p.start <= 90 * DAY ==> |report.value.rows| <= 91)
              && (!p.byTime ==> |report.value.rows| == DateOf(p.end) - DateOf(p.start) + 1)
  {
    var period := ResolvePeriod(r, now);
    if period.Err? { return Err(period.error); }
    var p := period.value;
    var buckets, totals := Accumulate(ms, p);
    ghost var items := Items(ms, p);
    var rows;
    if p.byTime { rows := EmitByTime(items, p, buckets); } else { rows := EmitByDate(items, p, buckets); }
    RowFiguresSum(rows, |rows|, items);
    forall i | 0 <= i < |rows| ensures RowTells(rows[i], ms, p) { EveryRowTells(rows, ms, p, i); }
    TotalsTell(ms, p);
    if FloorToBucket(p.end, BucketSize(p)) <= p.end { RowsAddUp(ms, p, Starts(rows)); }
    report := Ok(Report(rows, totals.figures, Average(totals.ttftSum, totals.ttftCount),
                        Average(totals.ttrSum as real, totals.ttrCount)));
  }
}
