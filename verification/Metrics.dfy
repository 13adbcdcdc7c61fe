/**
 Run metrics in one pass: queue and activity gauges from difference arrays, and
 percentiles of every group from one globally sorted list.
 */
module Metrics {
  import opened Options

  /** The times of a run, in microseconds. */
  datatype Row = Row(queued: int, started: Option<int>, ended: Option<int>)

  // ---------------------------------------------------------------- sample instants

  function SampleAt(start: int, window: int, buckets: int, i: int): int
    requires buckets > 0
  {
    start + i * window / buckets + window / buckets / 2
  }

  function Samples(start: int, window: int, buckets: nat): (s: seq<int>)
    requires buckets > 0
    ensures |s| == buckets
  {
    seq(buckets, i => SampleAt(start, window, buckets, i))
  }

  predicate Ascending(s: seq<int>) { forall i, j :: 0 <= i < j < |s| ==> s[i] <= s[j] }

  lemma {:induction false} MulMono(a: int, b: int, w: int)
    requires a <= b && w >= 0
    ensures a * w <= b * w
  {
  }

  lemma {:induction false} DivBounds(a: int, c: int)
    requires c > 0
    ensures a / c * c <= a < (a / c + 1) * c
  {
  }

  lemma {:induction false} DivMono(a: int, b: int, c: int)
    requires a <= b && c > 0
    ensures a / c <= b / c
  {
    DivBounds(a, c);
    DivBounds(b, c);
    if b / c < a / c { MulMono(b / c + 1, a / c, c); }
  }

  lemma {:induction false} SamplesAscend(start: int, window: int, buckets: nat)
    requires buckets > 0 && window > 0
    ensures Ascending(Samples(start, window, buckets))
  {
    forall i, j | 0 <= i < j < buckets
      ensures SampleAt(start, window, buckets, i) <= SampleAt(start, window, buckets, j)
    {
      MulMono(i, j, window);
      DivMono(i * window, j * window, buckets);
    }
  }

  /** Every sample lies in the window, so a run still open at its end counts. */
  lemma {:induction false} SamplesWithin(start: int, window: int, buckets: nat, i: nat)
    requires i < buckets && window > 0
    ensures start <= SampleAt(start, window, buckets, i) <= start + window
  {
    var q := window / buckets;
    MulMono(0, i, window);
    DivMono(0, i * window, buckets);
    MulMono(i, buckets - 1, window);
    DivMono(i * window, (buckets - 1) * window, buckets);
    LastSample(window, buckets);
  }

  lemma {:induction false} LastSample(window: int, buckets: nat)
    requires window > 0 && buckets > 0
    ensures (buckets - 1) * window / buckets + window / buckets / 2 <= window && window / buckets / 2 >= 0
  {
    var p := (buckets - 1) * window;
    DivBounds(window, buckets);
    DivBounds(p, buckets);
    MulMono(0, 1, window);
    DivMono(0, window, buckets);
    assert p == buckets * window - window;
    SumOfQuotients(p / buckets, window / buckets, buckets, window, p);
  }

  lemma {:induction false} SumOfQuotients(a: int, q: int, b: int, w: int, p: int)
    requires b > 0 && a * b <= p && q * b <= w && p == b * w - w
    ensures a + q <= w
  {
    assert (a + q) * b == a * b + q * b && (w + 1) * b == b * w + b;
    if a + q > w { MulMono(w + 1, a + q, b); }
  }

  /** Binary search for the first sample that is not before x. */
  method Search(samples: seq<int>, x: int) returns (k: nat)
    requires Ascending(samples)
    ensures k <= |samples| && forall i :: 0 <= i < |samples| ==> (i < k <==> samples[i] < x)
  {
    var lo, hi := 0, |samples|;
    while lo < hi
      invariant lo <= hi <= |samples|
      invariant forall i :: 0 <= i < lo ==> samples[i] < x
      invariant forall i :: hi <= i < |samples| ==> samples[i] >= x
    {
      var mid := (lo + hi) / 2;
      if samples[mid] >= x { hi := mid; } else { lo := mid + 1; }
    }
    k := lo;
  }

  // ---------------------------------------------------------------- difference arrays

  datatype Interval = Interval(from: int, until: int)

  predicate Contains(v: Interval, s: int) { v.from <= s < v.until }

  function Count(vs: seq<Interval>, s: int): nat {
    if vs == [] then 0 else Count(vs[..|vs| - 1], s) + if Contains(vs[|vs| - 1], s) then 1 else 0
  }

  function Sum(d: seq<int>, k: nat): int
    requires k <= |d|
  {
    if k == 0 then 0 else Sum(d, k - 1) + d[k - 1]
  }

  /** The gauge at sample i. */
  function Level(d: seq<int>, i: nat): int
    requires i < |d|
  {
    Sum(d, i + 1)
  }

  /** The differences add up to the number of intervals that contain each sample. */
  predicate Tallies(d: seq<int>, samples: seq<int>, vs: seq<Interval>) {
    |d| == |samples| + 1 && forall i :: 0 <= i < |samples| ==> Level(d, i) == Count(vs, samples[i])
  }

  lemma {:induction false} SumBump(d: seq<int>, e: seq<int>, p: nat, x: int, k: nat)
    requires p < |d| && e == d[p := d[p] + x] && k <= |d|
    ensures Sum(e, k) == Sum(d, k) + if k > p then x else 0
  {
    if k > 0 { SumBump(d, e, p, x, k - 1); }
  }

  method AddInterval(diff: array<int>, samples: seq<int>, v: Interval, ghost before: seq<Interval>)
    requires Ascending(samples) && Tallies(diff[..], samples, before)
    modifies diff
    ensures Tallies(diff[..], samples, before + [v])
  {
    var first := Search(samples, v.from);
    var last := Search(samples, v.until);
    ghost var d := diff[..];
    if first < last {
      diff[first] := diff[first] + 1;
      ghost var e := diff[..];
      diff[last] := diff[last] - 1;
      forall i | 0 <= i < |samples| ensures Level(diff[..], i) == Level(d, i) + if first <= i < last then 1 else 0 {
        SumBump(d, e, first, 1, i + 1);
        SumBump(e, diff[..], last, -1, i + 1);
      }
    }
    assert (before + [v])[..|before|] == before;
  }

  /** How many intervals contain each sample. */
  method Gauge(vs: seq<Interval>, samples: seq<int>) returns (counts: seq<int>)
    requires Ascending(samples)
    ensures |counts| == |samples| && forall i :: 0 <= i < |samples| ==> counts[i] == Count(vs, samples[i])
  {
    var diff := new int[|samples| + 1](_ => 0);
    ZeroSums(diff[..], samples);
    for k := 0 to |vs|
      invariant Tallies(diff[..], samples, vs[..k])
    {
      AddInterval(diff, samples, vs[k], vs[..k]);
      assert vs[..k + 1] == vs[..k] + [vs[k]];
    }
    assert vs[..|vs|] == vs;
    counts := [];
    var now := 0;
    for i := 0 to |samples|
      invariant |counts| == i && now == Sum(diff[..], i)
      invariant forall j :: 0 <= j < i ==> counts[j] == Level(diff[..], j)
    {
      now := now + diff[i];
      counts := counts + [now];
    }
  }

  lemma {:induction false} ZeroSum(d: seq<int>, k: nat)
    requires k <= |d| && forall i :: 0 <= i < |d| ==> d[i] == 0
    ensures Sum(d, k) == 0
  {
    if k > 0 { ZeroSum(d, k - 1); }
  }

  lemma {:induction false} ZeroSums(d: seq<int>, samples: seq<int>)
    requires |d| == |samples| + 1 && forall i :: 0 <= i < |d| ==> d[i] == 0
    ensures Tallies(d, samples, [])
  {
    forall i | 0 <= i < |samples| ensures Level(d, i) == 0 { ZeroSum(d, i + 1); }
  }

  // ---------------------------------------------------------------- queued and active runs

  /** The run waits at instant s: admitted, not started and not ended. */
  predicate QueuedAt(r: Row, s: int) {
    r.queued <= s && (r.started.Some? ==> s < r.started.value) && (r.ended.Some? ==> s < r.ended.value)
  }

  predicate ActiveAt(r: Row, s: int) {
    r.started.Some? && r.started.value <= s && (r.ended.Some? ==> s < r.ended.value)
  }

  function Earlier(a: int, b: Option<int>): int { if b.Some? && b.value < a then b.value else a }

  /** The interval the pass records for the queue gauge; end is the last instant of the window. */
  function QueuedInterval(r: Row, end: int): Interval {
    Interval(r.queued, Earlier(Earlier(end + 1, r.ended), r.started))
  }

  /** The interval for the activity gauge; a run that never started records none. */
  function ActiveInterval(r: Row, end: int): Interval {
    if r.started.Some? then Interval(r.started.value, Earlier(end + 1, r.ended)) else Interval(end + 1, end + 1)
  }

  /** Within the window the recorded intervals say exactly what the run was doing. */
  lemma {:induction false} IntervalsMean(r: Row, end: int, s: int)
    requires s <= end
    ensures Contains(QueuedInterval(r, end), s) <==> QueuedAt(r, s)
    ensures Contains(ActiveInterval(r, end), s) <==> ActiveAt(r, s)
  {
  }

  function CountQueued(rs: seq<Row>, s: int): nat {
    if rs == [] then 0 else CountQueued(rs[..|rs| - 1], s) + if QueuedAt(rs[|rs| - 1], s) then 1 else 0
  }

  function CountActive(rs: seq<Row>, s: int): nat {
    if rs == [] then 0 else CountActive(rs[..|rs| - 1], s) + if ActiveAt(rs[|rs| - 1], s) then 1 else 0
  }

  function QueuedIntervals(rs: seq<Row>, end: int): seq<Interval> {
    seq(|rs|, i requires 0 <= i < |rs| => QueuedInterval(rs[i], end))
  }
  function ActiveIntervals(rs: seq<Row>, end: int): seq<Interval> {
    seq(|rs|, i requires 0 <= i < |rs| => ActiveInterval(rs[i], end))
  }

  lemma {:induction false} CountsMean(rs: seq<Row>, end: int, s: int)
    requires s <= end
    ensures Count(QueuedIntervals(rs, end), s) == CountQueued(rs, s)
            && Count(ActiveIntervals(rs, end), s) == CountActive(rs, s)
  {
    if rs != [] {
      var n := |rs| - 1;
      CountsMean(rs[..n], end, s);
      IntervalsMean(rs[n], end, s);
      assert QueuedIntervals(rs, end)[..n] == QueuedIntervals(rs[..n], end);
      assert ActiveIntervals(rs, end)[..n] == ActiveIntervals(rs[..n], end);
    }
  }

  function Buckets(requested: int): nat { if requested < 1 then 1 else if requested > 288 then 288 else requested }

  function Window(start: int, end: int): int { if end - start > 1 then end - start else 1 }

  lemma {:induction false} SamplesInWindow(start: int, end: int, buckets: nat, i: nat)
    requires start <= end && i < buckets
    ensures SampleAt(start, Window(start, end), buckets, i) <= end
  {
    SamplesWithin(start, Window(start, end), buckets, i);
    if start == end {
      DivBounds(i, buckets);
      DivBounds(1, buckets);
      if i / buckets >= 1 { MulMono(1, i / buckets, buckets); }
      if 1 / buckets >= 2 { MulMono(2, 1 / buckets, buckets); }
    }
  }

  /** Per bucket, the number of runs queued and active at its sample instant. */
  method Gauges(rs: seq<Row>, start: int, end: int, requested: int) returns (queued: seq<int>, active: seq<int>)
    requires start <= end
    ensures |queued| == |active| == Buckets(requested)
    ensures forall i :: 0 <= i < |queued| ==>
              queued[i] == CountQueued(rs, SampleAt(start, Window(start, end), |queued|, i))
    ensures forall i :: 0 <= i < |active| ==>
              active[i] == CountActive(rs, SampleAt(start, Window(start, end), |active|, i))
  {
    var buckets, window := Buckets(requested), Window(start, end);
    var samples := Samples(start, window, buckets);
    SamplesAscend(start, window, buckets);
    queued := Gauge(QueuedIntervals(rs, end), samples);
    active := Gauge(ActiveIntervals(rs, end), samples);
    forall i | 0 <= i < buckets
      ensures queued[i] == CountQueued(rs, SampleAt(start, window, buckets, i))
      ensures active[i] == CountActive(rs, SampleAt(start, window, buckets, i))
    {
      SamplesInWindow(start, end, buckets, i);
      CountsMean(rs, end, samples[i]);
    }
  }

  // ---------------------------------------------------------------- percentiles

  /** One duration; job and bucket are absent when the run does not count there. */
  datatype Sample = Sample(value: int, job: Option<nat>, bucket: Option<nat>)

  datatype Family = Overall | ByJob | ByBucket

  /** The group of a sample within a family; the overall list has the one group zero. */
  function GroupOf(x: Sample, f: Family): Option<nat> {
    match f
    case Overall => if x.job.Some? then Some(0) else None
    case ByJob => x.job
    case ByBucket => x.bucket
  }

  /** The values of one group, in the order of the list. */
  function Own(xs: seq<Sample>, f: Family, g: nat): seq<int> {
    if xs == [] then []
    else Own(xs[..|xs| - 1], f, g) + if GroupOf(xs[|xs| - 1], f) == Some(g) then [xs[|xs| - 1].value] else []
  }

  /** How many samples the first k jobs have together. */
  function JobTotal(xs: seq<Sample>, k: nat): nat {
    if k == 0 then 0 else JobTotal(xs, k - 1) + |Own(xs, ByJob, k - 1)|
  }

  lemma {:induction false} NoTotal(k: nat)
    ensures JobTotal([], k) == 0
  {
    if k > 0 { NoTotal(k - 1); }
  }

  lemma {:induction false} OneMore(xs: seq<Sample>, k: nat)
    requires xs != []
    ensures var n := |xs| - 1;
            JobTotal(xs, k) == JobTotal(xs[..n], k) + if xs[n].job.Some? && xs[n].job.value < k then 1 else 0
  {
    if k > 0 { OneMore(xs, k - 1); }
  }

  /** A sample counts overall exactly once if it counts for a job, and else not at all. */
  lemma {:induction false} OverallIsJobs(xs: seq<Sample>, jobs: nat)
    requires forall i :: 0 <= i < |xs| && xs[i].job.Some? ==> xs[i].job.value < jobs
    ensures |Own(xs, Overall, 0)| == JobTotal(xs, jobs)
  {
    if xs == [] {
      NoTotal(jobs);
    } else {
      OverallIsJobs(xs[..|xs| - 1], jobs);
      OneMore(xs, jobs);
    }
  }

  predicate SortedSamples(xs: seq<Sample>) { forall i, j :: 0 <= i < j < |xs| ==> xs[i].value <= xs[j].value }

  /** Ranks of the median and of the 95th percentile, or none for an empty group. */
  function Ranks(count: nat): (r: (int, int))
    ensures count > 0 ==> 0 <= r.0 <= r.1 < count
    ensures count > 0 ==> 2 * r.0 <= count && (r.0 == count - 1 || count < 2 * (r.0 + 1))
    ensures count > 0 ==> 100 * r.1 <= 95 * count && (r.1 == count - 1 || 95 * count < 100 * (r.1 + 1))
    ensures count == 0 ==> r == (-1, -1)
  {
    if count == 0 then (-1, -1)
    else (Least(count - 1, (count as real * 0.5).Floor), Least(count - 1, (count as real * 0.95).Floor))
  }

  function Least(a: int, b: int): int { if a < b then a else b }

  /** What the pass keeps for one family: ranks to look for, samples seen, values found. */
  datatype Track = Track(ranks: seq<(int, int)>, seen: seq<nat>, p50: seq<Option<int>>, p95: seq<Option<int>>)

  predicate Shaped(t: Track) { |t.ranks| == |t.seen| == |t.p50| == |t.p95| }

  function Visit(t: Track, g: Option<nat>, value: int): Track
    requires Shaped(t) && (g.Some? ==> g.value < |t.seen|)
  {
    if g.None? then t
    else
      var k := g.value;
      t.(p50 := if t.seen[k] == t.ranks[k].0 then t.p50[k := Some(value)] else t.p50,
         p95 := if t.seen[k] == t.ranks[k].1 then t.p95[k := Some(value)] else t.p95,
         seen := t.seen[k := t.seen[k] + 1])
  }

  function AtRank(own: seq<int>, rank: int): Option<int> { if 0 <= rank < |own| then Some(own[rank]) else None }

  /** The track of a family after the samples xs. */
  predicate Tracks(t: Track, xs: seq<Sample>, f: Family) {
    && Shaped(t)
    && (forall g :: 0 <= g < |t.seen| ==> t.seen[g] == |Own(xs, f, g)|)
    && (forall g :: 0 <= g < |t.seen| ==>
          t.p50[g] == AtRank(Own(xs, f, g), t.ranks[g].0) && t.p95[g] == AtRank(Own(xs, f, g), t.ranks[g].1))
  }

  lemma {:induction false} VisitTracks(t: Track, xs: seq<Sample>, x: Sample, f: Family)
    requires Tracks(t, xs, f) && (GroupOf(x, f).Some? ==> GroupOf(x, f).value < |t.seen|)
    ensures Tracks(Visit(t, GroupOf(x, f), x.value), xs + [x], f)
  {
    assert (xs + [x])[..|xs|] == xs;
    hide GroupOf;
  }

  lemma {:induction false} OwnAppend(a: seq<Sample>, b: seq<Sample>, f: Family, g: nat)
    ensures Own(a + b, f, g) == Own(a, f, g) + Own(b, f, g)
  {
    hide GroupOf;
    if b == [] {
      assert a + b == a && Own(a, f, g) + [] == Own(a, f, g);
    } else {
      var n := |b| - 1;
      assert (a + b)[..|a + b| - 1] == a + b[..n];
      OwnAppend(a, b[..n], f, g);
    }
  }

  /** A group's values do not depend on the order of the list. */
  lemma {:induction false} OwnMultiset(xs: seq<Sample>, ys: seq<Sample>, f: Family, g: nat)
    requires multiset(xs) == multiset(ys)
    ensures multiset(Own(xs, f, g)) == multiset(Own(ys, f, g))
    decreases |xs|
  {
    hide Own;
    SameLength(xs, ys);
    if xs != [] {
      var n := |xs| - 1;
      assert xs[n] in multiset(xs);
      var i :| 0 <= i < |ys| && ys[i] == xs[n];
      RemoveSame(xs, ys, i);
      OwnMultiset(xs[..n], ys[..i] + ys[i + 1..], f, g);
      OwnWithout(xs, n, f, g);
      OwnWithout(ys, i, f, g);
      assert xs[..n] + xs[n + 1..] == xs[..n];
    }
  }

  lemma {:induction false} OwnWithout(ys: seq<Sample>, i: nat, f: Family, g: nat)
    requires i < |ys|
    ensures multiset(Own(ys, f, g)) == multiset(Own(ys[..i] + ys[i + 1..], f, g)) + multiset(Own([ys[i]], f, g))
  {
    hide Own;
    var a, x, b := ys[..i], [ys[i]], ys[i + 1..];
    assert ys == a + x + b;
    OwnAppend(a + x, b, f, g);
    OwnAppend(a, x, f, g);
    OwnAppend(a, b, f, g);
    MultisetMiddle(Own(a, f, g), Own(x, f, g), Own(b, f, g));
  }

  lemma {:induction false} MultisetMiddle(a: seq<int>, x: seq<int>, b: seq<int>)
    ensures multiset(a + x + b) == multiset(a + b) + multiset(x)
  {
    assert multiset(a + x + b) == multiset(a) + multiset(x) + multiset(b);
  }

  /** Dropping the same element on both sides leaves the rest equal. */
  lemma {:induction false} RemoveSame<T>(xs: seq<T>, ys: seq<T>, i: nat)
    requires multiset(xs) == multiset(ys) && xs != [] && i < |ys| && ys[i] == xs[|xs| - 1]
    ensures multiset(xs[..|xs| - 1]) == multiset(ys[..i] + ys[i + 1..])
  {
    WithoutOne(xs, |xs| - 1);
    WithoutOne(ys, i);
    assert xs[..|xs| - 1] + xs[|xs|..] == xs[..|xs| - 1];
  }

  lemma {:induction false} WithoutOne<T>(ys: seq<T>, i: nat)
    requires i < |ys|
    ensures multiset(ys[..i] + ys[i + 1..]) == multiset(ys) - multiset{ys[i]}
  {
    var a, b := ys[..i], ys[i + 1..];
    assert ys == a + ([ys[i]] + b);
    assert multiset(ys) == multiset(a) + multiset([ys[i]] + b);
  }

  lemma {:induction false} SameLength<T>(xs: seq<T>, ys: seq<T>)
    requires multiset(xs) == multiset(ys)
    ensures |xs| == |ys|
  {
    assert |multiset(xs)| == |xs| && |multiset(ys)| == |ys|;
  }

  lemma {:induction false} OwnSorted(xs: seq<Sample>, f: Family, g: nat)
    requires SortedSamples(xs)
    ensures Ascending(Own(xs, f, g)) && (xs != [] ==> forall i ::
              0 <= i < |Own(xs, f, g)| ==> Own(xs, f, g)[i] <= xs[|xs| - 1].value)
  {
    hide GroupOf;
    if xs != [] { OwnSorted(xs[..|xs| - 1], f, g); }
  }

  /** There is only one way to sort. */
  lemma {:induction false} SortedUnique(a: seq<int>, b: seq<int>)
    requires Ascending(a) && Ascending(b) && multiset(a) == multiset(b)
    ensures a == b
  {
    SameLength(a, b);
    if a != [] {
      var n := |a| - 1;
      LastEqual(a, b);
      RemoveSame(a, b, n);
      assert b[..n] + b[n + 1..] == b[..n];
      SortedUnique(a[..n], b[..n]);
      assert a == a[..n] + [a[n]] && b == b[..n] + [b[n]];
    }
  }

  lemma {:induction false} LastEqual(a: seq<int>, b: seq<int>)
    requires Ascending(a) && Ascending(b) && multiset(a) == multiset(b) && a != [] && |a| == |b|
    ensures a[|a| - 1] == b[|b| - 1]
  {
    var x, y := a[|a| - 1], b[|b| - 1];
    assert x in multiset(a) && y in multiset(b);
    assert x in b && y in a;
  }

  /** How many samples each group has. */
  method CountGroups(xs: seq<Sample>, f: Family, groups: nat) returns (counts: seq<nat>)
    requires forall i :: 0 <= i < |xs| && GroupOf(xs[i], f).Some? ==> GroupOf(xs[i], f).value < groups
    ensures |counts| == groups && forall g :: 0 <= g < groups ==> counts[g] == |Own(xs, f, g)|
  {
    counts := seq(groups, _ => 0);
    for i := 0 to |xs|
      invariant |counts| == groups && forall g :: 0 <= g < groups ==> counts[g] == |Own(xs[..i], f, g)|
    {
      assert xs[..i + 1][..i] == xs[..i];
      var k := GroupOf(xs[i], f);
      if k.Some? { counts := counts[k.value := counts[k.value] + 1]; }
    }
    assert xs[..|xs|] == xs;
  }

  function NewTrack(counts: seq<nat>): (t: Track)
    ensures Shaped(t) && |t.seen| == |counts|
  {
    Track(seq(|counts|, g requires 0 <= g < |counts| => Ranks(counts[g])), seq(|counts|, _ => 0),
        seq(|counts|, _ => None), seq(|counts|, _ => None))
  }

  /** The value at a group's rank in that group's own sorted list, for both percentiles. */
  ghost predicate Percentiles(t: Track, xs: seq<Sample>, f: Family) {
    Shaped(t) && forall g :: 0 <= g < |t.seen| ==> GroupPercentiles(t.p50[g], t.p95[g], xs, f, g)
  }

  ghost predicate GroupPercentiles(p50: Option<int>, p95: Option<int>, xs: seq<Sample>, f: Family, g: nat) {
    forall own: seq<int> :: Ascending(own) && multiset(own) == multiset(Own(xs, f, g)) ==>
      if own == [] then p50.None? && p95.None? else p50 == Some(own[Ranks(|own|).0]) && p95 == Some(own[Ranks(|own|).1])
  }

  /** One pass over the sorted samples finds the percentiles of all three families. */
  method FindPercentiles(xs: seq<Sample>, sorted: seq<Sample>, jobs: nat, buckets: nat)
      returns (all: Track, job: Track, bucket: Track)
    requires SortedSamples(sorted) && multiset(sorted) == multiset(xs)
    requires forall x :: x in xs ==>
               (x.job.Some? ==> x.job.value < jobs) && (x.bucket.Some? ==> x.bucket.value < buckets)
    ensures |all.seen| == 1 && |job.seen| == jobs && |bucket.seen| == buckets
    ensures Percentiles(all, xs, Overall) && Percentiles(job, xs, ByJob) && Percentiles(bucket, xs, ByBucket)
  {
    var c0 := CountGroups(xs, Overall, 1);
    var c1 := CountGroups(xs, ByJob, jobs);
    var c2 := CountGroups(xs, ByBucket, buckets);
    all, job, bucket := NewTrack(c0), NewTrack(c1), NewTrack(c2);
    hide Own, Visit, Tracks, SortedSamples, NewTrack;
    NewTracks(c0, Overall);
    NewTracks(c1, ByJob);
    NewTracks(c2, ByBucket);
    SameMembers(xs, sorted);
    assert sorted[..0] == [];
    for i := 0 to |sorted|
      invariant Tracks(all, sorted[..i], Overall) && Tracks(job, sorted[..i], ByJob)
                && Tracks(bucket, sorted[..i], ByBucket)
      invariant all.ranks == NewTrack(c0).ranks && job.ranks == NewTrack(c1).ranks && bucket.ranks == NewTrack(c2).ranks
      invariant |all.seen| == 1 && |job.seen| == jobs && |bucket.seen| == buckets
    {
      var x := sorted[i];
      assert sorted[..i + 1] == sorted[..i] + [x] && x in sorted;
      all, job, bucket := Advance(all, sorted[..i], x, Overall), Advance(job, sorted[..i], x, ByJob),
          Advance(bucket, sorted[..i], x, ByBucket);
    }
    assert sorted[..|sorted|] == sorted;
    TrackMeans(all, c0, xs, sorted, Overall);
    TrackMeans(job, c1, xs, sorted, ByJob);
    TrackMeans(bucket, c2, xs, sorted, ByBucket);
  }

  /** Visit, with what it does to the track stated. */
  function Advance(t: Track, ghost seen: seq<Sample>, x: Sample, f: Family): (u: Track)
    requires Tracks(t, seen, f) && (GroupOf(x, f).Some? ==> GroupOf(x, f).value < |t.seen|)
    ensures Tracks(u, seen + [x], f) && u.ranks == t.ranks && |u.seen| == |t.seen|
  {
    VisitTracks(t, seen, x, f);
    Visit(t, GroupOf(x, f), x.value)
  }

  lemma {:induction false} SameMembers(xs: seq<Sample>, ys: seq<Sample>)
    requires multiset(xs) == multiset(ys)
    ensures forall x :: x in ys ==> x in xs
  {
    forall x | x in ys ensures x in xs { assert x in multiset(ys); }
  }

  lemma {:induction false} NewTracks(counts: seq<nat>, f: Family)
    ensures Tracks(NewTrack(counts), [], f)
  {
  }

  lemma {:induction false} TrackMeans(t: Track, counts: seq<nat>, xs: seq<Sample>, sorted: seq<Sample>, f: Family)
    requires Tracks(t, sorted, f) && SortedSamples(sorted) && multiset(sorted) == multiset(xs)
    requires |counts| == |t.seen| && t.ranks == NewTrack(counts).ranks && forall g ::
               0 <= g < |counts| ==> counts[g] == |Own(xs, f, g)|
    ensures Percentiles(t, xs, f)
  {
    hide Own, Ascending;
    forall g | 0 <= g < |t.seen| ensures GroupPercentiles(t.p50[g], t.p95[g], xs, f, g) {
      var mine := Own(sorted, f, g);
      OwnSorted(sorted, f, g);
      OwnMultiset(sorted, xs, f, g);
      SameLength(mine, Own(xs, f, g));
      forall own: seq<int> | Ascending(own) && multiset(own) == multiset(Own(xs, f, g)) ensures own == mine {
        SortedUnique(own, mine);
      }
    }
  }
}
