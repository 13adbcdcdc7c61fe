/**
 The durable execution queue: the runs table, the queue table and the transactions that
 change them.  A transaction is atomic; its method either applies all of it or nothing.
 */
module QueueStore {
  import opened Options

  datatype Status = Queued | Pending | Running | Ended(code: nat)

  datatype Run = Run(definition: nat, status: Status, ended: Option<int>)

  /** A row of the queue table; rows are kept in the order of their seq. */
  datatype Item = Item(order: nat, run: nat, definition: nat, expires: int, bytes: nat)

  datatype Limits = Limits(maxItems: nat, maxPerJob: nat, maxBytes: nat)

  datatype Enqueued = Accepted | Duplicate | Full | Constraint

  const INTERRUPTED: nat := 0

  // ---------------------------------------------------------------- the queue table

  function Ids(q: seq<Item>): set<nat> { set i | 0 <= i < |q| :: q[i].run }

  function Bytes(q: seq<Item>): nat {
    if q == [] then 0 else q[0].bytes + Bytes(q[1..])
  }

  function Count(q: seq<Item>, d: nat): nat {
    if q == [] then 0 else (if q[0].definition == d then 1 else 0) + Count(q[1..], d)
  }

  /** The rows whose run is not in the given set, in order. */
  function Without(q: seq<Item>, ids: set<nat>): seq<Item> {
    if q == [] then [] else (if q[0].run in ids then [] else [q[0]]) + Without(q[1..], ids)
  }

  predicate Sorted(q: seq<Item>) {
    && (forall i, j :: 0 <= i < j < |q| ==> q[i].order < q[j].order)
    && (forall i, j :: 0 <= i < j < |q| ==> q[i].run != q[j].run)
  }

  ghost predicate Within(q: seq<Item>, l: Limits) {
    |q| <= l.maxItems && Bytes(q) <= l.maxBytes && forall d: nat :: Count(q, d) <= l.maxPerJob
  }

  lemma {:induction false} WithoutShrinks(q: seq<Item>, ids: set<nat>)
    ensures |Without(q, ids)| <= |q| && Bytes(Without(q, ids)) <= Bytes(q)
    ensures forall d :: Count(Without(q, ids), d) <= Count(q, d)
  {
    if q != [] {
      WithoutShrinks(q[1..], ids);
      var w := Without(q[1..], ids);
      if q[0].run !in ids {
        assert ([q[0]] + w)[1..] == w;
      } else {
        assert Without(q, ids) == w;
      }
    }
  }

  lemma {:induction false} WithoutMembers(q: seq<Item>, ids: set<nat>)
    ensures forall x :: x in Without(q, ids) <==> x in q && x.run !in ids
  {
    if q != [] { WithoutMembers(q[1..], ids); }
  }

  lemma {:induction false} WithoutSorted(q: seq<Item>, ids: set<nat>)
    requires Sorted(q)
    ensures Sorted(Without(q, ids))
  {
    if q != [] {
      var w := Without(q[1..], ids);
      SortedTail(q);
      WithoutSorted(q[1..], ids);
      WithoutMembers(q[1..], ids);
      hide Sorted;
      if q[0].run !in ids { SortedCons(q[0], w); }
    }
  }

  lemma {:induction false} SortedTail(q: seq<Item>)
    requires Sorted(q) && q != []
    ensures Sorted(q[1..]) && forall x :: x in q[1..] ==> q[0].order < x.order && q[0].run != x.run
  {
  }

  lemma {:induction false} SortedCons(x: Item, w: seq<Item>)
    requires Sorted(w) && forall y :: y in w ==> x.order < y.order && x.run != y.run
    ensures Sorted([x] + w)
  {
    assert forall i :: 0 <= i < |w| ==> w[i] in w;
  }

  lemma {:induction false} AppendCounts(q: seq<Item>, x: Item)
    ensures Bytes(q + [x]) == Bytes(q) + x.bytes
    ensures forall d :: Count(q + [x], d) == Count(q, d) + if x.definition == d then 1 else 0
  {
    if q == [] {
      assert q + [x] == [x];
    } else {
      assert (q + [x])[1..] == q[1..] + [x];
      AppendCounts(q[1..], x);
    }
  }

  // ---------------------------------------------------------------- the life of a run

  /** The status changes the store permits. */
  predicate Advances(a: Status, b: Status) {
    || a == b
    || (a.Queued? && (b.Pending? || b.Ended?))
    || (a.Pending? && (b.Running? || b.Ended?))
    || (a.Running? && b.Ended?)
  }

  predicate Legal(t: seq<Status>) {
    forall i :: 0 < i < |t| ==> Advances(t[i - 1], t[i])
  }

  function Rank(s: Status): nat {
    match s case Queued => 0 case Pending => 1 case Running => 2 case Ended(_) => 3
  }

  /** A run that left the queue never returns to it, and a terminal status is final. */
  lemma {:induction false} LegalLife(t: seq<Status>, i: nat, j: nat)
    requires Legal(t) && i <= j < |t|
    ensures Rank(t[i]) <= Rank(t[j])
    ensures !t[i].Queued? ==> !t[j].Queued?
    ensures t[i].Ended? ==> t[j] == t[i]
    decreases j - i
  {
    if i < j { LegalLife(t, i, j - 1); }
  }

  // ---------------------------------------------------------------- the tables together

  /** The queue has a row for a run exactly when the run is queued. */
  predicate Consistent(runs: map<nat, Run>, q: seq<Item>) {
    && (forall id :: id in runs ==> (runs[id].status.Queued? <==> id in Ids(q)))
    && (forall i :: 0 <= i < |q| ==> q[i].run in runs && runs[q[i].run].definition == q[i].definition)
  }

  /** The statuses each run has had, one entry per transaction since it was created. */
  predicate Recorded(runs: map<nat, Run>, lives: map<nat, seq<Status>>) {
    && (forall id :: id in lives ==> Legal(lives[id]))
    && (forall id :: id in runs ==> id in lives && lives[id] != [] && lives[id][|lives[id]| - 1] == runs[id].status)
  }

  function Log(runs: map<nat, Run>, lives: map<nat, seq<Status>>): (u: map<nat, seq<Status>>)
    ensures u.Keys == lives.Keys + runs.Keys
  {
    lives + (map id | id in runs :: (if id in lives then lives[id] else []) + [runs[id].status])
  }

  /** A terminal status is written together with its time. */
  function Mark(runs: map<nat, Run>, ids: set<nat>, status: Status, at: int): (u: map<nat, Run>)
    ensures u.Keys == runs.Keys
  {
    map id | id in runs ::
      if id !in ids then runs[id]
      else if status.Ended? then runs[id].(status := status, ended := Some(at))
      else runs[id].(status := status)
  }

  /** What a run becomes: it keeps its definition, and only a terminal status sets the end time. */
  lemma {:induction false} MarkAt(runs: map<nat, Run>, ids: set<nat>, status: Status, at: int, id: nat)
    requires id in runs
    ensures Mark(runs, ids, status, at)[id] ==
            if id !in ids then runs[id]
            else Run(runs[id].definition, status, if status.Ended? then Some(at) else runs[id].ended)
  {
  }

  lemma {:induction false} MarkOne(runs: map<nat, Run>, id: nat, status: Status, at: int)
    requires id in runs
    ensures Mark(runs, {id}, status, at) ==
            runs[id := Run(runs[id].definition, status, if status.Ended? then Some(at) else runs[id].ended)]
  {
    hide Mark;
    forall k | k in runs ensures k != id ==> Mark(runs, {id}, status, at)[k] == runs[k] {
      MarkAt(runs, {id}, status, at, k);
    }
    MarkAt(runs, {id}, status, at, id);
  }

  /** The runs of a definition with a row in the queue are its queued runs. */
  lemma {:induction false} QueuedOf(runs: map<nat, Run>, q: seq<Item>, d: nat)
    requires Consistent(runs, q)
    ensures forall id ::
              id in OfDefinition(q, d) <==> id in runs && runs[id].definition == d && runs[id].status.Queued?
  {
    forall id | id in runs && runs[id].definition == d && runs[id].status.Queued?
        ensures id in OfDefinition(q, d) {
      assert id in Ids(q);
      var i :| 0 <= i < |q| && q[i].run == id;
    }
  }

  lemma {:induction false} QueuedHasRow(runs: map<nat, Run>, q: seq<Item>, id: nat)
    requires Consistent(runs, q)
    ensures id in Ids(q) <==> id in runs && runs[id].status.Queued?
    ensures id !in Ids(q) ==> forall x :: x in q ==> x.run != id
  {
  }

  lemma {:induction false} UnfinishedAre(runs: map<nat, Run>, q: seq<Item>)
    requires Consistent(runs, q)
    ensures forall id ::
              id in Unfinished(runs, q) <==> id in runs && (runs[id].status.Pending? || runs[id].status.Running?)
  {
  }

  /** Every terminal run has an end time. */
  predicate Stamped(runs: map<nat, Run>) {
    forall id :: id in runs && runs[id].status.Ended? ==> runs[id].ended.Some?
  }

  lemma {:induction false} MarkStamped(runs: map<nat, Run>, ids: set<nat>, status: Status, at: int)
    requires Stamped(runs)
    ensures Stamped(Mark(runs, ids, status, at))
  {
  }

  /** A transaction that only advances statuses and only adds unused ids keeps the record. */
  lemma {:induction false} LogKeeps(runs: map<nat, Run>, after: map<nat, Run>, lives: map<nat, seq<Status>>)
    requires Recorded(runs, lives)
    requires forall id :: id in after && id in runs ==> Advances(runs[id].status, after[id].status)
    requires forall id :: id in after && id !in runs ==> id !in lives
    ensures Recorded(after, Log(after, lives))
  {
    var u := Log(after, lives);
    forall id | id in u ensures Legal(u[id]) {
      if id in after && id in lives {
        LegalGrows(lives[id], after[id].status);
      }
    }
  }

  lemma {:induction false} LegalGrows(t: seq<Status>, s: Status)
    requires Legal(t) && (t != [] ==> Advances(t[|t| - 1], s))
    ensures Legal(t + [s])
  {
  }

  /** Queued runs leave together: their rows go and their statuses change in one step. */
  lemma {:induction false} LeaveKeeps(runs: map<nat, Run>, q: seq<Item>, ids: set<nat>, status: Status, now: int)
    requires Consistent(runs, q) && ids <= Ids(q) && !status.Queued?
    ensures Consistent(Mark(runs, ids, status, now), Without(q, ids))
  {
    WithoutMembers(q, ids);
    var w := Without(q, ids);
    assert forall i :: 0 <= i < |w| ==> w[i] in w;
    assert forall id :: id in Ids(w) <==> id in Ids(q) && id !in ids by {
      forall id | id in Ids(q) && id !in ids ensures id in Ids(w) {
        var i :| 0 <= i < |q| && q[i].run == id;
        assert q[i] in w;
      }
    }
  }

  lemma {:induction false} LeaveAdvances(runs: map<nat, Run>, q: seq<Item>, ids: set<nat>, status: Status, now: int)
    requires Consistent(runs, q) && ids <= Ids(q) && (status.Pending? || status.Ended?)
    ensures forall id :: id in runs ==> Advances(runs[id].status, Mark(runs, ids, status, now)[id].status)
  {
  }

  class Store {
    const limits: Limits
    var runs: map<nat, Run>
    var queue: seq<Item>
    var nextOrder: nat
    ghost var lives: map<nat, seq<Status>>

    ghost predicate Valid()
      reads this
    {
      && Consistent(runs, queue) && Recorded(runs, lives) && Sorted(queue) && Within(queue, limits) && Stamped(runs)
      && forall i :: 0 <= i < |queue| ==> queue[i].order < nextOrder
    }

    constructor (limits: Limits)
      ensures Valid() && runs == map[] && queue == [] && lives == map[] && this.limits == limits
    {
      this.limits, runs, queue, nextOrder, lives := limits, map[], [], 0, map[];
    }

    /** The transaction shared by every way out of the queue. */
    method Leave(ids: set<nat>, status: Status, now: int)
      requires Valid() && ids <= Ids(queue) && (status.Pending? || status.Ended?)
      modifies this`runs, this`queue, this`lives
      ensures Valid() && queue == Without(old(queue), ids) && runs == Mark(old(runs), ids, status, now)
              && lives == Log(runs, old(lives))
      ensures forall x :: x in queue <==> x in old(queue) && x.run !in ids
    {
      WithoutMembers(queue, ids);
      hide Consistent, Recorded, Sorted, Within, Without, Mark, Log;
      LeaveKeeps(runs, queue, ids, status, now);
      LeaveRecord(runs, queue, lives, ids, status, now);
      MarkStamped(runs, ids, status, now);
      LeaveTable(queue, ids, limits, nextOrder);
      queue, runs := Without(queue, ids), Mark(runs, ids, status, now);
      lives := Log(runs, lives);
    }

    /** Persists a run and its queue row together, after checking every limit. */
    method EnqueueRun(id: nat, definition: nat, bytes: nat, expires: int, unique: bool, replayed: bool)
        returns (r: Enqueued)
      requires Valid() && (id in lives ==> id in runs) // run ids are never reused
      modifies this`runs, this`queue, this`nextOrder, this`lives
      ensures Valid()
      ensures r.Accepted? ==>
                id !in old(runs) && runs == old(runs)[id := Run(definition, Queued, None)]
                && lives == Log(runs, old(lives))
      ensures r.Accepted? ==>
                queue == old(queue) + [Item(old(nextOrder), id, definition, expires, bytes)]
                && nextOrder == old(nextOrder) + 1
      ensures !r.Accepted? ==>
                runs == old(runs) && queue == old(queue) && lives == old(lives) && nextOrder == old(nextOrder)
      ensures var full := |old(queue)| >= limits.maxItems || Count(old(queue), definition) >= limits.maxPerJob
                          || Bytes(old(queue)) + bytes > limits.maxBytes;
              var again := unique && Count(old(queue), definition) > 0;
              && (r.Duplicate? <==> !replayed && again)
              && (r.Full? <==> !replayed && !again && full)
              && (r.Accepted? <==> !replayed && !again && !full && id !in old(runs))
    {
      hide Consistent, Recorded, Sorted, Within, Log, Count, Bytes;
      var perJob := Count(queue, definition);
      if replayed { return Constraint; }
      if unique && perJob > 0 { return Duplicate; }
      if |queue| >= limits.maxItems { return Full; }
      if perJob >= limits.maxPerJob { return Full; }
      if Bytes(queue) + bytes > limits.maxBytes { return Full; }
      if id in runs { return Constraint; }
      var item := Item(nextOrder, id, definition, expires, bytes);
      JoinKeeps(runs, queue, lives, item, limits);
      runs, queue, nextOrder := runs[id := Run(definition, Queued, None)], queue + [item], nextOrder + 1;
      lives := Log(runs, lives);
      r := Accepted;
    }

    /** Ends one queued run; a run that is not queued is left alone and reported. */
    method EndQueued(id: nat, code: nat, now: int) returns (ok: bool)
      requires Valid()
      modifies this`runs, this`queue, this`lives
      ensures Valid() && ok == (id in Ids(old(queue)))
      ensures forall x :: x in queue <==> x in old(queue) && x.run != id
      ensures if ok then
                && queue == Without(old(queue), {id}) && lives == Log(runs, old(lives)) && id in old(runs)
                && runs == old(runs)[id := Run(old(runs)[id].definition, Ended(code), Some(now))]
              else queue == old(queue) && runs == old(runs) && lives == old(lives)
    {
      hide Consistent, Recorded, Sorted, Within, Without, Mark, Log, Ids, Stamped;
      ok := id in runs && runs[id].status.Queued?;
      QueuedHasRow(runs, queue, id);
      if ok {
        MarkOne(runs, id, Ended(code), now);
        Leave({id}, Ended(code), now);
      }
    }

    /** Ends every queued run of a definition that was deleted or disabled. */
    method DropDefinitionQueued(definition: nat, code: nat, now: int)
      requires Valid()
      modifies this`runs, this`queue, this`lives
      ensures Valid() && forall x :: x in queue <==> x in old(queue) && x.definition != definition
      ensures runs.Keys == old(runs).Keys && lives == Log(runs, old(lives))
      ensures forall id :: id in runs ==>
                runs[id] == if old(runs)[id].definition == definition && old(runs)[id].status.Queued?
                            then Run(definition, Ended(code), Some(now)) else old(runs)[id]
    {
      hide Consistent, Recorded, Sorted, Within, Mark, Log, Without, Stamped, OfDefinition, Ids;
      QueuedOf(runs, queue, definition);
      forall id | id in runs { MarkAt(runs, OfDefinition(queue, definition), Ended(code), now, id); }
      RowsOf(queue, definition);
      Leave(OfDefinition(queue, definition), Ended(code), now);
    }

    /** Turns a queued run into a pending one. */
    method DequeueRun(id: nat, now: int) returns (ok: bool)
      requires Valid()
      modifies this`runs, this`queue, this`lives
      ensures Valid() && ok == (id in Ids(old(queue)))
      ensures forall x :: x in queue <==> x in old(queue) && x.run != id
      ensures if ok then
                && queue == Without(old(queue), {id}) && lives == Log(runs, old(lives)) && id in old(runs)
                && runs == old(runs)[id := Run(old(runs)[id].definition, Pending, old(runs)[id].ended)]
              else queue == old(queue) && runs == old(runs) && lives == old(lives)
    {
      hide Consistent, Recorded, Sorted, Within, Without, Mark, Log, Ids, Stamped;
      ok := id in runs && runs[id].status.Queued?;
      QueuedHasRow(runs, queue, id);
      if ok {
        MarkOne(runs, id, Pending, now);
        Leave({id}, Pending, now);
      }
    }

    /** Ends up to limit expired runs, earliest expiry first. */
    method ExpireQueued(now: int, limit: nat) returns (ids: seq<nat>)
      requires Valid()
      modifies this`runs, this`queue, this`lives
      ensures Valid() && |ids| <= limit && Distinct(ids) && AsSet(ids) <= Ids(old(queue))
      ensures queue == Without(old(queue), AsSet(ids)) && runs.Keys == old(runs).Keys && lives == Log(runs, old(lives))
      ensures forall id :: id in runs ==>
                runs[id] == if id in ids then Run(old(runs)[id].definition, Ended(EXPIRED), Some(now))
                            else old(runs)[id]
      ensures forall x :: x in old(queue) && x.run in ids ==> x.expires <= now
      ensures |ids| < limit ==> forall x :: x in queue ==> x.expires > now
      ensures forall x, y :: x in old(queue) && x.run in ids && y in queue ==> x.expires <= y.expires
    {
      hide Consistent, Recorded, Within, Mark, Log;
      ids := Earliest(queue, now, limit);
      forall id | id in runs { MarkAt(runs, AsSet(ids), Ended(EXPIRED), now, id); }
      WithoutMembers(queue, AsSet(ids));
      hide Without, Sorted, Distinct;
      Leave(AsSet(ids), Ended(EXPIRED), now);
    }

    /** Inserts a run that does not wait: pending, or already ended. */
    method CreateRun(id: nat, run: Run) returns (ok: bool)
      requires Valid() && !run.status.Queued? && (id in lives ==> id in runs)
      requires run.status.Ended? ==> run.ended.Some? // the caller stamps a run that never starts
      modifies this`runs, this`lives
      ensures Valid() && ok == (id !in old(runs))
      ensures if ok then runs == old(runs)[id := run] && lives == Log(runs, old(lives))
              else runs == old(runs) && lives == old(lives)
    {
      hide Sorted, Within, Log;
      ok := id !in runs;
      if ok {
        Rewrite(runs, runs[id := run], queue, lives);
        hide Consistent, Recorded;
        runs := runs[id := run];
        lives := Log(runs, lives);
      }
    }

    method StartRun(id: nat, now: int) returns (ok: bool)
      requires Valid()
      modifies this`runs, this`lives
      ensures Valid() && ok == (id in old(runs) && old(runs)[id].status.Pending?)
      ensures if ok then
                && lives == Log(runs, old(lives)) && id in old(runs)
                && runs == old(runs)[id := Run(old(runs)[id].definition, Running, old(runs)[id].ended)]
              else runs == old(runs) && lives == old(lives)
    {
      hide Sorted, Within, Log, Without;
      ok := id in runs && runs[id].status.Pending?;
      if ok {
        MarkOne(runs, id, Running, now);
        Rewrite(runs, Mark(runs, {id}, Running, now), queue, lives);
        MarkStamped(runs, {id}, Running, now);
        hide Consistent, Recorded, Mark, Stamped;
        runs := Mark(runs, {id}, Running, now);
        lives := Log(runs, lives);
      }
    }

    /** A run may end from pending or running, or be ended again with the status it has. */
    method FinishRun(id: nat, code: nat, now: int) returns (ok: bool)
      requires Valid()
      modifies this`runs, this`lives
      ensures Valid()
      ensures ok == (id in old(runs) && var st := old(runs)[id].status; st.Pending? || st.Running? || st == Ended(code))
      ensures if ok then
                && lives == Log(runs, old(lives)) && id in old(runs)
                && runs == old(runs)[id := Run(old(runs)[id].definition, Ended(code), Some(now))]
              else runs == old(runs) && lives == old(lives)
    {
      hide Sorted, Within, Log, Without;
      ok := id in runs && (runs[id].status.Pending? || runs[id].status.Running? || runs[id].status == Ended(code));
      if ok {
        MarkOne(runs, id, Ended(code), now);
        Rewrite(runs, Mark(runs, {id}, Ended(code), now), queue, lives);
        MarkStamped(runs, {id}, Ended(code), now);
        hide Consistent, Recorded, Mark, Stamped;
        runs := Mark(runs, {id}, Ended(code), now);
        lives := Log(runs, lives);
      }
    }

    /** After a crash: unfinished runs are interrupted, queued ones stay queued. */
    method Recover(now: int)
      requires Valid()
      modifies this`runs, this`lives
      ensures Valid() && lives == Log(runs, old(lives))
      ensures runs.Keys == old(runs).Keys
      ensures forall id :: id in runs ==>
                runs[id] == if old(runs)[id].status.Pending? || old(runs)[id].status.Running?
                            then Run(old(runs)[id].definition, Ended(INTERRUPTED), Some(now)) else old(runs)[id]
    {
      hide Sorted, Within, Log;
      var ids := Unfinished(runs, queue);
      UnfinishedAre(runs, queue);
      Rewrite(runs, Mark(runs, ids, Ended(INTERRUPTED), now), queue, lives);
      hide Recorded;
      runs := Mark(runs, ids, Ended(INTERRUPTED), now);
      lives := Log(runs, lives);
    }

    /** Deletes terminal runs; those whose replay key is still live are kept. */
    method DeleteRuns(ids: set<nat>, live: set<nat>)
      requires Valid()
      modifies this`runs, this`lives
      ensures Valid() && lives == Log(runs, old(lives))
      ensures runs == map id | id in old(runs) && !(id in ids && id !in live && old(runs)[id].status.Ended?) ::
              old(runs)[id]
    {
      hide Sorted, Within, Log;
      var after := map id | id in runs && !(id in ids && id !in live && runs[id].status.Ended?) :: runs[id];
      Rewrite(runs, after, queue, lives);
      hide Consistent, Recorded;
      runs := after;
      lives := Log(runs, lives);
    }

    /** The oldest row of each definition, oldest first, at most limit of them. */
    method QueueHeads(limit: nat) returns (heads: seq<Item>)
      requires Valid()
      ensures |heads| <= limit && (forall i, j :: 0 <= i < j < |heads| ==> heads[i].order < heads[j].order)
      ensures forall h :: h in heads ==> h in queue && Oldest(queue, h)
      ensures forall x :: x in queue && Oldest(queue, x) && x !in heads ==>
                |heads| == limit && forall h :: h in heads ==> h.order < x.order
    {
      hide Consistent, Recorded, Within;
      heads := [];
      var seen: set<nat> := {};
      for i := 0 to |queue|
        invariant heads == Take(HeadsOf(queue, i), limit)
        invariant forall d: nat :: d in seen <==> Present(queue, i, d)
      {
        if queue[i].definition !in seen && |heads| < limit { heads := heads + [queue[i]]; }
        seen := seen + {queue[i].definition};
      }
      HeadsMeaning(queue, limit);
    }
  }

  /** Definition d has a row among the first k. */
  predicate Present(q: seq<Item>, k: nat, d: nat)
    requires k <= |q|
  {
    exists i :: 0 <= i < k && q[i].definition == d
  }

  /** The first row of each definition among the first k rows. */
  function HeadsOf(q: seq<Item>, k: nat): seq<Item>
    requires k <= |q|
  {
    if k == 0 then []
    else HeadsOf(q, k - 1) + if Present(q, k - 1, q[k - 1].definition) then [] else [q[k - 1]]
  }

  function Take<T>(s: seq<T>, n: nat): seq<T> { if |s| <= n then s else s[..n] }

  predicate Oldest(q: seq<Item>, x: Item) {
    forall i :: 0 <= i < |q| && q[i].definition == x.definition ==> x.order <= q[i].order
  }

  /** Every head is a row without an older one of its definition. */
  lemma {:induction false} HeadFrom(q: seq<Item>, k: nat, j: nat) returns (i: nat)
    requires k <= |q| && j < |HeadsOf(q, k)|
    ensures i < k && HeadsOf(q, k)[j] == q[i] && !Present(q, i, q[i].definition)
  {
    hide Present;
    if j < |HeadsOf(q, k - 1)| {
      i := HeadFrom(q, k - 1, j);
    } else {
      i := k - 1;
    }
  }

  /** Every row without an older one of its definition is a head. */
  lemma {:induction false} HeadThere(q: seq<Item>, k: nat, i: nat) returns (j: nat)
    requires i < k <= |q| && !Present(q, i, q[i].definition)
    ensures j < |HeadsOf(q, k)| && HeadsOf(q, k)[j] == q[i]
  {
    hide Present;
    if i < k - 1 {
      j := HeadThere(q, k - 1, i);
    } else {
      j := |HeadsOf(q, k - 1)|;
    }
  }

  lemma {:induction false} HeadsSorted(q: seq<Item>, k: nat)
    requires Sorted(q) && k <= |q|
    ensures forall i, j :: 0 <= i < j < |HeadsOf(q, k)| ==> HeadsOf(q, k)[i].order < HeadsOf(q, k)[j].order
  {
    hide Present;
    if k > 0 {
      HeadsSorted(q, k - 1);
      var h := HeadsOf(q, k - 1);
      forall i | 0 <= i < |h| ensures h[i].order < q[k - 1].order {
        var m := HeadFrom(q, k - 1, i);
      }
    }
  }

  lemma {:induction false} OldestIsFirst(q: seq<Item>, i: nat)
    requires Sorted(q) && i < |q|
    ensures Oldest(q, q[i]) <==> !Present(q, i, q[i].definition)
  {
  }

  lemma {:induction false} HeadsMeaning(q: seq<Item>, limit: nat)
    requires Sorted(q)
    ensures var heads := Take(HeadsOf(q, |q|), limit);
            && |heads| <= limit && (forall i, j :: 0 <= i < j < |heads| ==> heads[i].order < heads[j].order)
            && (forall h :: h in heads ==> h in q && Oldest(q, h))
            && (forall x :: x in q && Oldest(q, x) && x !in heads ==>
                  |heads| == limit && forall h :: h in heads ==> h.order < x.order)
  {
    hide Present, HeadsOf, Oldest, Sorted;
    var all := HeadsOf(q, |q|);
    var heads := Take(all, limit);
    HeadsSorted(q, |q|);
    forall h | h in heads ensures h in q && Oldest(q, h) {
      var j :| 0 <= j < |heads| && heads[j] == h;
      var i := HeadFrom(q, |q|, j);
      OldestIsFirst(q, i);
    }
    forall x | x in q && Oldest(q, x) && x !in heads
        ensures |heads| == limit && forall h :: h in heads ==> h.order < x.order {
      var i :| 0 <= i < |q| && q[i] == x;
      OldestIsFirst(q, i);
      var j := HeadThere(q, |q|, i);
      assert forall k :: 0 <= k < |heads| ==> heads[k] == all[k] && heads[k] in heads;
    }
  }

  function Unfinished(runs: map<nat, Run>, q: seq<Item>): set<nat> {
    set id | id in runs && (runs[id].status.Pending? || runs[id].status.Running?
        || (runs[id].status.Queued? && id !in Ids(q)))
  }

  /** A transaction that leaves the queued runs alone keeps both tables in step. */
  lemma {:induction false} Rewrite(runs: map<nat, Run>, after: map<nat, Run>, q: seq<Item>, lives: map<nat,
        seq<Status>>)
    requires Consistent(runs, q) && Recorded(runs, lives)
    requires forall id :: id in runs && runs[id].status.Queued? ==> id in after && after[id] == runs[id]
    requires forall id :: id in after && after[id].status.Queued? ==> id in runs && runs[id].status.Queued?
    requires forall id :: id in after && id in runs ==> Advances(runs[id].status, after[id].status)
    requires forall id :: id in after && id !in runs ==> id !in lives
    ensures Consistent(after, q) && Recorded(after, Log(after, lives))
  {
    LogKeeps(runs, after, lives);
    hide Recorded, Log;
    forall id | id in after ensures after[id].status.Queued? <==> id in Ids(q) {
      if id in Ids(q) {
        var i :| 0 <= i < |q| && q[i].run == id;
      }
    }
  }

  const EXPIRED: nat := 1

  function OfDefinition(q: seq<Item>, d: nat): set<nat> {
    set i | 0 <= i < |q| && q[i].definition == d :: q[i].run
  }

  function AsSet(ids: seq<nat>): set<nat> { set i | 0 <= i < |ids| :: ids[i] }

  predicate Distinct(ids: seq<nat>) { forall i, j :: 0 <= i < j < |ids| ==> ids[i] != ids[j] }

  lemma {:induction false} RowsOf(q: seq<Item>, d: nat)
    requires Sorted(q)
    ensures OfDefinition(q, d) <= Ids(q)
    ensures forall x :: x in q ==> (x.run in OfDefinition(q, d) <==> x.definition == d)
  {
    forall x | x in q && x.run in OfDefinition(q, d) ensures x.definition == d {
      var i :| 0 <= i < |q| && q[i].definition == d && q[i].run == x.run;
      SameRun(q, q[i]);
    }
  }

  /** A new row at the end, for a run that did not exist, with room for it. */
  lemma {:induction false} JoinKeeps(runs: map<nat, Run>, q: seq<Item>, lives: map<nat, seq<Status>>, x: Item,
        l: Limits)
    requires Consistent(runs, q) && Recorded(runs, lives) && Sorted(q) && Within(q, l)
    requires x.run !in runs && x.run !in lives && forall i :: 0 <= i < |q| ==> q[i].order < x.order
    requires |q| < l.maxItems && Count(q, x.definition) < l.maxPerJob && Bytes(q) + x.bytes <= l.maxBytes
    ensures var after := runs[x.run := Run(x.definition, Queued, None)];
            Consistent(after, q + [x]) && Recorded(after, Log(after, lives)) && Sorted(q + [x]) && Within(q + [x], l)
    ensures forall i :: 0 <= i < |q + [x]| ==> (q + [x])[i].order < x.order + 1
  {
    hide Consistent, Recorded, Sorted, Within, Log;
    JoinTables(runs, q, x);
    JoinRecord(runs, lives, x);
    JoinWithin(q, x, l);
  }

  lemma {:induction false} JoinTables(runs: map<nat, Run>, q: seq<Item>, x: Item)
    requires Consistent(runs, q) && Sorted(q) && x.run !in runs && forall i :: 0 <= i < |q| ==> q[i].order < x.order
    ensures Consistent(runs[x.run := Run(x.definition, Queued, None)], q + [x]) && Sorted(q + [x])
  {
    assert forall id :: id in Ids(q + [x]) <==> id in Ids(q) || id == x.run by {
      hide Consistent, Sorted;
      assert (q + [x])[|q|] == x;
      forall id | id in Ids(q) ensures id in Ids(q + [x]) {
        var i :| 0 <= i < |q| && q[i].run == id;
        assert (q + [x])[i].run == id;
      }
    }
  }

  lemma {:induction false} JoinRecord(runs: map<nat, Run>, lives: map<nat, seq<Status>>, x: Item)
    requires Recorded(runs, lives) && x.run !in runs && x.run !in lives
    ensures var after := runs[x.run := Run(x.definition, Queued, None)]; Recorded(after, Log(after, lives))
  {
    hide Recorded, Log;
    LogKeeps(runs, runs[x.run := Run(x.definition, Queued, None)], lives);
  }

  lemma {:induction false} JoinWithin(q: seq<Item>, x: Item, l: Limits)
    requires Within(q, l) && |q| < l.maxItems && Count(q, x.definition) < l.maxPerJob
             && Bytes(q) + x.bytes <= l.maxBytes
    ensures Within(q + [x], l)
  {
    AppendCounts(q, x);
    hide Bytes, Count;
    forall d: nat ensures Count(q + [x], d) <= l.maxPerJob { assert Count(q, d) <= l.maxPerJob; }
  }

  /** The position of the earliest expiring row, if the table is not empty. */
  method EarliestAt(q: seq<Item>) returns (k: nat)
    requires q != []
    ensures k < |q| && forall i :: 0 <= i < |q| ==> q[k].expires <= q[i].expires
  {
    k := 0;
    for i := 1 to |q|
      invariant k < |q| && forall j :: 0 <= j < i ==> q[k].expires <= q[j].expires
    {
      if q[i].expires < q[k].expires { k := i; }
    }
  }

  method Earliest(q: seq<Item>, now: int, limit: nat) returns (ids: seq<nat>)
    requires Sorted(q)
    ensures |ids| <= limit && Distinct(ids) && AsSet(ids) <= Ids(q)
    ensures forall x :: x in q && x.run in AsSet(ids) ==> x.expires <= now
    ensures |ids| < limit ==> forall x :: x in q && x.run !in AsSet(ids) ==> x.expires > now
    ensures forall x, y :: x in q && y in q && x.run in AsSet(ids) && y.run !in AsSet(ids) ==> x.expires <= y.expires
  {
    ids := [];
    var rest := q;
    while |ids| < limit && rest != []
      invariant |ids| <= limit && Distinct(ids) && AsSet(ids) <= Ids(q)
      invariant forall x :: x in rest <==> x in q && x.run !in AsSet(ids)
      invariant forall x :: x in q && x.run in AsSet(ids) ==> x.expires <= now
      invariant forall x, y :: x in q && x.run in AsSet(ids) && y in rest ==> x.expires <= y.expires
      decreases limit - |ids|
    {
      var k := EarliestAt(rest);
      if rest[k].expires > now { break; }
      AsSetAppend(ids, rest[k].run);
      SameRun(q, rest[k]);
      WithoutMembers(rest, {rest[k].run});
      hide Without, Sorted, AsSet;
      assert rest[k] in rest && Distinct(ids + [rest[k].run]) by { InSet(ids); }
      ids, rest := ids + [rest[k].run], Without(rest, {rest[k].run});
    }
  }

  lemma {:induction false} AsSetAppend(ids: seq<nat>, id: nat)
    ensures AsSet(ids + [id]) == AsSet(ids) + {id}
  {
    var next := ids + [id];
    assert next[|ids|] == id;
    forall x | x in AsSet(ids) ensures x in AsSet(next) {
      var i :| 0 <= i < |ids| && ids[i] == x;
      assert next[i] == x;
    }
  }

  lemma {:induction false} InSet(ids: seq<nat>)
    ensures forall i :: 0 <= i < |ids| ==> ids[i] in AsSet(ids)
  {
  }

  lemma {:induction false} SameRun(q: seq<Item>, x: Item)
    requires Sorted(q)
    ensures x in q ==> x.run in Ids(q) && forall y :: y in q && y.run == x.run ==> y == x
  {
  }

  lemma {:induction false} LeaveRecord(runs: map<nat, Run>, q: seq<Item>, lives: map<nat, seq<Status>>, ids: set<nat>,
        status: Status,
                    now: int)
    requires Consistent(runs, q) && Recorded(runs, lives) && ids <= Ids(q) && (status.Pending? || status.Ended?)
    ensures Recorded(Mark(runs, ids, status, now), Log(Mark(runs, ids, status, now), lives))
  {
    LeaveAdvances(runs, q, ids, status, now);
    hide Consistent, Recorded, Log;
    LogKeeps(runs, Mark(runs, ids, status, now), lives);
  }

  lemma {:induction false} LeaveTable(q: seq<Item>, ids: set<nat>, l: Limits, next: nat)
    requires Sorted(q) && Within(q, l) && forall i :: 0 <= i < |q| ==> q[i].order < next
    ensures Sorted(Without(q, ids)) && Within(Without(q, ids), l)
    ensures forall i :: 0 <= i < |Without(q, ids)| ==> Without(q, ids)[i].order < next
  {
    WithoutSorted(q, ids);
    WithoutShrinks(q, ids);
    WithoutMembers(q, ids);
    hide Sorted, Without;
    var w := Without(q, ids);
    forall d: nat ensures Count(w, d) <= l.maxPerJob { assert Count(w, d) <= Count(q, d); }
    forall i | 0 <= i < |w| ensures w[i].order < next { assert w[i] in w; }
  }

  // ---------------------------------------------------------------- every history

  lemma {:induction false} RecordedKeys(runs: map<nat, Run>, lives: map<nat, seq<Status>>)
    requires Recorded(runs, lives)
    ensures runs.Keys <= lives.Keys
  {
  }

  lemma {:induction false} RecordedLegal(runs: map<nat, Run>, lives: map<nat, seq<Status>>)
    requires Recorded(runs, lives)
    ensures forall id :: id in lives ==> Legal(lives[id])
  {
  }

  datatype Transaction =
    | Enqueue(id: nat, definition: nat, bytes: nat, expires: int, unique: bool, replayed: bool)
    | Expire(now: int, limit: nat)
    | EndOne(id: nat, code: nat, now: int)
    | DropDefinition(definition: nat, code: nat, now: int)
    | Dequeue(id: nat, now: int)
    | Create(id: nat, definition: nat, ended: Option<int>, code: nat)
    | Start(id: nat, now: int)
    | Finish(id: nat, code: nat, now: int)
    | Restart(now: int)
    | Delete(ids: set<nat>, live: set<nat>)

  /** The run ids that the first k transactions brought up. */
  function Named(ts: seq<Transaction>, k: nat): set<nat>
    requires k <= |ts|
  {
    if k == 0 then {}
    else Named(ts, k - 1) + if ts[k - 1].Enqueue? || ts[k - 1].Create? then {ts[k - 1].id} else {}
  }

  /** Any sequence of committed transactions that never reuses a run id; an insert under a new id takes place. */
  method Perform(limits: Limits, ts: seq<Transaction>) returns (s: Store)
    ensures s.Valid() && s.limits == limits
    ensures Consistent(s.runs, s.queue) && Within(s.queue, limits) && forall id :: id in s.lives ==> Legal(s.lives[id])
    ensures Stamped(s.runs)
    ensures forall k :: 0 <= k < |ts| && ts[k].Create? && ts[k].id !in Named(ts, k) ==> ts[k].id in s.lives
  {
    hide Consistent, Recorded, Within, Sorted, Log, Mark, Without;
    s := new Store(limits);
    var used: set<nat> := {};
    for k := 0 to |ts|
      invariant s.Valid() && s.limits == limits && s.lives.Keys <= used == Named(ts, k) && fresh(s)
      invariant forall j :: 0 <= j < k && ts[j].Create? && ts[j].id !in Named(ts, j) ==> ts[j].id in s.lives
    {
      RecordedKeys(s.runs, s.lives);
      match ts[k]
      case Enqueue(id, definition, bytes, expires, unique, replayed) =>
        if id !in used || id in s.runs {
          var r := s.EnqueueRun(id, definition, bytes, expires, unique, replayed);
        }
        used := used + {id};
      case Expire(now, limit) => var ids := s.ExpireQueued(now, limit);
      case EndOne(id, code, now) => var ok := s.EndQueued(id, code, now);
      case DropDefinition(definition, code, now) => s.DropDefinitionQueued(definition, code, now);
      case Dequeue(id, now) => var ok := s.DequeueRun(id, now);
      case Create(id, definition, ended, code) =>
        if id !in used || id in s.runs {
          var ok := s.CreateRun(id, Run(definition, if ended.Some? then Ended(code) else Pending, ended));
        }
        used := used + {id};
      case Start(id, now) => var ok := s.StartRun(id, now);
      case Finish(id, code, now) => var ok := s.FinishRun(id, code, now);
      case Restart(now) => s.Recover(now);
      case Delete(ids, live) => s.DeleteRuns(ids, live);
    }
    RecordedLegal(s.runs, s.lives);
  }
}
