/**
 Who the drain serves next: the head of the least recently served definition among the
 oldest heads, ties by age.
 */
module Fairness {
  import opened QueueStore

  const WINDOW: nat := 64
  const MAX_SERVED: nat := 4096

  function Tick(served: map<nat, nat>, d: nat): nat { if d in served then served[d] else 0 }

  /** heads[k] is the first of the least recently served heads. */
  predicate Picked(heads: seq<Item>, served: map<nat, nat>, k: nat) {
    && k < |heads|
    && (forall i :: 0 <= i < |heads| ==> Tick(served, heads[k].definition) <= Tick(served, heads[i].definition))
    && (forall i :: 0 <= i < k ==> Tick(served, heads[k].definition) < Tick(served, heads[i].definition))
  }

  method NextItem(heads: seq<Item>, served: map<nat, nat>) returns (k: nat)
    requires heads != []
    ensures Picked(heads, served, k) && k < |heads|
    ensures forall i :: 0 <= i < |heads| ==>
              var mine, other := Tick(served, heads[k].definition), Tick(served, heads[i].definition);
              mine < other || (mine == other && k <= i)
  {
    k := 0;
    for i := 1 to |heads|
      invariant k < i
      invariant forall j :: 0 <= j < i ==> Tick(served, heads[k].definition) <= Tick(served, heads[j].definition)
      invariant forall j :: 0 <= j < k ==> Tick(served, heads[k].definition) < Tick(served, heads[j].definition)
    {
      if Tick(served, heads[i].definition) < Tick(served, heads[k].definition) { k := i; }
    }
  }

  /** One step of the drain: the heads it saw, its choice, and whether the item left the queue. */
  datatype Service = Service(heads: seq<Item>, pick: nat, done: bool)

  datatype Clock = Clock(served: map<nat, nat>, tick: nat)

  function Chosen(s: Service): nat
    requires s.pick < |s.heads|
  {
    s.heads[s.pick].definition
  }

  predicate Clears(c: Clock, s: Service)
    requires s.pick < |s.heads|
  {
    s.done && |c.served[Chosen(s) := c.tick + 1]| > MAX_SERVED
  }

  function Serve(c: Clock, s: Service): Clock
    requires s.pick < |s.heads|
  {
    if Clears(c, s) then Clock(map[], c.tick + 1) else Clock(c.served[Chosen(s) := c.tick + 1], c.tick + 1)
  }

  /** The map of served definitions stays bounded, and forgets only to stay so. */
  lemma {:induction false} MemoryIsBounded(c: Clock, s: Service)
    requires s.pick < |s.heads|
    ensures s.done ==> |Serve(c, s).served| <= MAX_SERVED
    ensures !s.done || |c.served| < MAX_SERVED || (Chosen(s) in c.served && |c.served| == MAX_SERVED) ==>
              Serve(c, s).served == c.served[Chosen(s) := c.tick + 1]
    ensures Serve(c, s).tick == c.tick + 1
  {
    assert c.served[Chosen(s) := c.tick + 1].Keys == c.served.Keys + {Chosen(s)};
    assert |c.served.Keys + {Chosen(s)}| == |c.served.Keys| + if Chosen(s) in c.served then 0 else 1 by {
      if Chosen(s) in c.served { assert c.served.Keys + {Chosen(s)} == c.served.Keys; }
    }
    Sizes(c.served);
    Sizes(c.served[Chosen(s) := c.tick + 1]);
  }

  lemma {:induction false} Sizes(m: map<nat, nat>)
    ensures |m| == |m.Keys|
  {
  }

  predicate HasChoice(ss: seq<Service>) { forall i :: 0 <= i < |ss| ==> ss[i].pick < |ss[i].heads| }

  /** The clock before service n. */
  function At(c: Clock, ss: seq<Service>, n: nat): Clock
    requires HasChoice(ss) && n <= |ss|
  {
    if n == 0 then c else Serve(At(c, ss, n - 1), ss[n - 1])
  }

  /** Each choice follows the rule. */
  predicate Ruled(c: Clock, ss: seq<Service>) {
    HasChoice(ss) && forall i :: 0 <= i < |ss| ==> Picked(ss[i].heads, At(c, ss, i).served, ss[i].pick)
  }

  predicate Past(c: Clock) { forall d :: d in c.served ==> c.served[d] <= c.tick }

  lemma {:induction false} AlwaysPast(c: Clock, ss: seq<Service>, n: nat)
    requires Past(c) && HasChoice(ss) && n <= |ss|
    ensures Past(At(c, ss, n))
  {
    if n > 0 { AlwaysPast(c, ss, n - 1); }
  }

  predicate InWindow(s: Service, d: nat) { exists m :: 0 <= m < |s.heads| && s.heads[m].definition == d }

  lemma {:induction false} ServeTicks(c: Clock, s: Service, d: nat)
    requires Past(c) && s.pick < |s.heads| && !Clears(c, s)
    ensures Tick(Serve(c, s).served, Chosen(s)) == c.tick + 1 && Past(Serve(c, s))
    ensures d != Chosen(s) ==> Tick(Serve(c, s).served, d) == Tick(c.served, d)
    ensures Tick(c.served, d) <= c.tick
  {
  }

  lemma {:induction false} AtNext(c: Clock, ss: seq<Service>, n: nat)
    requires HasChoice(ss) && n < |ss|
    ensures At(c, ss, n + 1) == Serve(At(c, ss, n), ss[n])
  {
  }

  /** After service i, a definition that is not served again stays behind the one served there. */
  lemma {:induction false} StaysBehind(c: Clock, ss: seq<Service>, i: nat, k: nat, d: nat)
    requires Past(c) && HasChoice(ss) && i < k <= |ss| && Chosen(ss[i]) != d
    requires forall m :: i <= m < k ==> !Clears(At(c, ss, m), ss[m])
    requires forall m :: i < m < k ==> Chosen(ss[m]) != d
    ensures Tick(At(c, ss, k).served, d) < Tick(At(c, ss, k).served, Chosen(ss[i]))
    ensures Past(At(c, ss, k))
  {
    hide Past, Tick, Clears, Serve, At, Chosen;
    var b := At(c, ss, k - 1);
    AtNext(c, ss, k - 1);
    AlwaysPast(c, ss, k - 1);
    ServeTicks(b, ss[k - 1], d);
    if i < k - 1 {
      StaysBehind(c, ss, i, k - 1, d);
      ServeTicks(b, ss[k - 1], Chosen(ss[i]));
    }
  }

  lemma {:induction false} NotAgain(c: Clock, ss: seq<Service>, i: nat, j: nat, d: nat)
    requires Past(c) && HasChoice(ss) && i < j < |ss| && Chosen(ss[i]) == Chosen(ss[j]) != d && InWindow(ss[j], d)
    requires forall m :: i <= m < j ==> !Clears(At(c, ss, m), ss[m])
    requires forall m :: i < m < j ==> Chosen(ss[m]) != d
    ensures !Picked(ss[j].heads, At(c, ss, j).served, ss[j].pick)
  {
    StaysBehind(c, ss, i, j, d);
  }

  /** While a definition's head is in the window, no other definition is served twice before it. */
  lemma {:induction false} NoSecondTurn(c: Clock, ss: seq<Service>, i: nat, j: nat, d: nat)
    requires Past(c) && Ruled(c, ss) && i < j < |ss|
    requires Chosen(ss[i]) == Chosen(ss[j]) != d && InWindow(ss[j], d)
    requires forall m :: i <= m < j ==> !Clears(At(c, ss, m), ss[m])
    ensures exists m :: i < m < j && Chosen(ss[m]) == d
  {
    if forall m :: i < m < j ==> Chosen(ss[m]) != d {
      NotAgain(c, ss, i, j, d);
    }
  }

  // ---------------------------------------------------------------- reaching the window

  function Window(q: seq<Item>): seq<Item> { Take(HeadsOf(q, |q|), WINDOW) }

  /** How many rows were queued before x. */
  function Older(q: seq<Item>, x: Item): nat {
    if q == [] then 0 else (if q[0].order < x.order then 1 else 0) + Older(q[1..], x)
  }

  /** x is the oldest row of its definition, but the window does not reach it. */
  predicate Waits(q: seq<Item>, x: Item) { x in q && Oldest(q, x) && x !in Window(q) }

  lemma {:induction false} OlderShrinks(q: seq<Item>, ids: set<nat>, x: Item)
    ensures Older(Without(q, ids), x) <= Older(q, x)
    ensures (exists y :: y in q && y.run in ids && y.order < x.order) ==> Older(Without(q, ids), x) < Older(q, x)
  {
    if q != [] {
      OlderShrinks(q[1..], ids, x);
      if q[0].run !in ids {
        assert Without(q, ids)[1..] == Without(q[1..], ids);
      } else {
        assert Without(q, ids) == Without(q[1..], ids);
      }
    }
  }

  lemma {:induction false} OlderAppend(q: seq<Item>, y: Item, x: Item)
    requires y.order > x.order
    ensures Older(q + [y], x) == Older(q, x)
  {
    if q == [] {
      assert q + [y] == [y];
    } else {
      assert (q + [y])[1..] == q[1..] + [y];
      OlderAppend(q[1..], y, x);
    }
  }

  /** What can happen to the queue: a window head is served, a row arrives, rows end otherwise. */
  datatype Change = Served(item: Item) | Arrived(item: Item) | Dropped(ids: set<nat>)

  function Apply(q: seq<Item>, c: Change): seq<Item> {
    match c
    case Served(y) => Without(q, {y.run})
    case Arrived(y) => q + [y]
    case Dropped(ids) => Without(q, ids)
  }

  predicate Possible(q: seq<Item>, c: Change) {
    match c
    case Served(y) => y in Window(q)
    case Arrived(y) => forall i :: 0 <= i < |q| ==> q[i].order < y.order && q[i].run != y.run
    case Dropped(_) => true
  }

  function Queue(q: seq<Item>, cs: seq<Change>, n: nat): seq<Item>
    requires n <= |cs|
  {
    if n == 0 then q else Apply(Queue(q, cs, n - 1), cs[n - 1])
  }

  function Services(cs: seq<Change>, n: nat): nat
    requires n <= |cs|
  {
    if n == 0 then 0 else Services(cs, n - 1) + if cs[n - 1].Served? then 1 else 0
  }

  lemma {:induction false} ChangeCounts(q: seq<Item>, c: Change, x: Item)
    requires Sorted(q) && Possible(q, c) && Waits(q, x)
    ensures Sorted(Apply(q, c))
    ensures Older(Apply(q, c), x) + (if c.Served? then 1 else 0) <= Older(q, x)
  {
    match c
    case Served(y) =>
      HeadsMeaning(q, WINDOW);
      WithoutSorted(q, {y.run});
      OlderShrinks(q, {y.run}, x);
    case Arrived(y) =>
      OlderAppend(q, y, x);
      AppendSorted(q, y);
    case Dropped(ids) =>
      WithoutSorted(q, ids);
      OlderShrinks(q, ids, x);
  }

  lemma {:induction false} AppendSorted(q: seq<Item>, y: Item)
    requires Sorted(q) && forall i :: 0 <= i < |q| ==> q[i].order < y.order && q[i].run != y.run
    ensures Sorted(q + [y])
  {
  }

  /** The change happens while x waits outside the window. */
  predicate PassesBy(q: seq<Item>, c: Change, x: Item) { Possible(q, c) && Waits(q, x) }

  /** A head outside the window is reached after finitely many services: each removes an older row. */
  lemma {:induction false} WaitIsBounded(q: seq<Item>, cs: seq<Change>, n: nat, x: Item)
    requires Sorted(q) && n <= |cs|
    requires forall k :: 0 <= k < n ==> PassesBy(Queue(q, cs, k), cs[k], x)
    ensures Sorted(Queue(q, cs, n)) && Services(cs, n) + Older(Queue(q, cs, n), x) <= Older(q, x)
  {
    hide Sorted, Waits, Possible, Apply, Older;
    if n > 0 {
      WaitIsBounded(q, cs, n - 1, x);
      assert PassesBy(Queue(q, cs, n - 1), cs[n - 1], x);
      ChangeCounts(Queue(q, cs, n - 1), cs[n - 1], x);
    }
  }

  lemma {:induction false} NoneOlder(q: seq<Item>, x: Item)
    requires forall i :: 0 <= i < |q| ==> q[i].order >= x.order
    ensures Older(q, x) == 0
  {
    if q != [] { NoneOlder(q[1..], x); }
  }

  lemma {:induction false} OlderIsPosition(q: seq<Item>, k: nat)
    requires Sorted(q) && k < |q|
    ensures Older(q, q[k]) == k
  {
    if k == 0 {
      NoneOlder(q, q[0]);
    } else {
      SortedTail(q);
      OlderIsPosition(q[1..], k - 1);
      assert q[k] in q[1..];
    }
  }

  /** So the row at position k waits for at most k services. */
  lemma {:induction false} WaitIsPosition(q: seq<Item>, cs: seq<Change>, n: nat, k: nat)
    requires Sorted(q) && n <= |cs| && k < |q|
    requires forall i :: 0 <= i < n ==> PassesBy(Queue(q, cs, i), cs[i], q[k])
    ensures Services(cs, n) <= k
  {
    WaitIsBounded(q, cs, n, q[k]);
    OlderIsPosition(q, k);
  }

  /** Items of one definition are served in the order they were queued. */
  lemma {:induction false} ServedIsOldest(q: seq<Item>, served: map<nat, nat>, k: nat)
    requires Sorted(q) && Picked(Window(q), served, k)
    ensures Window(q)[k] in q && Oldest(q, Window(q)[k])
  {
    HeadsMeaning(q, WINDOW);
    assert Window(q)[k] in Window(q);
  }
}
