/**
 The paged retention sweep.  Each page is chosen against the runs that are left after
 earlier pages were deleted, so the keep boundary moves while the sweep goes on.
 */
module Retention {
  import opened Options
  import QueueStore

  /** A terminal run of one definition; sort is when it ended, else when it was queued. */
  datatype Run = Run(id: nat, sort: int, ended: Option<int>, protected: bool)

  /** keep is zero when only age counts. */
  datatype Policy = Policy(keep: nat, olderThan: int)

  predicate Newer(a: Run, b: Run) { a.sort > b.sort || (a.sort == b.sort && a.id > b.id) }

  predicate ValidRuns(rs: set<Run>) {
    && (forall a, b :: a in rs && b in rs && a.id == b.id ==> a == b)
    && (forall a :: a in rs && a.ended.Some? ==> a.ended.value == a.sort)
  }

  function Above(rs: set<Run>, x: Run): set<Run> { set y | y in rs && Newer(y, x) }

  function Rank(rs: set<Run>, x: Run): nat { |Above(rs, x)| }

  predicate Aged(p: Policy, x: Run) { x.ended.Some? && x.ended.value < p.olderThan }

  /** Below the keep boundary or too old, not the newest, and without a live replay key. */
  predicate Eligible(rs: set<Run>, p: Policy, x: Run) {
    x in rs && Rank(rs, x) > 0 && !x.protected && ((p.keep > 0 && Rank(rs, x) >= p.keep) || Aged(p, x))
  }

  function AllEligible(rs: set<Run>, p: Policy): set<Run> { set x | x in rs && Eligible(rs, p, x) }

  predicate Past(cursor: Option<Run>, x: Run) { cursor.None? || Newer(cursor.value, x) }

  function AsSet(s: seq<Run>): set<Run> { set x | x in s }

  /** A nonempty set has a newest run. */
  method Newest(rs: set<Run>) returns (x: Run)
    requires rs != {} && ValidRuns(rs)
    ensures x in rs && forall y :: y in rs && y != x ==> Newer(x, y)
  {
    x :| x in rs;
    var rest := rs - {x};
    while rest != {}
      invariant x in rs && rest <= rs && forall y :: y in rs && y !in rest && y != x ==> Newer(x, y)
      decreases rest
    {
      var y :| y in rest;
      rest := rest - {y};
      if Newer(y, x) { x := y; }
    }
  }

  /** The first rows of the ordered query result. */
  method Page(eligible: set<Run>, limit: nat) returns (page: seq<Run>)
    requires ValidRuns(eligible)
    ensures |page| <= limit && AsSet(page) <= eligible
            && (forall i, j :: 0 <= i < j < |page| ==> Newer(page[i], page[j]))
    ensures |page| < limit ==> AsSet(page) == eligible
    ensures forall x, y :: x in page && y in eligible && y !in page ==> Newer(x, y)
  {
    page := [];
    var rest := eligible;
    while |page| < limit && rest != {}
      invariant |page| <= limit && rest <= eligible && AsSet(page) == eligible - rest
      invariant forall i, j :: 0 <= i < j < |page| ==> Newer(page[i], page[j])
      invariant forall x, y :: x in page && y in rest ==> Newer(x, y)
      decreases limit - |page|
    {
      var x := Newest(rest);
      assert AsSet(page + [x]) == AsSet(page) + {x};
      page, rest := page + [x], rest - {x};
    }
    assert forall y :: y in page <==> y in AsSet(page);
  }

  // ---------------------------------------------------------------- when pages do not matter

  /** Runs above x that no evaluation of the original set would delete. */
  function KeptAbove(rs: set<Run>, p: Policy, x: Run): set<Run> { Above(rs, x) - AllEligible(rs, p) }

  /** Each eligible run is too old, or enough runs stay above it. */
  predicate Stable(rs: set<Run>, p: Policy) {
    forall x :: x in AllEligible(rs, p) ==> Aged(p, x) || (p.keep > 0 && |KeptAbove(rs, p, x)| >= p.keep)
  }

  lemma {:induction false} Subset(a: set<Run>, b: set<Run>)
    requires a <= b
    ensures |a| <= |b|
  {
    assert b == a + (b - a) && a !! (b - a);
  }

  /** Deleting newer eligible runs never makes a run eligible that was not. */
  lemma {:induction false} NeverMore(rs: set<Run>, left: set<Run>, p: Policy, x: Run)
    requires left <= rs && Eligible(left, p, x)
    ensures Eligible(rs, p, x)
  {
    Subset(Above(left, x), Above(rs, x));
  }

  /** In a stable set, deleting newer eligible runs leaves an eligible run eligible. */
  lemma {:induction false} StillEligible(rs: set<Run>, left: set<Run>, p: Policy, x: Run)
    requires Stable(rs, p) && left <= rs && x in left && Eligible(rs, p, x)
    requires rs - left <= AllEligible(rs, p)
    ensures Eligible(left, p, x)
  {
    assert KeptAbove(rs, p, x) <= Above(left, x);
    Subset(KeptAbove(rs, p, x), Above(left, x));
    NewestStays(rs, left, p, x);
  }

  /** The newest run is never eligible, so it stays above every other. */
  lemma {:induction false} NewestStays(rs: set<Run>, left: set<Run>, p: Policy, x: Run)
    requires left <= rs && x in left && Rank(rs, x) > 0 && rs - left <= AllEligible(rs, p)
    ensures Rank(left, x) > 0
  {
    var n := Top(rs, x);
    assert n !in AllEligible(rs, p) && n in rs;
    assert n in left;
    assert n in Above(left, x);
  }

  lemma {:induction false} Top(rs: set<Run>, x: Run) returns (n: Run)
    requires Rank(rs, x) > 0
    ensures n in Above(rs, x) && Rank(rs, n) == 0
    decreases Rank(rs, x)
  {
    n :| n in Above(rs, x);
    if Rank(rs, n) > 0 {
      RankFalls(rs, n, x);
      n := Top(rs, n);
    }
  }

  lemma {:induction false} RankFalls(rs: set<Run>, y: Run, x: Run)
    requires y in rs && Newer(y, x)
    ensures Rank(rs, y) < Rank(rs, x) && Above(rs, y) <= Above(rs, x)
  {
    assert y in Above(rs, x) && y !in Above(rs, y);
    Subset(Above(rs, y) + {y}, Above(rs, x));
  }

  /**
   The sweep, with any page size and any subset of each page actually deleted.  What it
   selects is always eligible in the original set, and is exactly that set if it is stable.
   */
  method Sweep(runs: set<Run>, p: Policy, limit: nat) returns (selected: seq<Run>, left: set<Run>)
    requires ValidRuns(runs) && limit > 0
    ensures AsSet(selected) <= AllEligible(runs, p)
            && (forall i, j :: 0 <= i < j < |selected| ==> Newer(selected[i], selected[j]))
    ensures left <= runs && runs - left <= AsSet(selected)
    ensures Stable(runs, p) ==> AsSet(selected) == AllEligible(runs, p)
    ensures forall x :: x in runs && Rank(runs, x) == 0 ==> x in left
  {
    hide Eligible, Stable, ValidRuns, Rank;
    selected, left := [], runs;
    var cursor: Option<Run> := None;
    while true
      invariant left <= runs && runs - left <= AsSet(selected) <= AllEligible(runs, p)
      invariant Progress(selected, cursor)
      invariant Stable(runs, p) ==> Covers(AllEligible(runs, p), selected, cursor)
      decreases set x | x in runs && Past(cursor, x)
    {
      var eligible := Candidates(left, p, cursor);
      CandidatesValid(runs, left, p, cursor);
      var page := Page(eligible, limit);
      PageSelects(runs, left, p, selected, cursor, page);
      if page == [] { break; }
      PageMoves(runs, left, p, cursor, page);
      var deletable: set<Run> := *; // runs whose logs and row could be deleted now
      left, cursor := left - (deletable * AsSet(page)), Some(page[|page| - 1]);
      selected := selected + page;
      if |page| < limit { break; }
    }
    NewestLeft(runs, left, p);
  }

  /** What one page query may return. */
  function Candidates(left: set<Run>, p: Policy, cursor: Option<Run>): set<Run> {
    set x | x in left && Eligible(left, p, x) && Past(cursor, x)
  }

  /** Selected newest first, up to the cursor. */
  predicate Progress(selected: seq<Run>, cursor: Option<Run>) {
    && (forall i, j :: 0 <= i < j < |selected| ==> Newer(selected[i], selected[j]))
    && (if selected == [] then cursor.None? else cursor == Some(selected[|selected| - 1]))
  }

  predicate Covers(all: set<Run>, selected: seq<Run>, cursor: Option<Run>) {
    forall x :: x in all ==> Past(cursor, x) || x in selected
  }

  lemma {:induction false} CandidatesValid(runs: set<Run>, left: set<Run>, p: Policy, cursor: Option<Run>)
    requires ValidRuns(runs) && left <= runs
    ensures ValidRuns(Candidates(left, p, cursor)) && Candidates(left, p, cursor) <= AllEligible(runs, p)
  {
    forall x | x in Candidates(left, p, cursor) ensures Eligible(runs, p, x) { NeverMore(runs, left, p, x); }
  }

  /** A page continues the selection in order and leaves nothing eligible behind its last run. */
  lemma {:induction false} PageSelects(runs: set<Run>, left: set<Run>, p: Policy, selected: seq<Run>,
        cursor: Option<Run>, page: seq<Run>)
    requires left <= runs && runs - left <= AsSet(selected) <= AllEligible(runs, p) && Progress(selected, cursor)
    requires AsSet(page) <= Candidates(left, p, cursor)
             && (forall i, j :: 0 <= i < j < |page| ==> Newer(page[i], page[j]))
    requires forall x, y :: x in page && y in Candidates(left, p, cursor) && y !in page ==> Newer(x, y)
    ensures page != [] ==> Progress(selected + page, Some(page[|page| - 1]))
    ensures AsSet(selected + page) == AsSet(selected) + AsSet(page)
    ensures Stable(runs, p) && Covers(AllEligible(runs, p), selected, cursor) ==>
              && (AsSet(page) == Candidates(left, p, cursor) ==> AllEligible(runs, p) <= AsSet(selected + page))
              && (page != [] ==> Covers(AllEligible(runs, p), selected + page, Some(page[|page| - 1])))
  {
    hide Eligible, Stable;
    assert forall x :: (x in page <==> x in AsSet(page)) && (x in selected <==> x in AsSet(selected));
    assert AsSet(selected + page) == AsSet(selected) + AsSet(page);
    if page != [] { PageOrder(selected, cursor, page); }
    if Stable(runs, p) && Covers(AllEligible(runs, p), selected, cursor) {
      forall x | x in AllEligible(runs, p) && x !in selected ensures x in Candidates(left, p, cursor) {
        assert x in left;
        StillEligible(runs, left, p, x);
      }
      if page != [] {
        var last := page[|page| - 1];
        assert last in page;
        forall x | x in AllEligible(runs, p) ensures Past(Some(last), x) || x in selected + page {
          if x !in selected && x !in page { assert Newer(last, x); }
        }
      }
    }
  }

  lemma {:induction false} PageOrder(selected: seq<Run>, cursor: Option<Run>, page: seq<Run>)
    requires Progress(selected, cursor) && page != []
             && (forall i, j :: 0 <= i < j < |page| ==> Newer(page[i], page[j]))
    requires forall x :: x in page ==> Past(cursor, x)
    ensures Progress(selected + page, Some(page[|page| - 1]))
  {
    var s := selected + page;
    forall i, j | 0 <= i < j < |s| ensures Newer(s[i], s[j]) {
      if i < |selected| <= j { assert s[j] in page; }
    }
  }

  /** The cursor moves on: fewer runs lie beyond it. */
  lemma {:induction false} PageMoves(runs: set<Run>, left: set<Run>, p: Policy, cursor: Option<Run>, page: seq<Run>)
    requires left <= runs && page != [] && AsSet(page) <= Candidates(left, p, cursor)
    ensures (set x | x in runs && Past(Some(page[|page| - 1]), x)) < (set x | x in runs && Past(cursor, x))
  {
    var last := page[|page| - 1];
    assert last in AsSet(page);
    var ahead, behind := set x | x in runs && Past(Some(last), x), set x | x in runs && Past(cursor, x);
    assert last in behind && last !in ahead && ahead <= behind;
  }

  lemma {:induction false} NewestLeft(runs: set<Run>, left: set<Run>, p: Policy)
    requires left <= runs && runs - left <= AllEligible(runs, p)
    ensures forall x :: x in runs && Rank(runs, x) == 0 ==> x in left
  {
    forall x | x in runs && Rank(runs, x) == 0 ensures x in left {
      assert x in left || x in runs - left;
    }
  }

  // ---------------------------------------------------------------- when the set is stable

  /** Runs that all have an end time are stable, so paging cannot matter. */
  lemma {:induction false} EndedIsStable(rs: set<Run>, p: Policy)
    requires ValidRuns(rs) && forall x :: x in rs ==> x.ended.Some?
    ensures Stable(rs, p)
  {
    forall x | x in AllEligible(rs, p) && !Aged(p, x) ensures p.keep > 0 && |KeptAbove(rs, p, x)| >= p.keep {
      EnoughKept(rs, p, x);
    }
    hide KeptAbove, AllEligible;
  }

  lemma {:induction false} EnoughKept(rs: set<Run>, p: Policy, x: Run)
    requires ValidRuns(rs) && x in rs && x.ended.Some? && !Aged(p, x) && Rank(rs, x) >= p.keep > 0
    ensures |KeptAbove(rs, p, x)| >= p.keep
  {
    hide AllEligible, ValidRuns;
    var z := AtRank(rs, x, p.keep - 1);
    RankFalls(rs, z, x);
    var kept := Above(rs, z) + {z};
    assert z !in Above(rs, z) && |kept| == p.keep;
    forall y | y in kept ensures y in KeptAbove(rs, p, x) {
      if y != z { RankFalls(rs, y, z); }
      TopIsKept(rs, p, x, y);
    }
    hide Above, KeptAbove;
    Subset(kept, KeptAbove(rs, p, x));
  }

  /** Above a run that is not aged, a run within the boundary is not eligible. */
  lemma {:induction false} TopIsKept(rs: set<Run>, p: Policy, x: Run, y: Run)
    requires ValidRuns(rs) && x in rs && y in rs && x.ended.Some? && !Aged(p, x) && Newer(y, x) && Rank(rs, y) < p.keep
    ensures y in KeptAbove(rs, p, x)
  {
    hide Rank;
  }

  /** Every smaller rank is taken by a newer run. */
  lemma {:induction false} AtRank(rs: set<Run>, x: Run, k: nat) returns (z: Run)
    requires ValidRuns(rs) && k < Rank(rs, x)
    ensures z in Above(rs, x) && Rank(rs, z) == k
    decreases Rank(rs, x)
  {
    z := Last(rs, x);
    assert Above(rs, z) == Above(rs, x) - {z};
    if Rank(rs, z) != k {
      RankFalls(rs, z, x);
      z := AtRank(rs, z, k);
    }
  }

  /** The run right above x. */
  lemma {:induction false} Last(rs: set<Run>, x: Run) returns (z: Run)
    requires ValidRuns(rs) && Rank(rs, x) > 0
    ensures z in Above(rs, x) && forall y :: y in Above(rs, x) && y != z ==> Newer(y, z)
  {
    z :| z in Above(rs, x);
    var rest := Above(rs, x) - {z};
    while rest != {}
      invariant z in Above(rs, x) && rest <= Above(rs, x)
      invariant forall y :: y in Above(rs, x) && y !in rest && y != z ==> Newer(y, z)
      decreases rest
    {
      var y :| y in rest;
      rest := rest - {y};
      if Newer(z, y) { z := y; }
    }
  }

  // ---------------------------------------------------------------- the stored runs

  /** The terminal runs of a definition as the sweep's query sees them; live holds the replayable ones. */
  function Terminal(runs: map<nat, QueueStore.Run>, definition: nat, live: set<nat>): set<Run>
    requires QueueStore.Stamped(runs)
  {
    set id | id in runs && runs[id].definition == definition && runs[id].status.Ended? ::
      Run(id, runs[id].ended.value, runs[id].ended, id in live)
  }

  /**
   The main result: over whatever runs the store's transactions left, the sweep selects
   exactly the runs eligible in the original set, for every page size and every failed delete.
   */
  method SweepDefinition(runs: map<nat, QueueStore.Run>, definition: nat, live: set<nat>, p: Policy, limit: nat)
    returns (selected: seq<Run>, left: set<Run>)
    requires QueueStore.Stamped(runs) && limit > 0
    ensures var all := Terminal(runs, definition, live);
            && AsSet(selected) == AllEligible(all, p)
            && (forall i, j :: 0 <= i < j < |selected| ==> Newer(selected[i], selected[j]))
            && all - AsSet(selected) <= left <= all
            && (forall x :: x in all && Rank(all, x) == 0 ==> x in left)
  {
    hide Eligible, Rank, AllEligible, Newer;
    var all := Terminal(runs, definition, live);
    EndedIsStable(all, p);
    selected, left := Sweep(all, p, limit);
  }

  /** The terminal runs of the definition that ended after run id, or with it and under a higher id. */
  function NewerRuns(runs: map<nat, QueueStore.Run>, definition: nat, id: nat): set<nat>
    requires QueueStore.Stamped(runs) && id in runs && runs[id].status.Ended?
  {
    set k | k in runs && runs[k].definition == definition && runs[k].status.Ended?
      && (runs[k].ended.value > runs[id].ended.value || (runs[k].ended.value == runs[id].ended.value && k > id))
  }

  /** What is selected, in terms of the stored runs. */
  lemma {:induction false} SelectedExactly(runs: map<nat, QueueStore.Run>, definition: nat, live: set<nat>, p: Policy,
      id: nat)
    requires QueueStore.Stamped(runs) && id in runs
    ensures (exists x :: x in AllEligible(Terminal(runs, definition, live), p) && x.id == id)
        <==> && runs[id].definition == definition && runs[id].status.Ended? && id !in live
             && var newer := |NewerRuns(runs, definition, id)|;
             && newer > 0 && ((p.keep > 0 && newer >= p.keep) || runs[id].ended.value < p.olderThan)
  {
    var all := Terminal(runs, definition, live);
    if runs[id].definition == definition && runs[id].status.Ended? {
      var x := Run(id, runs[id].ended.value, runs[id].ended, id in live);
      assert x in all && forall y :: y in all && y.id == id ==> y == x;
      RankCounts(runs, definition, live, x);
      hide Rank, Terminal, NewerRuns;
    }
  }

  lemma {:induction false} RankCounts(runs: map<nat, QueueStore.Run>, definition: nat, live: set<nat>, x: Run)
    requires QueueStore.Stamped(runs) && x in Terminal(runs, definition, live)
    ensures Rank(Terminal(runs, definition, live), x) == |NewerRuns(runs, definition, x.id)|
  {
    var above, newer := Above(Terminal(runs, definition, live), x), NewerRuns(runs, definition, x.id);
    forall k | k in newer ensures k in Ids(above) {
      var y := Run(k, runs[k].ended.value, runs[k].ended, k in live);
      assert y in above && y.id == k;
    }
    assert Ids(above) == newer;
    OneIdEach(above);
  }

  function Ids(rs: set<Run>): set<nat> { set x | x in rs :: x.id }

  lemma {:induction false} OneIdEach(rs: set<Run>)
    requires forall a, b :: a in rs && b in rs && a.id == b.id ==> a == b
    ensures |Ids(rs)| == |rs|
  {
    if rs != {} {
      var x :| x in rs;
      OneIdEach(rs - {x});
      assert Ids(rs) == Ids(rs - {x}) + {x.id};
    }
  }
}
