/**
 Reclaiming disk space: deleting the oldest archived chunks in batches behind a cursor,
 and the guard that keeps the recent output of runs still being written.
 */
module Prune {
  const BATCH: nat := 256

  /** An archived chunk; key is its place in (archive time, rowid) order. */
  datatype Chunk = Chunk(key: int, run: nat, number: nat, size: nat)

  type Guard = (nat, nat) -> bool

  predicate Protected(g: Guard, c: Chunk) { g(c.run, c.number) }

  predicate Sorted(cs: seq<Chunk>) { forall i, j :: 0 <= i < j < |cs| ==> cs[i].key < cs[j].key }

  function Total(cs: seq<Chunk>): nat { if cs == [] then 0 else cs[0].size + Total(cs[1..]) }

  // ---------------------------------------------------------------- the reference

  /** Oldest first, unprotected chunks until want bytes are reached. */
  function Doomed(cs: seq<Chunk>, g: Guard, want: int): seq<Chunk> {
    if cs == [] || want <= 0 then []
    else if Protected(g, cs[0]) then Doomed(cs[1..], g, want)
    else [cs[0]] + Doomed(cs[1..], g, want - cs[0].size)
  }

  function Survivors(cs: seq<Chunk>, g: Guard, want: int): seq<Chunk> {
    if cs == [] || want <= 0 then cs
    else if Protected(g, cs[0]) then [cs[0]] + Survivors(cs[1..], g, want)
    else Survivors(cs[1..], g, want - cs[0].size)
  }

  function Unprotected(cs: seq<Chunk>, g: Guard): seq<Chunk> {
    if cs == [] then [] else (if Protected(g, cs[0]) then [] else [cs[0]]) + Unprotected(cs[1..], g)
  }

  /** The doomed chunks are the shortest run of oldest unprotected ones that frees enough, or all of them. */
  lemma {:induction false} DoomedIsShortest(cs: seq<Chunk>, g: Guard, want: int)
    ensures var d := Doomed(cs, g, want);
            && d <= Unprotected(cs, g)
            && (Total(d) < want ==> d == Unprotected(cs, g))
            && (d != [] ==> Total(d[..|d| - 1]) < want)
  {
    if cs != [] && want > 0 {
      if Protected(g, cs[0]) {
        DoomedIsShortest(cs[1..], g, want);
      } else {
        var rest := Doomed(cs[1..], g, want - cs[0].size);
        DoomedIsShortest(cs[1..], g, want - cs[0].size);
        var d := [cs[0]] + rest;
        assert d[1..] == rest;
        if rest != [] {
          assert d[..|d| - 1] == [cs[0]] + rest[..|rest| - 1];
          assert ([cs[0]] + rest[..|rest| - 1])[1..] == rest[..|rest| - 1];
        } else {
          assert d[..|d| - 1] == [];
        }
      }
    }
  }

  // ---------------------------------------------------------------- the table

  function Without(cs: seq<Chunk>, keys: set<int>): seq<Chunk> {
    if cs == [] then [] else (if cs[0].key in keys then [] else [cs[0]]) + Without(cs[1..], keys)
  }

  /** The rows behind the cursor's position in key order. */
  function After(cs: seq<Chunk>, cursor: int): seq<Chunk> {
    if cs == [] then [] else (if cs[0].key > cursor then [cs[0]] else []) + After(cs[1..], cursor)
  }

  lemma {:induction false} WithoutAppend(a: seq<Chunk>, b: seq<Chunk>, keys: set<int>)
    ensures Without(a + b, keys) == Without(a, keys) + Without(b, keys)
  {
    if a == [] {
      assert a + b == b;
    } else {
      assert (a + b)[1..] == a[1..] + b;
      WithoutAppend(a[1..], b, keys);
    }
  }

  lemma {:induction false} WithoutNone(a: seq<Chunk>, keys: set<int>)
    requires forall i :: 0 <= i < |a| ==> a[i].key !in keys
    ensures Without(a, keys) == a
  {
    if a != [] { WithoutNone(a[1..], keys); }
  }

  lemma {:induction false} AfterSplit(a: seq<Chunk>, b: seq<Chunk>, cursor: int)
    requires (forall i :: 0 <= i < |a| ==> a[i].key <= cursor) && (forall i :: 0 <= i < |b| ==> b[i].key > cursor)
    ensures After(a + b, cursor) == b
  {
    if a == [] {
      assert a + b == b;
      if b != [] { AfterSplit([], b[1..], cursor); assert [] + b[1..] == b[1..]; }
    } else {
      assert (a + b)[1..] == a[1..] + b;
      AfterSplit(a[1..], b, cursor);
    }
  }

  // ---------------------------------------------------------------- one batch

  /** Scans one page of rows: which to delete, what they weigh, and the cursor behind the last row seen. */
  method ScanBatch(page: seq<Chunk>, g: Guard, want: int, cursor: int)
    returns (gone: seq<Chunk>, kept: seq<Chunk>, bytes: nat, scanned: nat, next: int)
    requires want > 0
    ensures scanned <= |page| && (page != [] ==> scanned > 0)
            && next == (if scanned == 0 then cursor else page[scanned - 1].key)
    ensures gone == Doomed(page[..scanned], g, want) && kept == Survivors(page[..scanned], g, want)
            && bytes == Total(gone)
    ensures scanned < |page| ==> bytes >= want
  {
    gone, kept, bytes, scanned, next := [], [], 0, 0, cursor;
    var i := 0;
    while i < |page|
      invariant i == scanned <= |page| && next == (if scanned == 0 then cursor else page[scanned - 1].key)
      invariant gone == Doomed(page[..i], g, want) && kept == Survivors(page[..i], g, want) && bytes == Total(gone)
    {
      var c := page[i];
      Scanned(page, g, want, i);
      scanned, next, i := scanned + 1, c.key, i + 1;
      if Protected(g, c) {
        kept := kept + [c];
      } else if bytes >= want {
        kept := kept + [c];
        break;
      } else {
        TotalAppend(gone, c);
        gone, bytes := gone + [c], bytes + c.size;
      }
    }
  }

  lemma {:induction false} TotalAppend(a: seq<Chunk>, c: Chunk)
    ensures Total(a + [c]) == Total(a) + c.size
  {
    if a == [] {
      assert a + [c] == [c];
    } else {
      assert (a + [c])[1..] == a[1..] + [c];
      TotalAppend(a[1..], c);
    }
  }

  /** One more row: it is doomed if it is unprotected and the bytes do not suffice yet. */
  lemma {:induction false} Scanned(page: seq<Chunk>, g: Guard, want: int, i: nat)
    requires i < |page|
    ensures var a, c := page[..i], page[i];
            var doomed := !Protected(g, c) && Total(Doomed(a, g, want)) < want;
            && Doomed(page[..i + 1], g, want) == Doomed(a, g, want) + (if doomed then [c] else [])
            && Survivors(page[..i + 1], g, want) == Survivors(a, g, want) + (if doomed then [] else [c])
  {
    assert page[..i + 1] == page[..i] + [page[i]];
    OneMore(page[..i], page[i], g, want);
  }

  lemma {:induction false} OneMore(a: seq<Chunk>, c: Chunk, g: Guard, want: int)
    ensures var doomed := !Protected(g, c) && Total(Doomed(a, g, want)) < want;
            && Doomed(a + [c], g, want) == Doomed(a, g, want) + (if doomed then [c] else [])
            && Survivors(a + [c], g, want) == Survivors(a, g, want) + (if doomed then [] else [c])
  {
    if a == [] {
      assert a + [c] == [c];
    } else if want > 0 {
      assert (a + [c])[1..] == a[1..] + [c];
      OneMore(a[1..], c, g, if Protected(g, a[0]) then want else want - a[0].size);
    }
  }

  /** Batches compose: what the second one does depends only on what the first one freed. */
  lemma {:induction false} Compose(a: seq<Chunk>, b: seq<Chunk>, g: Guard, want: int)
    ensures var more := want - Total(Doomed(a, g, want));
            && Doomed(a + b, g, want) == Doomed(a, g, want) + Doomed(b, g, more)
            && Survivors(a + b, g, want) == Survivors(a, g, want) + Survivors(b, g, more)
  {
    if a == [] {
      assert a + b == b;
    } else if want > 0 {
      assert (a + b)[1..] == a[1..] + b;
      Compose(a[1..], b, g, if Protected(g, a[0]) then want else want - a[0].size);
    }
  }

  lemma {:induction false} TotalSum(a: seq<Chunk>, b: seq<Chunk>)
    ensures Total(a + b) == Total(a) + Total(b)
  {
    if a == [] {
      assert a + b == b;
    } else {
      assert (a + b)[1..] == a[1..] + b;
      TotalSum(a[1..], b);
    }
  }

  function Keys(cs: seq<Chunk>): set<int> { set c | c in cs :: c.key }

  lemma {:induction false} DoomedFrom(cs: seq<Chunk>, g: Guard, want: int)
    ensures forall c :: c in Doomed(cs, g, want) ==> c in cs
    ensures forall c :: c in Survivors(cs, g, want) ==> c in cs
    ensures forall c :: c in cs && Protected(g, c) ==> c in Survivors(cs, g, want)
  {
    if cs != [] && want > 0 { DoomedFrom(cs[1..], g, if Protected(g, cs[0]) then want else want - cs[0].size); }
  }

  /** Deleting the doomed rows by key leaves the survivors. */
  lemma {:induction false} DeleteDoomed(cs: seq<Chunk>, g: Guard, want: int, keys: set<int>)
    requires Sorted(cs) && forall c :: c in cs ==> (c.key in keys <==> c in Doomed(cs, g, want))
    ensures Without(cs, keys) == Survivors(cs, g, want)
  {
    if cs == [] || want <= 0 {
      WithoutNone(cs, keys);
    } else {
      var rest := cs[1..];
      var more := if Protected(g, cs[0]) then want else want - cs[0].size;
      assert forall c :: c in rest ==> c.key != cs[0].key by {
        forall c | c in rest ensures c.key != cs[0].key {
          var i :| 0 <= i < |rest| && rest[i] == c;
          assert cs[i + 1] == c;
        }
      }
      DoomedFrom(rest, g, more);
      assert cs[0] in cs && forall c :: c in rest ==> c in cs;
      DeleteDoomed(rest, g, more, keys);
    }
  }

  class ChunkTable {
    var rows: seq<Chunk>

    constructor (rows: seq<Chunk>)
      ensures this.rows == rows
    {
      this.rows := rows;
    }

    /** Deletes in batches behind a cursor; a failed transaction ends the call with what is committed. */
    method PruneOldest(want: int, g: Guard, sound: bool) returns (bytes: nat, count: nat, ok: bool)
      requires Sorted(rows)
      modifies this
      ensures sound ==> ok // every transaction commits
      ensures ok ==>
                rows == Survivors(old(rows), g, want) && bytes == Total(Doomed(old(rows), g, want))
                && count == |Doomed(old(rows), g, want)|
      ensures exists k :: 0 <= k <= |old(rows)| && Pruned(old(rows), k, g, want, rows, bytes, count)
    {
      hide Survivors, Doomed, Total, Without, After, Sorted, FirstRows, Keys, Passed, Pruned;
      ghost var all, k := rows, 0;
      var cursor := if rows == [] then 0 else rows[0].key - 1; // before every row
      bytes, count, ok := 0, 0, true;
      StartsHere(all, g, want, cursor);
      while bytes < want
        invariant k <= |all| && Pruned(all, k, g, want, rows, bytes, count) && Passed(all, k, cursor)
        decreases |all| - k
      {
        CursorSplits(all, k, cursor, g, want, rows, bytes, count);
        var rest := After(rows, cursor);
        var page := FirstRows(rest);
        var gone, kept, freed, scanned, next := ScanBatch(page, g, want - bytes, cursor);
        var committed: bool := *;
        committed := committed || sound;
        if !committed { return bytes, count, false; }
        BatchStep(all, k, g, want, scanned, next, cursor, rows, bytes, count);
        rows := Without(rows, Keys(gone));
        bytes, count, cursor := bytes + freed, count + |gone|, next;
        k := k + scanned;
        if scanned == 0 { break; }
      }
      AllPassed(all, k, g, want, rows, bytes, count);
    }
  }

  lemma {:induction false} BatchStep(all: seq<Chunk>, k: nat, g: Guard, want: int, scanned: nat, next: int,
        cursor: int, rows: seq<Chunk>,
      bytes: nat, count: nat)
    requires Sorted(all) && Passed(all, k, cursor) && Pruned(all, k, g, want, rows, bytes, count)
             && scanned <= |FirstRows(all[k..])|
    requires next == if scanned == 0 then cursor else FirstRows(all[k..])[scanned - 1].key
    ensures var gone := Doomed(FirstRows(all[k..])[..scanned], g, want - bytes);
            && k + scanned <= |all|
            && Pruned(all, k + scanned, g, want, Without(rows, Keys(gone)), bytes + Total(gone), count + |gone|)
            && Passed(all, k + scanned, next) && (FirstRows(all[k..]) == [] ==> k == |all|)
  {
    hide Survivors, Doomed, Total, Without, Sorted, FirstRows, Keys;
    FirstRowsPrefix(all[k..], scanned);
    BatchMoves(all, k, g, want, scanned, next, cursor);
    hide Pruned;
  }

  /** The first k rows are dealt with, the others untouched. */
  predicate Pruned(all: seq<Chunk>, k: nat, g: Guard, want: int, rows: seq<Chunk>, bytes: int, count: int)
    requires k <= |all|
  {
    && rows == Survivors(all[..k], g, want) + all[k..]
    && bytes == Total(Doomed(all[..k], g, want)) && count == |Doomed(all[..k], g, want)|
  }

  function FirstRows(rest: seq<Chunk>): seq<Chunk> { if |rest| <= BATCH then rest else rest[..BATCH] }

  lemma {:induction false} FirstRowsPrefix(rest: seq<Chunk>, n: nat)
    requires n <= |FirstRows(rest)|
    ensures n <= |rest| && FirstRows(rest)[..n] == rest[..n] && (n > 0 ==> FirstRows(rest)[n - 1] == rest[n - 1])
    ensures FirstRows(rest) == [] <==> rest == []
  {
  }

  /** The cursor lies between the rows seen and the rows to come. */
  predicate Passed(all: seq<Chunk>, k: nat, cursor: int) {
    k <= |all| && (forall i :: 0 <= i < k ==> all[i].key <= cursor)
        && (forall i :: k <= i < |all| ==> all[i].key > cursor)
  }

  lemma {:induction false} StartsHere(all: seq<Chunk>, g: Guard, want: int, cursor: int)
    requires Sorted(all) && (all != [] ==> cursor < all[0].key)
    ensures Pruned(all, 0, g, want, all, 0, 0) && Passed(all, 0, cursor)
  {
    Nothing(g, want);
    hide Survivors, Doomed, Total;
    assert all[..0] == [] && all[0..] == all && [] + all == all;
  }

  lemma {:induction false} Nothing(g: Guard, want: int)
    ensures Survivors([], g, want) == [] && Doomed([], g, want) == [] && Total([]) == 0
  {
  }

  lemma {:induction false} Enough(cs: seq<Chunk>, g: Guard, want: int)
    requires want <= 0
    ensures Survivors(cs, g, want) == cs && Doomed(cs, g, want) == []
  {
  }

  lemma {:induction false} CursorSplits(all: seq<Chunk>, k: nat, cursor: int, g: Guard, want: int, rows: seq<Chunk>,
        bytes: nat,
      count: nat)
    requires Passed(all, k, cursor) && Pruned(all, k, g, want, rows, bytes, count)
    ensures After(rows, cursor) == all[k..]
  {
    hide After, Survivors, Doomed;
    var a := Survivors(all[..k], g, want);
    DoomedFrom(all[..k], g, want);
    forall i | 0 <= i < |a| ensures a[i].key <= cursor { assert a[i] in a; }
    AfterSplit(a, all[k..], cursor);
  }

  /** One batch moves the boundary by the rows it scanned and deletes the doomed ones among them. */
  lemma {:induction false} BatchMoves(all: seq<Chunk>, k: nat, g: Guard, want: int, scanned: nat, next: int,
        cursor: int)
    requires Sorted(all) && Passed(all, k, cursor) && k + scanned <= |all|
    requires next == if scanned == 0 then cursor else all[k..][scanned - 1].key
    ensures var more := want - Total(Doomed(all[..k], g, want));
            var gone := Doomed(all[k..][..scanned], g, more);
            && Pruned(all, k + scanned, g, want, Without(Survivors(all[..k], g, want) + all[k..], Keys(gone)),
                      Total(Doomed(all[..k], g, want)) + Total(gone), |Doomed(all[..k], g, want)| + |gone|)
            && Passed(all, k + scanned, next)
  {
    hide Survivors, Doomed, Without, Total;
    var a, b, c := all[..k], all[k..][..scanned], all[k + scanned..];
    assert all[..k + scanned] == a + b && all[k..] == b + c;
    var more := want - Total(Doomed(a, g, want));
    var gone := Doomed(b, g, more);
    Compose(a, b, g, want);
    TotalSum(Doomed(a, g, want), gone);
    DeleteMiddle(a, b, c, g, want, more);
    SeqAssoc(Survivors(a, g, want), b, c);
  }

  lemma {:induction false} SeqAssoc(a: seq<Chunk>, b: seq<Chunk>, c: seq<Chunk>)
    ensures a + (b + c) == a + b + c
  {
  }

  lemma {:induction false} DeleteMiddle(a: seq<Chunk>, b: seq<Chunk>, c: seq<Chunk>, g: Guard, want: int, more: int)
    requires Sorted(a + b + c)
    ensures Without(Survivors(a, g, want) + b + c, Keys(Doomed(b, g, more)))
         == Survivors(a, g, want) + Survivors(b, g, more) + c
  {
    var keys, s := Keys(Doomed(b, g, more)), Survivors(a, g, want);
    Sorted3(a, b, c);
    DoomedFrom(a, g, want);
    DoomedFrom(b, g, more);
    hide Survivors, Doomed, Without;
    forall x | x in b ensures x.key in keys <==> x in Doomed(b, g, more) { SameKey(b, x); }
    DeleteDoomed(b, g, more, keys);
    forall i | 0 <= i < |s| ensures s[i].key !in keys { assert s[i] in s; }
    forall i | 0 <= i < |c| ensures c[i].key !in keys { assert c[i] in c; }
    WithoutNone(s, keys);
    WithoutNone(c, keys);
    WithoutAppend(s + b, c, keys);
    WithoutAppend(s, b, keys);
  }

  lemma {:induction false} SameKey(b: seq<Chunk>, x: Chunk)
    requires Sorted(b) && x in b
    ensures forall y :: y in b && y.key == x.key ==> y == x
  {
  }

  lemma {:induction false} Sorted3(a: seq<Chunk>, b: seq<Chunk>, c: seq<Chunk>)
    requires Sorted(a + b + c)
    ensures Sorted(b) && (forall x, y :: x in a && y in b ==> x.key < y.key)
            && (forall x, y :: x in b && y in c ==> x.key < y.key)
  {
    var s := a + b + c;
    forall i | 0 <= i < |b| ensures s[|a| + i] == b[i] { }
    forall x, y | x in a && y in b ensures x.key < y.key {
      var i :| 0 <= i < |a| && a[i] == x;
      var j :| 0 <= j < |b| && b[j] == y;
      assert s[i] == x && s[|a| + j] == y;
    }
    forall x, y | x in b && y in c ensures x.key < y.key {
      var i :| 0 <= i < |b| && b[i] == x;
      var j :| 0 <= j < |c| && c[j] == y;
      assert s[|a| + i] == x && s[|a| + |b| + j] == y;
    }
    forall i, j | 0 <= i < j < |b| ensures b[i].key < b[j].key { assert s[|a| + i].key < s[|a| + j].key; }
  }

  lemma {:induction false} AllPassed(all: seq<Chunk>, k: nat, g: Guard, want: int, rows: seq<Chunk>, bytes: nat,
        count: nat)
    requires k <= |all| && Pruned(all, k, g, want, rows, bytes, count) && (k == |all| || bytes >= want)
    ensures rows == Survivors(all, g, want) && bytes == Total(Doomed(all, g, want)) && count == |Doomed(all, g, want)|
  {
    hide Survivors, Doomed, Total;
    Compose(all[..k], all[k..], g, want);
    assert all == all[..k] + all[k..];
    Nothing(g, want - bytes);
    assert Doomed(all[..k], g, want) + [] == Doomed(all[..k], g, want);
    if k == |all| {
      assert all[k..] == [];
    } else {
      Enough(all[k..], g, want - bytes);
    }
  }

  // ---------------------------------------------------------------- the tail of a running run

  /** Chunks of one run, newest first, as TailStart reads them. */
  predicate NewestFirst(cs: seq<Chunk>) { forall i, j :: 0 <= i < j < |cs| ==> cs[i].number > cs[j].number }

  /** The lowest chunk number of the newest chunks that hold at least keep bytes. */
  method TailStart(cs: seq<Chunk>, keep: nat) returns (number: nat, ok: bool)
    requires NewestFirst(cs)
    ensures ok <==> cs != []
    ensures ok ==> exists k :: 0 < k <= |cs| && IsTail(cs, keep, number, k)
  {
    number, ok := 0, false;
    var kept, i := 0, 0;
    while i < |cs|
      invariant i <= |cs| && kept == Total(cs[..i]) && (ok <==> i > 0)
                && (i > 0 ==> number == cs[i - 1].number && kept < keep)
      invariant i > 1 ==> Total(cs[..i - 1]) < keep
    {
      assert cs[..i + 1] == cs[..i] + [cs[i]];
      TotalAppend(cs[..i], cs[i]);
      number, ok, kept, i := cs[i].number, true, kept + cs[i].size, i + 1;
      if kept >= keep {
        assert IsTail(cs, keep, number, i);
        return;
      }
    }
    assert i > 0 ==> IsTail(cs, keep, number, i);
  }

  /** The k newest chunks are just enough, or there are no more. */
  predicate IsTail(cs: seq<Chunk>, keep: nat, number: nat, k: nat)
    requires 0 < k <= |cs|
  {
    number == cs[k - 1].number && (Total(cs[..k]) >= keep || k == |cs|) && (k > 1 ==> Total(cs[..k - 1]) < keep)
  }

  /** What the pressure pass knows: live writers, runs owned by another operation, and measured tails. */
  datatype Snapshot = Snapshot(live: set<nat>, owned: set<nat>, tails: map<nat, nat>)

  function ReclaimGuard(s: Snapshot): Guard {
    (run, number) => run in s.owned || (run in s.live && (run !in s.tails || number >= s.tails[run]))
  }

  /** A running run loses no chunk of its measured tail, and nothing at all if it was not measured. */
  lemma {:induction false} TailSurvives(rows: seq<Chunk>, s: Snapshot, want: int, c: Chunk)
    requires c in rows && (c.run in s.owned || (c.run in s.live && (c.run in s.tails ==> c.number >= s.tails[c.run])))
    ensures c in Survivors(rows, ReclaimGuard(s), want)
  {
    DoomedFrom(rows, ReclaimGuard(s), want);
    assert Protected(ReclaimGuard(s), c);
  }

  /** Beyond those, a chunk survives only if enough was freed without it. */
  lemma {:induction false} RestIsReclaimed(rows: seq<Chunk>, s: Snapshot, want: int, c: Chunk)
    requires c in Survivors(rows, ReclaimGuard(s), want)
    ensures || c.run in s.owned
            || (c.run in s.live && (c.run !in s.tails || c.number >= s.tails[c.run]))
            || Total(Doomed(rows, ReclaimGuard(s), want)) >= want
  {
    if !Protected(ReclaimGuard(s), c) { UnprotectedSurvivor(rows, ReclaimGuard(s), want, c); }
  }

  lemma {:induction false} UnprotectedSurvivor(cs: seq<Chunk>, g: Guard, want: int, c: Chunk)
    requires c in Survivors(cs, g, want) && !Protected(g, c)
    ensures Total(Doomed(cs, g, want)) >= want
  {
    if cs != [] && want > 0 {
      if Protected(g, cs[0]) {
        UnprotectedSurvivor(cs[1..], g, want, c);
      } else {
        UnprotectedSurvivor(cs[1..], g, want - cs[0].size, c);
        assert ([cs[0]] + Doomed(cs[1..], g, want - cs[0].size))[1..] == Doomed(cs[1..], g, want - cs[0].size);
      }
    }
  }

  /** So the newest chunks that survive hold at least the tail size, or they are all the run has. */
  lemma {:induction false} TailIsEnough(rows: seq<Chunk>, s: Snapshot, want: int, cs: seq<Chunk>, k: nat, keep: nat)
    requires 0 < k <= |cs| && NewestFirst(cs)
    requires forall i :: 0 <= i < |cs| ==>
               cs[i] in rows && cs[i].run in s.live && cs[i].run in s.tails && IsTail(cs, keep, s.tails[cs[i].run], k)
    ensures forall i :: 0 <= i < k ==> cs[i] in Survivors(rows, ReclaimGuard(s), want)
    ensures Total(cs[..k]) >= keep || cs[..k] == cs
  {
    forall i | 0 <= i < k ensures cs[i] in Survivors(rows, ReclaimGuard(s), want) {
      TailSurvives(rows, s, want, cs[i]);
    }
    assert k == |cs| ==> cs[..k] == cs;
  }
}
