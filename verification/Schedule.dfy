/**
 Cron fire times.  Instants are whole seconds.  A zone is a piecewise constant offset
 whose transitions and offsets are whole minutes and whose pieces are long; cron's Next
 is taken as the least later instant whose wall-clock minute matches.
 */
module Schedule {
  import opened Options

  const MINUTE: int := 60
  const MAX_OFFSET: int := 57600
  const HORIZON: int := 5 * 365 * 86400

  /** Offset in force at an instant, and the bounds of the piece it lies in. */
  datatype Zone = Zone(off: int -> int, lo: int -> Option<int>, hi: int -> Option<int>)

  predicate Inside(z: Zone, t: int, u: int) {
    (z.lo(t).Some? ==> z.lo(t).value <= u) && (z.hi(t).Some? ==> u < z.hi(t).value)
  }

  /** What holds of the piece around t: its bounds, its neighbours and its length. */
  predicate PieceOk(z: Zone, t: int) {
    && -MAX_OFFSET <= z.off(t) <= MAX_OFFSET && z.off(t) % MINUTE == 0 && Inside(z, t, t)
    && (z.lo(t).Some? ==> z.lo(t).value % MINUTE == 0 && z.hi(z.lo(t).value - 1) == z.lo(t))
    && (z.hi(t).Some? ==> z.hi(t).value % MINUTE == 0 && z.lo(z.hi(t).value) == z.hi(t))
    && (z.lo(t).Some? && z.hi(t).Some? ==> z.hi(t).value - z.lo(t).value > 4 * MAX_OFFSET)
  }

  predicate Steady(z: Zone, t: int, u: int) {
    Inside(z, t, u) ==> z.off(u) == z.off(t) && z.lo(u) == z.lo(t) && z.hi(u) == z.hi(t)
  }

  ghost predicate ValidZone(z: Zone) {
    (forall t: int :: PieceOk(z, t)) && forall t: int, u: int :: Steady(z, t, u)
  }

  function Wall(z: Zone, t: int): int { t + z.off(t) }

  predicate SameWallMinute(z: Zone, t: int, u: int) { Wall(z, t) / MINUTE == Wall(z, u) / MINUTE }

  /** A parsed schedule: which wall-clock minutes match, and cron's search. */
  datatype Cron = Cron(matches: int -> bool, next: int -> Option<int>)

  predicate Hit(z: Zone, c: Cron, t: int) { t % MINUTE == 0 && c.matches(Wall(z, t)) }

  ghost predicate ValidCron(z: Zone, c: Cron) {
    && (forall t: int :: c.next(t).Some? ==> c.next(t).value > t && Hit(z, c, c.next(t).value))
    && (forall t: int, v: int :: c.next(t).Some? && t < v < c.next(t).value ==> !Hit(z, c, v))
    && (forall t: int, v: int :: c.next(t).None? && t < v <= t + HORIZON ==> !Hit(z, c, v))
  }

  // ---------------------------------------------------------------- folds

  /** The end of the second copy of a repeated wall-clock interval, if t lies in one. */
  function SecondFoldEnd(z: Zone, t: int): Option<int> {
    if z.lo(t).None? then None
    else
      var start := z.lo(t).value;
      var previous := z.off(start - 1);
      if previous <= z.off(t) then None
      else if t < start + (previous - z.off(t)) then Some(start + (previous - z.off(t)))
      else None
  }

  predicate Second(z: Zone, t: int) { SecondFoldEnd(z, t).Some? }

  /** An instant in a second copy has a twin in the first copy with the same wall clock. */
  lemma {:induction false} Twin(z: Zone, t: int) returns (u: int)
    requires ValidZone(z) && Second(z, t)
    ensures u < z.lo(t).value <= t < SecondFoldEnd(z, t).value && Wall(z, u) == Wall(z, t)
    ensures u % MINUTE == t % MINUTE && z.lo(t).value - u <= 2 * MAX_OFFSET
    ensures SecondFoldEnd(z, t).value <= z.lo(t).value + 2 * MAX_OFFSET
  {
    var start := z.lo(t).value;
    assert PieceOk(z, t) && PieceOk(z, start - 1);
    u := t - (z.off(start - 1) - z.off(t));
    Whole(t, z.off(start - 1), z.off(t));
    assert Steady(z, start - 1, u);
  }

  lemma {:induction false} Whole(t: int, a: int, b: int)
    requires a % MINUTE == 0 && b % MINUTE == 0
    ensures (t - (a - b)) % MINUTE == t % MINUTE
  {
    var i, j, k := a / MINUTE, b / MINUTE, t / MINUTE;
    assert t - (a - b) == MINUTE * (k - i + j) + t % MINUTE;
  }

  /** The rest of a second copy is in the same second copy. */
  lemma {:induction false} SecondUntilEnd(z: Zone, t: int, v: int)
    requires ValidZone(z) && Second(z, t) && t <= v < SecondFoldEnd(z, t).value
    ensures SecondFoldEnd(z, v) == SecondFoldEnd(z, t)
  {
    var u := Twin(z, t);
    assert PieceOk(z, t) && Steady(z, t, v);
  }

  /** The first hit at or after the end of a second copy is not in another second copy. */
  lemma {:induction false} ClearOfFolds(z: Zone, c: Cron, t: int, v: int)
    requires ValidZone(z) && Second(z, t) && Hit(z, c, v)
    requires v >= SecondFoldEnd(z, t).value && forall w :: SecondFoldEnd(z, t).value <= w < v ==> !Hit(z, c, w)
    ensures !Second(z, v)
  {
    if Second(z, v) {
      var u := Twin(z, v);
      var r := Twin(z, t);
      Later(z, t, v);
      assert Hit(z, c, u);
    }
  }

  /** A later fold starts well after the second copy of an earlier one. */
  lemma {:induction false} Later(z: Zone, t: int, v: int)
    requires ValidZone(z) && Second(z, t) && Second(z, v) && v >= SecondFoldEnd(z, t).value
    ensures z.lo(v).value > z.lo(t).value + 4 * MAX_OFFSET
  {
    assert PieceOk(z, t) && PieceOk(z, v) && Steady(z, t, v);
    if !Inside(z, t, v) {
      NextPiece(z, t, v);
    }
  }

  /** An instant beyond the end of a piece lies in a piece that starts no earlier than that end. */
  lemma {:induction false} NextPiece(z: Zone, t: int, v: int)
    requires ValidZone(z) && z.hi(t).Some? && v >= z.hi(t).value
    ensures z.lo(v).Some? && z.lo(v).value >= z.hi(t).value
  {
    var h := z.hi(t).value;
    assert PieceOk(z, t) && PieceOk(z, h) && PieceOk(z, v) && Steady(z, v, h);
  }

  /** Two instants on the same wall-clock minute: the later one, if whole, is in a second copy. */
  lemma {:induction false} RepeatIsSecond(z: Zone, t: int, v: int)
    requires ValidZone(z) && t < v && v % MINUTE == 0 && SameWallMinute(z, t, v)
    ensures Second(z, v)
  {
    assert PieceOk(z, t) && PieceOk(z, v) && Steady(z, t, v);
    MinuteFloor(z, t, v);
    if z.hi(t).Some? && z.hi(t).value <= v { Adjacent(z, t, v); }
  }

  lemma {:induction false} MinuteFloor(z: Zone, t: int, v: int)
    requires v % MINUTE == 0 && z.off(v) % MINUTE == 0 && SameWallMinute(z, t, v)
    ensures Wall(z, v) <= Wall(z, t) < Wall(z, v) + MINUTE
  {
    Whole(v, 0, z.off(v));
  }

  /** A close instant beyond the end of a piece is in the very next piece. */
  lemma {:induction false} Adjacent(z: Zone, t: int, v: int)
    requires ValidZone(z) && z.hi(t).Some? && z.hi(t).value <= v <= t + 2 * MAX_OFFSET
    ensures z.lo(v) == z.hi(t) && z.off(z.lo(v).value - 1) == z.off(t)
  {
    var h := z.hi(t).value;
    assert PieceOk(z, t) && PieceOk(z, h) && Steady(z, t, h - 1) && Steady(z, h, v);
  }

  // ---------------------------------------------------------------- the next fire

  /** Where the search starts: at the end of the second copy that contains the cursor, if any. */
  function From(z: Zone, after: int): int {
    if Second(z, after) then SecondFoldEnd(z, after).value - 1 else after
  }

  /** Moves a candidate out of a second copy. */
  function Unfold(z: Zone, c: Cron, u: Option<int>): Option<int> {
    if u.Some? && Second(z, u.value) then c.next(SecondFoldEnd(z, u.value).value - 1) else u
  }

  function Candidate(z: Zone, c: Cron, after: int): Option<int> { Unfold(z, c, c.next(From(z, after))) }

  lemma {:induction false} FromSkipsSecond(z: Zone, after: int, v: int)
    requires ValidZone(z) && after < v <= From(z, after)
    ensures Second(z, v)
  {
    SecondUntilEnd(z, after, v);
  }

  /** One unfolding is enough: the candidate is a hit in no second copy. */
  lemma {:induction false} CandidateSettled(z: Zone, c: Cron, after: int)
    requires ValidZone(z) && ValidCron(z, c) && Candidate(z, c, after).Some?
    ensures var u := Candidate(z, c, after).value; u > after && Hit(z, c, u) && !Second(z, u)
  {
    var u, first := Candidate(z, c, after).value, c.next(From(z, after)).value;
    if Second(z, first) {
      var twin := Twin(z, first);
      ClearOfFolds(z, c, first, u);
    }
  }

  /** Nothing is skipped on the way but second copies. */
  lemma {:induction false} CandidateLeast(z: Zone, c: Cron, after: int, v: int)
    requires ValidZone(z) && ValidCron(z, c) && after < v && Hit(z, c, v) && !Second(z, v)
    ensures if Candidate(z, c, after).Some? then Candidate(z, c, after).value <= v else v > after + HORIZON
  {
    var from := From(z, after);
    if v <= from { FromSkipsSecond(z, after, v); }
    var first := c.next(from);
    if first.Some? && Second(z, first.value) {
      var end := SecondFoldEnd(z, first.value).value;
      if first.value <= v < end { SecondUntilEnd(z, first.value, v); }
    }
  }

  // ---------------------------------------------------------------- gaps

  predicate Forward(z: Zone, t: int) { z.lo(t) == Some(t) && z.off(t - 1) < z.off(t) }

  /** The first forward transition after the cursor, up to and including end. */
  function FirstForward(z: Zone, cursor: int, end: int): Option<int>
    requires ValidZone(z)
    decreases end - cursor
  {
    if cursor >= end then None
    else
      var next := z.hi(cursor);
      if next.None? || next.value > end then None
      else if z.off(next.value) > z.off(cursor) then next
      else assert PieceOk(z, cursor); FirstForward(z, next.value, end)
  }

  method ForwardTransition(z: Zone, start: int, end: int) returns (r: Option<int>, before: int, now: int)
    requires ValidZone(z)
    ensures r == FirstForward(z, start, end)
    ensures r.Some? ==> before == z.off(r.value - 1) && now == z.off(r.value)
  {
    before, now := 0, 0;
    var cursor, previous := start, z.off(start);
    while cursor < end
      invariant FirstForward(z, start, end) == FirstForward(z, cursor, end) && previous == z.off(cursor)
      decreases end - cursor
    {
      var next := z.hi(cursor);
      assert PieceOk(z, cursor);
      if next.None? || next.value > end || next.value <= cursor { return None, 0, 0; }
      if z.off(next.value) > previous {
        assert Steady(z, cursor, next.value - 1);
        return next, previous, z.off(next.value);
      }
      cursor, previous := next.value, z.off(next.value);
    }
    r := None;
  }

  lemma {:induction false} FirstForwardMeans(z: Zone, cursor: int, end: int, t: int)
    requires ValidZone(z)
    ensures var r := FirstForward(z, cursor, end);
            && (r.Some? ==> cursor < r.value <= end && Forward(z, r.value))
            && (cursor < t <= end && Forward(z, t) ==> r.Some? && r.value <= t)
    decreases end - cursor
  {
    if cursor < end {
      assert PieceOk(z, cursor) && PieceOk(z, t) && Steady(z, cursor, t);
      if z.hi(cursor).Some? && z.hi(cursor).value <= end {
        var h := z.hi(cursor).value;
        assert PieceOk(z, h) && Steady(z, cursor, h - 1);
        if z.off(h) <= z.off(cursor) { FirstForwardMeans(z, h, end, t); }
      }
    }
  }

  /** Some minute that the transition skips matches the schedule. */
  predicate GapMatches(z: Zone, c: Cron, t: int) {
    exists w :: t + z.off(t - 1) <= w < t + z.off(t) && w % MINUTE == 0 && c.matches(w)
  }

  /** No instant shows this wall-clock reading. */
  ghost predicate Skipped(z: Zone, w: int) { forall t :: Wall(z, t) != w }

  /** The transition at t jumps over the reading. */
  predicate Jumps(z: Zone, t: int, w: int) { Forward(z, t) && t + z.off(t - 1) <= w < t + z.off(t) }

  /** Between an instant before the reading and one after it the clock jumps over it. */
  lemma {:induction false} Crossing(z: Zone, w: int, a: int, b: int) returns (t: int)
    requires a < b && Wall(z, a) < w < Wall(z, b) && Skipped(z, w)
    ensures Wall(z, t - 1) < w < Wall(z, t)
    decreases b - a
  {
    assert Wall(z, b - 1) != w;
    if Wall(z, b - 1) < w { return b; }
    t := Crossing(z, w, a, b - 1);
  }

  /** A wall-clock reading is never shown exactly when some forward transition jumps over it. */
  lemma {:induction false} SkippedExactly(z: Zone, w: int)
    requires ValidZone(z)
    ensures Skipped(z, w) <==> exists t :: Jumps(z, t, w)
  {
    if Skipped(z, w) {
      var a, b := w - MAX_OFFSET - 1, w + MAX_OFFSET + 1;
      assert PieceOk(z, a) && PieceOk(z, b);
      var t := Crossing(z, w, a, b);
      assert PieceOk(z, t) && Steady(z, t, t - 1);
      assert Jumps(z, t, w);
    }
    if t :| Jumps(z, t, w) {
      forall u ensures Wall(z, u) != w { JumpedOver(z, t, w, u); }
    }
  }

  lemma {:induction false} JumpedOver(z: Zone, t: int, w: int, u: int)
    requires ValidZone(z) && Jumps(z, t, w)
    ensures Wall(z, u) != w
  {
    assert PieceOk(z, t) && PieceOk(z, t - 1) && PieceOk(z, u);
    assert Steady(z, t, u) && Steady(z, t - 1, u);
  }

  /** A transition counts as an occurrence exactly when it makes the clock skip a matching minute. */
  lemma {:induction false} GapMatchesExactly(z: Zone, c: Cron, t: int)
    requires ValidZone(z) && Forward(z, t)
    ensures GapMatches(z, c, t) <==> exists w :: Skipped(z, w) && Jumps(z, t, w) && w % MINUTE == 0 && c.matches(w)
  {
    if GapMatches(z, c, t) {
      var w :| t + z.off(t - 1) <= w < t + z.off(t) && w % MINUTE == 0 && c.matches(w);
      assert Jumps(z, t, w);
      SkippedExactly(z, w);
    }
  }

  /** Every matching minute that the clock skips gives an occurrence. */
  lemma {:induction false} SkippedMatchOccurs(z: Zone, c: Cron, w: int)
    requires ValidZone(z) && w % MINUTE == 0 && c.matches(w) && Skipped(z, w)
    ensures exists t :: Jumps(z, t, w) && Occurs(z, c, t)
  {
    SkippedExactly(z, w);
    var t :| Jumps(z, t, w);
    GapMatchesExactly(z, c, t);
  }

  function Fire(z: Zone, c: Cron, after: int): Option<int>
    requires ValidZone(z)
  {
    var u := Candidate(z, c, after);
    if u.None? then None
    else
      var gap := FirstForward(z, after, u.value);
      if gap.Some? && GapMatches(z, c, gap.value) then gap else u
  }

  /** The suppression loop of the source runs four rounds; the first already settles it. */
  method NextFire(z: Zone, c: Cron, after: int) returns (r: Option<int>)
    requires ValidZone(z) && ValidCron(z, c)
    ensures r == Fire(z, c, after)
  {
    hide ValidZone, ValidCron, SecondFoldEnd, FirstForward;
    var from := after;
    if SecondFoldEnd(z, from).Some? { from := SecondFoldEnd(z, from).value - 1; }
    var candidate := c.next(from);
    if candidate.None? { return None; }
    for round := 0 to 4
      invariant candidate.Some?
      invariant round == 0 ==> candidate == c.next(From(z, after))
      invariant round > 0 ==> candidate == Candidate(z, c, after)
    {
      if round > 0 { CandidateSettled(z, c, after); }
      var end := SecondFoldEnd(z, candidate.value);
      if end.None? { break; }
      candidate := c.next(end.value - 1);
      if candidate.None? { return None; }
    }
    var gap, before, now := ForwardTransition(z, after, candidate.value);
    if gap.Some? {
      var matched := AnyMatch(c, gap.value + before, gap.value + now);
      if matched { return gap; }
    }
    r := candidate;
  }

  method AnyMatch(c: Cron, lo: int, hi: int) returns (found: bool)
    ensures found <==> exists w :: lo <= w < hi && w % MINUTE == 0 && c.matches(w)
  {
    var w := lo;
    while w < hi
      invariant lo <= w && forall v :: lo <= v < w && v < hi && v % MINUTE == 0 ==> !c.matches(v)
    {
      if w % MINUTE == 0 && c.matches(w) { return true; }
      w := w + 1;
    }
    found := false;
  }

  // ---------------------------------------------------------------- what a fire is

  /** The occurrences of a schedule: hits outside second copies, and gaps that swallow a match. */
  predicate Occurs(z: Zone, c: Cron, t: int) {
    (Hit(z, c, t) && !Second(z, t)) || (Forward(z, t) && GapMatches(z, c, t))
  }

  /** A later gap in front of the candidate matches, but the first gap does not. */
  ghost predicate Hidden(z: Zone, c: Cron, after: int)
    requires ValidZone(z)
  {
    var u := Candidate(z, c, after);
    u.Some? && var gap := FirstForward(z, after, u.value);
    gap.Some? && !GapMatches(z, c, gap.value) && exists t ::
          gap.value < t < u.value && Forward(z, t) && GapMatches(z, c, t)
  }

  lemma {:induction false} ForwardIsWhole(z: Zone, t: int)
    requires ValidZone(z) && Forward(z, t)
    ensures t % MINUTE == 0 && !Second(z, t)
  {
    assert PieceOk(z, t);
  }

  /** A fire is a later occurrence, on a whole minute, in no second copy. */
  lemma {:induction false} FireOccurs(z: Zone, c: Cron, after: int)
    requires ValidZone(z) && ValidCron(z, c) && Fire(z, c, after).Some?
    ensures var f := Fire(z, c, after).value; f > after && Occurs(z, c, f) && f % MINUTE == 0 && !Second(z, f)
  {
    CandidateSettled(z, c, after);
    var u := Candidate(z, c, after).value;
    FirstForwardMeans(z, after, u, u);
    hide FirstForward, Candidate, ValidCron, Second, ValidZone;
    var f := Fire(z, c, after).value;
    if f != u { ForwardIsWhole(z, f); }
  }

  /** Without a hidden gap, nothing occurs before the fire. */
  lemma {:induction false} NothingBefore(z: Zone, c: Cron, after: int, t: int)
    requires ValidZone(z) && ValidCron(z, c) && Fire(z, c, after).Some? && after < t < Fire(z, c, after).value
    requires Occurs(z, c, t)
    ensures Hidden(z, c, after)
  {
    var u := Candidate(z, c, after).value;
    FirstForwardMeans(z, after, u, t);
    if Hit(z, c, t) && !Second(z, t) { CandidateLeast(z, c, after, t); }
    hide FirstForward, Candidate, ValidCron, Second, ValidZone;
  }

  /** The fire is the least later occurrence exactly when no gap is hidden. */
  lemma {:induction false} FireIsLeast(z: Zone, c: Cron, after: int)
    requires ValidZone(z) && ValidCron(z, c) && Fire(z, c, after).Some?
    ensures (forall t :: after < t < Fire(z, c, after).value ==> !Occurs(z, c, t)) <==> !Hidden(z, c, after)
  {
    var f := Fire(z, c, after).value;
    if !Hidden(z, c, after) {
      forall t | after < t < f ensures !Occurs(z, c, t) {
        if Occurs(z, c, t) { NothingBefore(z, c, after, t); }
      }
    } else {
      HiddenOccurs(z, c, after);
    }
  }

  lemma {:induction false} HiddenOccurs(z: Zone, c: Cron, after: int)
    requires ValidZone(z) && ValidCron(z, c) && Hidden(z, c, after)
    ensures Fire(z, c, after) == Candidate(z, c, after) && exists t ::
              after < t < Fire(z, c, after).value && Occurs(z, c, t)
  {
    var u := Candidate(z, c, after).value;
    FirstForwardMeans(z, after, u, u);
    hide FirstForward, Candidate, ValidCron, ValidZone;
    var gap := FirstForward(z, after, u).value;
    var t :| gap < t < u && Forward(z, t) && GapMatches(z, c, t);
    assert Occurs(z, c, t);
  }

  // ---------------------------------------------------------------- iterated fires

  /** The nth fire after a cursor. */
  function Iterate(z: Zone, c: Cron, first: int, n: nat): Option<int>
    requires ValidZone(z)
  {
    if n == 0 then Some(first)
    else
      var p := Iterate(z, c, first, n - 1);
      if p.None? then None else Fire(z, c, p.value)
  }

  lemma {:induction false} IterateRises(z: Zone, c: Cron, first: int, i: nat, j: nat)
    requires ValidZone(z) && ValidCron(z, c) && i <= j && Iterate(z, c, first, j).Some?
    ensures Iterate(z, c, first, i).Some? && Iterate(z, c, first, i).value + (j - i) <= Iterate(z, c, first, j).value
    decreases j - i
  {
    if i < j {
      FireOccurs(z, c, Iterate(z, c, first, j - 1).value);
      hide Fire, ValidZone, ValidCron;
      IterateRises(z, c, first, i, j - 1);
    }
  }

  /** Iterated fires rise strictly, avoid second copies and never share a wall-clock minute. */
  lemma {:induction false} FiresAreDistinct(z: Zone, c: Cron, first: int, i: nat, j: nat)
    requires ValidZone(z) && ValidCron(z, c) && i < j && Iterate(z, c, first, j).Some?
    ensures var a, b := Iterate(z, c, first, i), Iterate(z, c, first, j);
            a.Some? && a.value < b.value && !Second(z, b.value) && !SameWallMinute(z, a.value, b.value)
  {
    IterateRises(z, c, first, i, j);
    IterateRises(z, c, first, j - 1, j);
    FireOccurs(z, c, Iterate(z, c, first, j - 1).value);
    var a, b := Iterate(z, c, first, i).value, Iterate(z, c, first, j).value;
    hide Fire, ValidCron;
    if SameWallMinute(z, a, b) { RepeatIsSecond(z, a, b); }
  }

  /** The guard against repeating the last fire's wall minute, as the source writes it. */
  function FireDistinct(z: Zone, c: Cron, after: int, last: Option<int>): Option<int>
    requires ValidZone(z)
  {
    var f := Fire(z, c, after);
    if f.None? || last.None? then f
    else if SameWallMinute(z, last.value, f.value) then Fire(z, c, f.value)
    else f
  }

  /** The guard never acts: folds are already excluded, so it cannot drop an occurrence either. */
  lemma {:induction false} GuardIsRedundant(z: Zone, c: Cron, after: int, last: Option<int>)
    requires ValidZone(z) && ValidCron(z, c) && (last.Some? ==> last.value <= after)
    ensures FireDistinct(z, c, after, last) == Fire(z, c, after)
  {
    var f := Fire(z, c, after);
    if f.Some? && last.Some? {
      FireOccurs(z, c, after);
      hide Fire, ValidCron;
      if SameWallMinute(z, last.value, f.value) { RepeatIsSecond(z, last.value, f.value); }
    }
  }
}
