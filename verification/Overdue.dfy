/**
 Occurrences that elapsed while no scheduler ran: the backward search for the latest
 one, the bounded count, and the closed form for interval schedules.
 */
module Overdue {
  import opened Options
  import opened Schedule

  const HOUR: int := 3600
  /** The longest span a duration can express, in seconds. */
  const MAX_SPAN: int := 9223372036
  const MAX_STEPS: nat := 100000
  const MAX_COUNT: nat := 100000

  function Min(a: int, b: int): int { if a < b then a else b }

  // ---------------------------------------------------------------- occurrences and cursors

  /** The occurrences in (lo, hi]. */
  ghost function Occurrences(z: Zone, c: Cron, lo: int, hi: int): set<int> { set t | lo < t <= hi && Occurs(z, c, t) }

  /** The latest occurrence in (lo, now]. */
  ghost predicate IsLatest(z: Zone, c: Cron, lo: int, now: int, r: int) {
    r in Occurrences(z, c, lo, now) && forall t | t in Occurrences(z, c, lo, now) :: t <= r
  }

  /**
   The first gap in front of the cursor's candidate does not match, a later one does, and it
   lies at or before now.
   */
  ghost predicate Hides(z: Zone, c: Cron, cursor: int, now: int)
    requires ValidZone(z)
  {
    var u := Candidate(z, c, cursor);
    u.Some? && var gap := FirstForward(z, cursor, u.value);
    && gap.Some? && !GapMatches(z, c, gap.value)
    && exists t :: gap.value < t < u.value && t <= now && Forward(z, t) && GapMatches(z, c, t)
  }

  /** The fire after a cursor passes over an occurrence up to now exactly when the cursor hides one. */
  lemma {:induction false} HidesExactly(z: Zone, c: Cron, cursor: int, now: int)
    requires ValidZone(z) && ValidCron(z, c) && Fire(z, c, cursor).Some?
    ensures Hides(z, c, cursor, now) <==> exists t ::
              cursor < t <= now && t < Fire(z, c, cursor).value && Occurs(z, c, t)
    ensures Fire(z, c, cursor).value > cursor && Occurs(z, c, Fire(z, c, cursor).value)
  {
    FireOccurs(z, c, cursor);
    var u := Candidate(z, c, cursor).value;
    if Hides(z, c, cursor, now) {
      var t := Passed(z, c, cursor, now);
    }
    forall t | cursor < t <= now && t < Fire(z, c, cursor).value && Occurs(z, c, t) ensures Hides(z, c, cursor, now) {
      OnlyGapsAreMissed(z, c, cursor, t);
      FirstForwardMeans(z, cursor, u, t);
      hide FirstForward, Candidate, ValidCron, ValidZone, Occurs;
    }
    hide Hides, Fire;
  }

  lemma {:induction false} Passed(z: Zone, c: Cron, cursor: int, now: int) returns (t: int)
    requires ValidZone(z) && ValidCron(z, c) && Hides(z, c, cursor, now)
    ensures Fire(z, c, cursor).Some? && cursor < t <= now && t < Fire(z, c, cursor).value && Occurs(z, c, t)
  {
    var u := Candidate(z, c, cursor).value;
    FirstForwardMeans(z, cursor, u, u);
    hide FirstForward, Candidate, ValidCron, ValidZone;
    var gap := FirstForward(z, cursor, u).value;
    t :| gap < t < u && t <= now && Forward(z, t) && GapMatches(z, c, t);
  }

  /** What lies between a cursor and its fire is no ordinary hit. */
  lemma {:induction false} OnlyGapsAreMissed(z: Zone, c: Cron, cursor: int, t: int)
    requires ValidZone(z) && ValidCron(z, c) && Fire(z, c, cursor).Some? && cursor < t < Fire(z, c, cursor).value
    requires Occurs(z, c, t)
    ensures Forward(z, t) && GapMatches(z, c, t) && Fire(z, c, cursor) == Candidate(z, c, cursor)
  {
    var u := Candidate(z, c, cursor).value;
    FirstForwardMeans(z, cursor, u, t);
    if Hit(z, c, t) && !Second(z, t) { CandidateLeast(z, c, cursor, t); }
    hide FirstForward, Candidate, ValidCron, Second, ValidZone;
  }

  // ---------------------------------------------------------------- enumeration

  ghost predicate Valid(z: Zone, c: Cron) { ValidZone(z) && ValidCron(z, c) }

  /** The fires met by enumerating from a cursor, the cursor included, up to now. */
  ghost function Visits(z: Zone, c: Cron, cursor: int, now: int): seq<int>
    requires Valid(z, c)
    decreases now - cursor
  {
    if cursor > now then []
    else if Fire(z, c, cursor).None? then [cursor]
    else FireOccurs(z, c, cursor); [cursor] + Visits(z, c, Fire(z, c, cursor).value, now)
  }

  /** Where enumeration stops; none when the schedule has no next fire. */
  ghost function LastFrom(z: Zone, c: Cron, cursor: int, now: int): Option<int>
    requires Valid(z, c)
    decreases now - cursor
  {
    if Fire(z, c, cursor).None? then None
    else if Fire(z, c, cursor).value > now then Some(cursor)
    else FireOccurs(z, c, cursor); LastFrom(z, c, Fire(z, c, cursor).value, now)
  }

  /** One enumeration step. */
  lemma {:induction false} Unroll(z: Zone, c: Cron, cursor: int, now: int)
    requires Valid(z, c) && cursor <= now && Fire(z, c, cursor).Some?
    ensures var f := Fire(z, c, cursor).value;
            && cursor < f && Occurs(z, c, f)
            && Visits(z, c, cursor, now) == [cursor] + Visits(z, c, f, now)
            && LastFrom(z, c, cursor, now) == (if f > now then Some(cursor) else LastFrom(z, c, f, now))
  {
    FireOccurs(z, c, cursor);
    hide Fire, ValidZone, ValidCron, Occurs;
  }

  predicate Rising(s: seq<int>) { forall i, j :: 0 <= i < j < |s| ==> s[i] < s[j] }

  ghost function Elements(s: seq<int>): set<int> { set x | x in s }

  lemma {:induction false} RisingSize(s: seq<int>)
    requires Rising(s)
    ensures |Elements(s)| == |s|
  {
    if s != [] {
      var n := |s| - 1;
      RisingSize(s[..n]);
      assert s == s[..n] + [s[n]];
      assert Elements(s) == Elements(s[..n]) + {s[n]};
    }
  }

  /** Enumeration meets distinct occurrences. */
  lemma {:induction false} VisitsTrail(z: Zone, c: Cron, cursor: int, now: int)
    requires Valid(z, c) && Occurs(z, c, cursor)
    ensures forall v | v in Visits(z, c, cursor, now) :: cursor <= v <= now && Occurs(z, c, v)
    ensures Rising(Visits(z, c, cursor, now))
    decreases now - cursor
  {
    hide Fire, ValidZone, ValidCron, Occurs;
    if cursor <= now && Fire(z, c, cursor).Some? {
      Unroll(z, c, cursor, now);
      VisitsTrail(z, c, Fire(z, c, cursor).value, now);
      var rest := Visits(z, c, Fire(z, c, cursor).value, now);
      assert forall i :: 0 <= i < |rest| ==> rest[i] in rest;
    }
  }

  ghost predicate NoneHides(z: Zone, c: Cron, vs: seq<int>, now: int)
    requires ValidZone(z)
  {
    forall v | v in vs :: !Hides(z, c, v, now)
  }

  /** Enumeration meets everything after its cursor exactly when no cursor it visits hides an occurrence. */
  lemma {:induction false} VisitsExactly(z: Zone, c: Cron, cursor: int, now: int)
    requires Valid(z, c) && cursor <= now && LastFrom(z, c, cursor, now).Some?
    ensures NoneHides(z, c, Visits(z, c, cursor, now), now)
       <==> forall t | t in Occurrences(z, c, cursor, now) :: t in Visits(z, c, cursor, now)
    decreases now - cursor
  {
    hide Fire, ValidZone, ValidCron, Occurs, Hides, Visits;
    var f := Fire(z, c, cursor).value;
    Unroll(z, c, cursor, now);
    HidesExactly(z, c, cursor, now);
    var all, rest := Visits(z, c, cursor, now), Visits(z, c, f, now);
    assert all[0] == cursor && (forall v :: v in all <==> v == cursor || v in rest);
    assert NoneHides(z, c, all, now) <==> !Hides(z, c, cursor, now) && NoneHides(z, c, rest, now);
    if f > now {
      PastNow(z, c, f, now);
      forall t | cursor < t <= now && Occurs(z, c, t) ensures t in Occurrences(z, c, cursor, now) && t !in all {}
    } else {
      VisitsExactly(z, c, f, now);
      VisitsTrail(z, c, f, now);
      VisitsHead(z, c, f, now);
      forall t | cursor < t < f && Occurs(z, c, t) ensures t in Occurrences(z, c, cursor, now) && t !in all {}
      assert forall t | t in Occurrences(z, c, f, now) :: t in Occurrences(z, c, cursor, now);
    }
  }

  lemma {:induction false} PastNow(z: Zone, c: Cron, cursor: int, now: int)
    requires Valid(z, c) && cursor > now
    ensures Visits(z, c, cursor, now) == []
  {
  }

  lemma {:induction false} VisitsHead(z: Zone, c: Cron, cursor: int, now: int)
    requires Valid(z, c) && cursor <= now
    ensures cursor in Visits(z, c, cursor, now)
  {
  }

  /** A cursor whose fire is past now is the latest occurrence exactly when it hides none. */
  lemma {:induction false} LatestExactly(z: Zone, c: Cron, lo: int, now: int, r: int)
    requires Valid(z, c) && lo < r <= now && Occurs(z, c, r) && Fire(z, c, r).Some? && Fire(z, c, r).value > now
    ensures IsLatest(z, c, lo, now, r) <==> !Hides(z, c, r, now)
  {
    hide Fire, ValidZone, ValidCron, Occurs, Hides;
    HidesExactly(z, c, r, now);
    forall t | r < t <= now && Occurs(z, c, t) ensures t in Occurrences(z, c, lo, now) {}
  }

  lemma {:induction false} SubsetSize(a: set<int>, b: set<int>)
    requires a <= b
    ensures |a| <= |b| && (|a| == |b| <==> a == b)
  {
    assert b == a + (b - a) && a !! (b - a);
  }

  /**
   Enumerating from a base meets at most the occurrences there are, and all of them exactly
   when no cursor it visits, the base included, hides one.
   */
  lemma {:induction false} CountExactly(z: Zone, c: Cron, base: int, now: int)
    requires Valid(z, c) && Fire(z, c, base).Some? && Fire(z, c, base).value <= now
    requires LastFrom(z, c, Fire(z, c, base).value, now).Some?
    ensures var n, all := |Visits(z, c, Fire(z, c, base).value, now)|, |Occurrences(z, c, base, now)|;
            n <= all && (n == all <==> NoneHides(z, c, Visits(z, c, base, now), now))
  {
    hide Fire, ValidZone, ValidCron, Occurs, Hides, Visits, LastFrom, NoneHides;
    var first := Fire(z, c, base).value;
    VisitsBelow(z, c, base, now);
    Unroll(z, c, base, now);
    VisitsExactly(z, c, base, now);
    var met, all := Visits(z, c, first, now), Occurrences(z, c, base, now);
    SubsetSize(Elements(met), all);
    assert forall t :: t in Visits(z, c, base, now) <==> t == base || t in met;
  }

  /** Even an enumeration that was cut short never counts too many. */
  lemma {:induction false} VisitsBelow(z: Zone, c: Cron, base: int, now: int)
    requires Valid(z, c) && Fire(z, c, base).Some? && Fire(z, c, base).value <= now
    ensures var first := Fire(z, c, base).value;
            && first > base && Occurs(z, c, first)
            && Elements(Visits(z, c, first, now)) <= Occurrences(z, c, base, now)
            && |Elements(Visits(z, c, first, now))| == |Visits(z, c, first, now)| <= |Occurrences(z, c, base, now)|
  {
    hide Fire, ValidZone, ValidCron, Occurs, Visits;
    var first := Fire(z, c, base).value;
    FireOccurs(z, c, base);
    VisitsTrail(z, c, first, now);
    RisingSize(Visits(z, c, first, now));
    SubsetSize(Elements(Visits(z, c, first, now)), Occurrences(z, c, base, now));
  }

  // ---------------------------------------------------------------- the backward search

  /** Enumeration from the start stays within the step bound. */
  ghost predicate Searchable(z: Zone, c: Cron, start: int, now: int)
    requires Valid(z, c)
  {
    LastFrom(z, c, start, now).Some? && |Visits(z, c, start, now)| <= MAX_STEPS
  }

  /** Where enumeration stops there is an occurrence, unless it never moved. */
  lemma {:induction false} LastFromMeans(z: Zone, c: Cron, cursor: int, now: int)
    requires Valid(z, c) && cursor <= now && LastFrom(z, c, cursor, now).Some?
    ensures var m := LastFrom(z, c, cursor, now).value;
            && cursor <= m <= now && (m == cursor || Occurs(z, c, m))
            && Fire(z, c, m).Some? && Fire(z, c, m).value > now
    decreases now - cursor
  {
    hide Fire, ValidZone, ValidCron, Occurs, Visits;
    Unroll(z, c, cursor, now);
    if Fire(z, c, cursor).value <= now { LastFromMeans(z, c, Fire(z, c, cursor).value, now); }
  }

  /** The last window starts at the first missed fire. */
  predicate Whole(first: int, now: int, window: int) {
    window >= Min(now - first, MAX_SPAN) || window > MAX_SPAN / 8 // the difference saturates
  }

  function WindowStart(first: int, now: int, window: int): int {
    if Whole(first, now, window) then first else now - window
  }

  /** The backward search: ever larger windows that end now, until one has a fire. */
  ghost function LatestOf(z: Zone, c: Cron, first: int, now: int, window: int): Option<int>
    requires Valid(z, c) && window > 0
    decreases MAX_SPAN - window
  {
    var start := WindowStart(first, now, window);
    if !Searchable(z, c, start, now) then None
    else if Whole(first, now, window) || LastFrom(z, c, start, now).value > start then LastFrom(z, c, start, now)
    else LatestOf(z, c, first, now, 8 * window)
  }

  /** What the search finds is an occurrence whose fire is past now. */
  lemma {:induction false} LatestOfMeans(z: Zone, c: Cron, first: int, now: int, window: int)
    requires Valid(z, c) && window > 0 && first <= now && Occurs(z, c, first)
             && LatestOf(z, c, first, now, window).Some?
    ensures var r := LatestOf(z, c, first, now, window).value;
            first <= r <= now && Occurs(z, c, r) && Fire(z, c, r).Some? && Fire(z, c, r).value > now
    decreases MAX_SPAN - window
  {
    hide Fire, ValidZone, ValidCron, Occurs, Visits, LastFrom;
    var start := WindowStart(first, now, window);
    LastFromMeans(z, c, start, now);
    if !Whole(first, now, window) && LastFrom(z, c, start, now).value <= start {
      LatestOfMeans(z, c, first, now, 8 * window);
    }
  }

  /** The last fire of one window, searched forward from its start; a patient caller does not cancel. */
  method SearchWindow(z: Zone, c: Cron, start: int, now: int, last: Option<int>, patient: bool)
    returns (best: Option<int>, ok: bool, cancelled: bool)
    requires Valid(z, c) && start <= now && (last.Some? ==> last.value <= start)
    ensures ok ==> Searchable(z, c, start, now)
    ensures ok ==> LastFrom(z, c, start, now).value == if best.Some? then best.value else start
    ensures ok && best.Some? ==> best.value > start
    ensures !ok ==> cancelled || !Searchable(z, c, start, now)
    ensures cancelled ==> !ok && !patient
  {
    hide ValidZone, ValidCron, Fire, Occurs, SameWallMinute, Visits, LastFrom;
    best, ok, cancelled := None, true, false;
    var cursor := start;
    for steps := 0 to MAX_STEPS
      invariant cursor == (if best.Some? then best.value else start) && start <= cursor <= now
      invariant best.Some? ==> start < cursor
      invariant LastFrom(z, c, start, now) == LastFrom(z, c, cursor, now)
      invariant |Visits(z, c, start, now)| == steps + |Visits(z, c, cursor, now)|
    {
      cancelled := *;
      cancelled := cancelled && !patient;
      if cancelled { return None, false, true; }
      GuardIsRedundant(z, c, cursor, last);
      var next := FireDistinct(z, c, cursor, last);
      if next.None? {
        NoFire(z, c, cursor, now);
        return None, false, false;
      }
      Unroll(z, c, cursor, now);
      if next.value > now {
        PastNow(z, c, next.value, now);
        return;
      }
      best, cursor := next, next.value;
    }
    VisitsHead(z, c, cursor, now);
    return None, false, false;
  }

  lemma {:induction false} NoFire(z: Zone, c: Cron, cursor: int, now: int)
    requires Valid(z, c) && Fire(z, c, cursor).None?
    ensures LastFrom(z, c, cursor, now).None?
  {
  }

  /** Searches ever larger windows that end now. */
  method LatestFire(z: Zone, c: Cron, first: int, now: int, last: Option<int>, patient: bool)
    returns (r: Option<int>, cancelled: bool)
    requires Valid(z, c) && first < now && Occurs(z, c, first) && (last.Some? ==> last.value <= first)
    ensures r.Some? || !cancelled ==> r == LatestOf(z, c, first, now, HOUR)
    ensures cancelled ==> r.None? && !patient
    ensures r.Some? ==>
              first <= r.value <= now && (IsLatest(z, c, first - 1, now, r.value) <==> !Hides(z, c, r.value, now))
  {
    hide ValidZone, ValidCron, Fire, Occurs, Visits, Hides, LastFrom, IsLatest;
    var span := Min(now - first, MAX_SPAN);
    var window := HOUR;
    while true
      invariant window >= HOUR && LatestOf(z, c, first, now, HOUR) == LatestOf(z, c, first, now, window)
      decreases MAX_SPAN - window
    {
      var whole := window >= span || window > MAX_SPAN / 8;
      var start := if whole then first else now - window;
      var best, ok, stopped := SearchWindow(z, c, start, now, last, patient);
      if !ok { return None, stopped; }
      if best.Some? || whole {
        r, cancelled := if best.Some? then best else Some(first), false;
        break;
      }
      window := 8 * window;
    }
    LatestOfMeans(z, c, first, now, HOUR);
    LatestExactly(z, c, first - 1, now, r.value);
  }

  // ---------------------------------------------------------------- the count

  /** Counts occurrences from the first missed one to the latest, up to a bound. */
  method CountFires(z: Zone, c: Cron, first: int, latest: int, now: int, last: Option<int>, patient: bool)
    returns (count: nat, exact: bool, ok: bool, cancelled: bool)
    requires Valid(z, c) && first <= now && (last.Some? ==> last.value <= first)
    requires Fire(z, c, latest).Some? && Fire(z, c, latest).value > now
    ensures ok && exact ==> LastFrom(z, c, first, now).Some? && count == |Visits(z, c, first, now)|
    ensures ok && !exact ==> count == MAX_COUNT < |Visits(z, c, first, now)|
    ensures !ok ==> cancelled || LastFrom(z, c, first, now).None?
    ensures cancelled ==> !ok && !patient
  {
    hide ValidZone, ValidCron, Fire, Occurs, SameWallMinute, Visits, LastFrom;
    count, exact, ok, cancelled := 0, true, true, false;
    var cursor := first;
    while cursor <= now
      invariant first <= cursor && count <= MAX_COUNT
      invariant count + |Visits(z, c, cursor, now)| == |Visits(z, c, first, now)|
      invariant if cursor <= now then LastFrom(z, c, cursor, now) == LastFrom(z, c, first, now)
                else LastFrom(z, c, first, now).Some?
      decreases MAX_COUNT - count
    {
      if count == MAX_COUNT {
        VisitsHead(z, c, cursor, now);
        return count, false, true, false;
      }
      cancelled := *;
      cancelled := cancelled && !patient;
      if cancelled { return count, exact, false, true; }
      count := count + 1;
      if cursor == latest {
        Unroll(z, c, cursor, now);
        PastNow(z, c, Fire(z, c, cursor).value, now);
        return;
      }
      GuardIsRedundant(z, c, cursor, last);
      var next := FireDistinct(z, c, cursor, last);
      if next.None? {
        NoFire(z, c, cursor, now);
        return count, exact, false, false;
      }
      Unroll(z, c, cursor, now);
      cursor := next.value;
    }
    PastNow(z, c, cursor, now);
  }

  // ---------------------------------------------------------------- overdue fires

  datatype Result = Failed | Nothing | Missed(first: int, latest: int, count: nat, exact: bool)

  /** The answer, from the searches: it fails only if cancelled, without a next fire, or out of steps. */
  ghost predicate Answers(z: Zone, c: Cron, base: int, now: int, wantCount: bool, cancelled: bool, r: Result)
    requires Valid(z, c)
  {
    var f := Fire(z, c, base);
    match r
    case Failed =>
      || cancelled || f.None?
      || (f.value < now && (LatestOf(z, c, f.value, now, HOUR).None? || LastFrom(z, c, f.value, now).None?))
    case Nothing => f.Some? && f.value >= now
    case Missed(first, latest, count, exact) =>
      && f == Some(first) && first < now && LatestOf(z, c, first, now, HOUR) == Some(latest)
      && (exact ==> LastFrom(z, c, first, now).Some? && count == |Visits(z, c, first, now)|)
      && (!exact ==> first != latest && count == if wantCount then MAX_COUNT else 2)
      && (!exact && wantCount ==> count < |Visits(z, c, first, now)|)
      && (first == latest ==> exact)
      && (!wantCount && first != latest ==> !exact)
  }

  /**
   The occurrences in (last, now], or in (anchor, now] when nothing has fired yet.  The latest
   is right exactly when it hides no occurrence up to now; a count flagged exact is right
   exactly when no cursor visited hides one; and no count is too large.
   */
  method OverdueCron(z: Zone, c: Cron, anchor: int, last: Option<int>, now: int, wantCount: bool, patient: bool)
    returns (r: Result, cancelled: bool)
    requires Valid(z, c)
    ensures cancelled ==> r.Failed? && !patient
    ensures var base := if last.Some? then last.value else anchor;
            && Answers(z, c, base, now, wantCount, cancelled, r)
            && (r.Nothing? ==> (Occurrences(z, c, base, now - 1) == {} <==> !Hides(z, c, base, now - 1)))
            && (r.Missed? ==>
                 && (IsLatest(z, c, base, now, r.latest) <==> !Hides(z, c, r.latest, now))
                 && r.count <= |Occurrences(z, c, base, now)|
                 && (r.exact ==> (r.count == |Occurrences(z, c, base, now)|
                     <==> NoneHides(z, c, Visits(z, c, base, now), now))))
  {
    hide ValidZone, ValidCron, Fire, Occurs, SameWallMinute, Visits, LastFrom, LatestOf, Hides, NoneHides, IsLatest;
    hide Occurrences;
    cancelled := false;
    var base := if last.Some? then last.value else anchor;
    GuardIsRedundant(z, c, base, last);
    var next := FireDistinct(z, c, base, last);
    if next.None? { return Failed, false; }
    var first := next.value;
    FireOccurs(z, c, base);
    if first >= now {
      NothingExactly(z, c, base, now);
      return Nothing, false;
    }
    var latest, stopped := LatestFire(z, c, first, now, last, patient);
    if latest.None? { return Failed, stopped; }
    LatestOfMeans(z, c, first, now, HOUR);
    var count, exact, ok := 1, true, true;
    if latest.value == first {
      OnlyVisit(z, c, first, now);
    } else if wantCount {
      count, exact, ok, stopped := CountFires(z, c, first, latest.value, now, last, patient);
      if !ok { return Failed, stopped; }
    } else {
      count, exact := 2, false;
      TwoOccur(z, c, base, now, first, latest.value);
    }
    VisitsBelow(z, c, base, now);
    if exact { CountExactly(z, c, base, now); }
    LatestExactly(z, c, base, now, latest.value);
    r := Missed(first, latest.value, count, exact);
  }

  lemma {:induction false} NothingExactly(z: Zone, c: Cron, base: int, now: int)
    requires Valid(z, c) && Fire(z, c, base).Some? && Fire(z, c, base).value >= now
    ensures Occurrences(z, c, base, now - 1) == {} <==> !Hides(z, c, base, now - 1)
  {
    hide ValidZone, ValidCron, Fire, Occurs, Hides;
    HidesExactly(z, c, base, now - 1);
    forall t | base < t <= now - 1 && Occurs(z, c, t) ensures t in Occurrences(z, c, base, now - 1) {}
  }

  lemma {:induction false} OnlyVisit(z: Zone, c: Cron, first: int, now: int)
    requires Valid(z, c) && first <= now && Fire(z, c, first).Some? && Fire(z, c, first).value > now
    ensures Visits(z, c, first, now) == [first] && LastFrom(z, c, first, now) == Some(first)
  {
    Unroll(z, c, first, now);
    PastNow(z, c, Fire(z, c, first).value, now);
  }

  lemma {:induction false} TwoOccur(z: Zone, c: Cron, base: int, now: int, a: int, b: int)
    requires base < a < b <= now && Occurs(z, c, a) && Occurs(z, c, b)
    ensures |Occurrences(z, c, base, now)| >= 2
  {
    hide Occurs;
    SubsetSize({a, b}, Occurrences(z, c, base, now));
  }

  /** Forward enumeration and the backward search differ only where the earlier of the two hides the later. */
  lemma {:induction false} EnumerationAgrees(z: Zone, c: Cron, base: int, now: int)
    requires Valid(z, c) && Fire(z, c, base).Some? && Fire(z, c, base).value <= now
    requires LastFrom(z, c, Fire(z, c, base).value, now).Some?
    requires LatestOf(z, c, Fire(z, c, base).value, now, HOUR).Some?
    ensures var first := Fire(z, c, base).value;
            var forward, backward := LastFrom(z, c, first, now).value, LatestOf(z, c, first, now, HOUR).value;
            && (forward != backward ==> Hides(z, c, Min(forward, backward), now))
            && (IsLatest(z, c, base, now, forward) <==> !Hides(z, c, forward, now))
            && (IsLatest(z, c, base, now, backward) <==> !Hides(z, c, backward, now))
            && (forward == backward && IsLatest(z, c, base, now, forward)
                <==> !Hides(z, c, forward, now) && !Hides(z, c, backward, now))
  {
    hide ValidZone, ValidCron, Fire, Occurs, LastFrom, LatestOf, Hides;
    FireOccurs(z, c, base);
    var first := Fire(z, c, base).value;
    LastFromMeans(z, c, first, now);
    LatestOfMeans(z, c, first, now, HOUR);
    var forward, backward := LastFrom(z, c, first, now).value, LatestOf(z, c, first, now, HOUR).value;
    LatestExactly(z, c, base, now, forward);
    LatestExactly(z, c, base, now, backward);
    assert forward in Occurrences(z, c, base, now) && backward in Occurrences(z, c, base, now);
  }

  /** If counting forward from the base misses nothing, the backward search finds the true latest. */
  lemma {:induction false} CompleteCountMeansLatest(z: Zone, c: Cron, base: int, now: int)
    requires Valid(z, c) && Fire(z, c, base).Some? && Fire(z, c, base).value <= now
    requires LastFrom(z, c, base, now).Some? && LatestOf(z, c, Fire(z, c, base).value, now, HOUR).Some?
    requires NoneHides(z, c, Visits(z, c, base, now), now)
    ensures IsLatest(z, c, base, now, LatestOf(z, c, Fire(z, c, base).value, now, HOUR).value)
  {
    hide ValidZone, ValidCron, Fire, Occurs, LastFrom, LatestOf, Hides, Visits, IsLatest;
    FireOccurs(z, c, base);
    var first := Fire(z, c, base).value;
    LatestOfMeans(z, c, first, now, HOUR);
    var r := LatestOf(z, c, first, now, HOUR).value;
    VisitsExactly(z, c, base, now);
    assert r in Occurrences(z, c, base, now);
    LatestExactly(z, c, base, now, r);
  }

  // ---------------------------------------------------------------- a hidden gap

  const SPRING: int := 600000
  const AUTUMN: int := 1200000
  const NEXT_SPRING: int := 1800000
  const EARLY: int := 60
  const LATE: int := 2400000

  /** An hour forward, back, and forward again. */
  const TWO_GAPS := Zone(
    t => if t < SPRING then 0 else if t < AUTUMN then 3600 else if t < NEXT_SPRING then 0 else 3600,
    t => if t < SPRING then None else if t < AUTUMN then Some(SPRING) else if t < NEXT_SPRING then Some(AUTUMN)
        else Some(NEXT_SPRING),
    t => if t < SPRING then Some(SPRING) else if t < AUTUMN then Some(AUTUMN)
        else if t < NEXT_SPRING then Some(NEXT_SPRING) else None)

  /** Matches one early minute, one minute that only the second gap skips, and one late minute. */
  const SPARSE := Cron(
    w => w == EARLY || w == NEXT_SPRING + 1800 || w == LATE + 3600,
    t => if t < EARLY then Some(EARLY) else if t < LATE then Some(LATE) else None)

  lemma ExampleIsValid()
    ensures ValidZone(TWO_GAPS) && ValidCron(TWO_GAPS, SPARSE)
  {
    forall t: int ensures PieceOk(TWO_GAPS, t) { ExamplePiece(t); }
    forall t: int, u: int ensures Steady(TWO_GAPS, t, u) { ExampleSteady(t, u); }
    forall t: int ensures SPARSE.next(t).Some? ==>
          SPARSE.next(t).value > t && Hit(TWO_GAPS, SPARSE, SPARSE.next(t).value) { ExampleNext(t, 0); }
    forall t: int, v: int | t < v && (SPARSE.next(t).Some? ==> v < SPARSE.next(t).value)
        ensures !Hit(TWO_GAPS, SPARSE, v) { ExampleNext(t, v); }
    hide PieceOk, Steady, Hit;
  }

  lemma {:induction false} ExamplePiece(t: int)
    ensures PieceOk(TWO_GAPS, t)
  {
  }

  lemma {:induction false} ExampleSteady(t: int, u: int)
    ensures Steady(TWO_GAPS, t, u)
  {
  }

  lemma {:induction false} ExampleNext(t: int, v: int)
    ensures SPARSE.next(t).Some? ==> SPARSE.next(t).value > t && Hit(TWO_GAPS, SPARSE, SPARSE.next(t).value)
    ensures t < v && (SPARSE.next(t).Some? ==> v < SPARSE.next(t).value) ==> !Hit(TWO_GAPS, SPARSE, v)
  {
  }

  /** The first gap in front of a candidate hides the second from the early fire, not from a later cursor. */
  lemma ExampleFires()
    ensures Valid(TWO_GAPS, SPARSE) && Hides(TWO_GAPS, SPARSE, EARLY, MISSED_BY)
    ensures Fire(TWO_GAPS, SPARSE, 0) == Some(EARLY) && Fire(TWO_GAPS, SPARSE, EARLY) == Some(LATE)
    ensures Fire(TWO_GAPS, SPARSE, MISSED_BY - HOUR) == Some(NEXT_SPRING)
            && Fire(TWO_GAPS, SPARSE, NEXT_SPRING) == Some(LATE)
  {
    ExampleIsValid();
    var z, c := TWO_GAPS, SPARSE;
    assert Candidate(z, c, 0) == Some(EARLY) && Candidate(z, c, EARLY) == Some(LATE);
    assert Candidate(z, c, MISSED_BY - HOUR) == Some(LATE) && Candidate(z, c, NEXT_SPRING) == Some(LATE);
    assert FirstForward(z, 0, EARLY) == None && FirstForward(z, EARLY, LATE) == Some(SPRING);
    assert FirstForward(z, MISSED_BY - HOUR, LATE) == Some(NEXT_SPRING) && FirstForward(z, NEXT_SPRING, LATE) == None;
    assert !GapMatches(z, c, SPRING);
    assert c.matches(NEXT_SPRING + 1800) && (NEXT_SPRING + 1800) % MINUTE == 0;
    assert GapMatches(z, c, NEXT_SPRING) && Forward(z, NEXT_SPRING);
  }

  /** A minute after the second gap. */
  const MISSED_BY: int := NEXT_SPRING + 60

  lemma ExampleSearch()
    ensures Valid(TWO_GAPS, SPARSE)
    ensures Visits(TWO_GAPS, SPARSE, EARLY, MISSED_BY) == [EARLY]
            && LastFrom(TWO_GAPS, SPARSE, EARLY, MISSED_BY) == Some(EARLY)
    ensures LatestOf(TWO_GAPS, SPARSE, EARLY, MISSED_BY, HOUR) == Some(NEXT_SPRING)
  {
    hide Valid, Fire, Hides, Visits, LastFrom;
    var z, c, now := TWO_GAPS, SPARSE, MISSED_BY;
    ExampleFires();
    OnlyVisit(z, c, EARLY, now);
    OnlyVisit(z, c, NEXT_SPRING, now);
    Unroll(z, c, now - HOUR, now);
  }

  /**
   The failing case of the whole computation: two fires were missed, and unless cancelled it
   reports the first, the second as the latest, and a count of one flagged exact.
   */
  lemma {:induction false} HiddenGapIsMiscounted(r: Result)
    requires Valid(TWO_GAPS, SPARSE) && Answers(TWO_GAPS, SPARSE, 0, MISSED_BY, true, false, r)
    ensures r == Missed(EARLY, NEXT_SPRING, 1, true)
    ensures |Occurrences(TWO_GAPS, SPARSE, 0, MISSED_BY)| == 2
  {
    hide Valid, Fire, Hides, Visits, LastFrom, LatestOf, Occurs;
    ExampleFires();
    ExampleSearch();
    forall t: int | 0 < t <= MISSED_BY ensures Occurs(TWO_GAPS, SPARSE, t) <==> t == EARLY || t == NEXT_SPRING {
      ExampleOccurs(t);
    }
    assert Occurrences(TWO_GAPS, SPARSE, 0, MISSED_BY) == {EARLY, NEXT_SPRING};
  }

  lemma {:induction false} ExampleOccurs(t: int)
    requires 0 < t <= MISSED_BY
    ensures Occurs(TWO_GAPS, SPARSE, t) <==> t == EARLY || t == NEXT_SPRING
  {
    var c := SPARSE;
    assert c.matches(NEXT_SPRING + 1800) && (NEXT_SPRING + 1800) % MINUTE == 0;
  }

  // ---------------------------------------------------------------- intervals

  /** The largest duration, in the unit of the instants. */
  const MAX_DURATION: int := 0x7FFF_FFFF_FFFF_FFFF

  /** An interval schedule fires at every whole multiple after its anchor. */
  ghost predicate Ticks(anchor: int, interval: int, t: int) { exists k: nat :: k >= 1 && t == anchor + k * interval }

  function Since(later: int, earlier: int): int { Min(later - earlier, MAX_DURATION) }

  method NextInterval(anchor: int, interval: int, after: int) returns (r: Option<int>)
    requires 0 < interval <= MAX_DURATION
    ensures r.None? <==> after >= anchor && Since(after, anchor) / interval >= MAX_DURATION / interval
    ensures r.Some? ==> r.value > after && Ticks(anchor, interval, r.value) && forall t ::
              after < t < r.value ==> !Ticks(anchor, interval, t)
  {
    if after < anchor {
      TickLeast(anchor, interval, after, 0);
      return Some(anchor + interval);
    }
    var periods := Since(after, anchor) / interval;
    if periods >= MAX_DURATION / interval { return None; }
    Unsaturated(after - anchor, interval);
    var candidate := anchor + (periods + 1) * interval;
    TickLeast(anchor, interval, after, periods);
    if candidate <= after { return None; }
    r := Some(candidate);
  }

  lemma {:induction false} Unsaturated(d: int, interval: int)
    requires d >= 0 && 0 < interval <= MAX_DURATION && Min(d, MAX_DURATION) / interval < MAX_DURATION / interval
    ensures d < MAX_DURATION
  {
  }

  lemma {:induction false} TickLeast(anchor: int, interval: int, after: int, k: nat)
    requires interval > 0 && after < anchor + (k + 1) * interval && (k > 0 ==> anchor + k * interval <= after)
    ensures Ticks(anchor, interval, anchor + (k + 1) * interval)
    ensures forall t :: after < t < anchor + (k + 1) * interval ==> !Ticks(anchor, interval, t)
  {
    forall t | after < t < anchor + (k + 1) * interval ensures !Ticks(anchor, interval, t) {
      forall j: nat | j >= 1 ensures t != anchor + j * interval {
        if j <= k { MulMono(j, k, interval); } else { MulMono(k + 1, j, interval); }
      }
    }
  }

  lemma {:induction false} MulMono(a: int, b: int, x: int)
    requires a <= b && x >= 0
    ensures a * x <= b * x
  {
  }

  /** The sum the source computes for an interval schedule, once a fire was missed. */
  function OverdueInterval(first: int, interval: int, now: int): Result
    requires interval > 0 && first < now
  {
    var steps := Since(now, first) / interval;
    Missed(first, first + steps * interval, if steps >= MAX_DURATION then MAX_DURATION else steps + 1, true)
  }

  /** Latest is the last tick up to now, and the count is the number of ticks from first to now. */
  ghost predicate Exact(first: int, interval: int, now: int, r: Result) {
    && r.Missed? && r.latest <= now < r.latest + interval
    && (exists k: nat :: r.latest == first + k * interval && r.count == k + 1)
  }

  /** The closed form is exact exactly when neither the difference nor the count saturates. */
  lemma {:induction false} IntervalExactly(first: int, interval: int, now: int)
    requires 0 < interval && first < now
    ensures Exact(first, interval, now, OverdueInterval(first, interval, now)) <==>
            (now - first) / interval == Since(now, first) / interval < MAX_DURATION
  {
    var steps, exactly := Since(now, first) / interval, (now - first) / interval;
    var r := OverdueInterval(first, interval, now);
    DivMod(now - first, interval);
    if Exact(first, interval, now, r) {
      var k: nat :| r.latest == first + k * interval && r.count == k + 1;
      SameFactor(k, steps, interval);
      Between(now - first, interval, k);
    }
    if exactly == steps < MAX_DURATION {
      assert r.latest == first + steps * interval && r.count == steps + 1;
    }
  }

  lemma {:induction false} DivMod(d: int, x: int)
    requires x > 0
    ensures (d >= 0 ==> d / x >= 0) && (d / x) * x <= d < (d / x + 1) * x
  {
  }

  lemma {:induction false} SameFactor(a: int, b: int, x: int)
    requires x > 0 && a * x == b * x
    ensures a == b
  {
    if a < b { MulMono(a + 1, b, x); }
    if b < a { MulMono(b + 1, a, x); }
  }

  lemma {:induction false} Between(d: int, x: int, k: int)
    requires x > 0 && k * x <= d < k * x + x
    ensures d / x == k
  {
    DivMod(d, x);
    if k < d / x { MulMono(k + 1, d / x, x); }
    if d / x < k { MulMono(d / x + 1, k, x); }
  }

  /** The ticks in (base, now] are the ones the count stands for, and no others. */
  lemma {:induction false} IntervalCountsAll(anchor: int, interval: int, base: int, first: int, now: int, t: int)
    requires 0 < interval && base < first < now && Ticks(anchor, interval, first)
    requires forall u :: base < u < first ==> !Ticks(anchor, interval, u)
    requires Exact(first, interval, now, OverdueInterval(first, interval, now))
    ensures base < t <= now && Ticks(anchor, interval, t) <==>
            exists j: nat :: j < OverdueInterval(first, interval, now).count && t == first + j * interval
  {
    var r := OverdueInterval(first, interval, now);
    var k: nat :| r.latest == first + k * interval && r.count == k + 1;
    var p: nat :| p >= 1 && first == anchor + p * interval;
    if base < t <= now && Ticks(anchor, interval, t) {
      var q: nat :| q >= 1 && t == anchor + q * interval;
      if q < p { MulMono(q + 1, p, interval); }
      if q - p > k { MulMono(p + k + 1, q, interval); Distribute(p, k, interval); }
      Distribute(p, q - p, interval);
      assert t == first + (q - p) * interval;
    }
    forall j: nat | j <= k && t == first + j * interval ensures base < t <= now && Ticks(anchor, interval, t) {
      MulMono(0, j, interval);
      MulMono(j, k, interval);
      Distribute(p, j, interval);
      assert t == anchor + (p + j) * interval;
    }
  }

  lemma {:induction false} Distribute(a: int, b: int, x: int)
    ensures (a + b) * x == a * x + b * x && (a + b + 1) * x == a * x + b * x + x
  {
  }

  /** A downtime beyond the largest duration is under-counted. */
  lemma LongDowntimeIsUndercounted()
    ensures var r := OverdueInterval(0, 60, MAX_DURATION + 60); !Exact(0, 60, MAX_DURATION + 60, r) && r.exact
  {
    IntervalExactly(0, 60, MAX_DURATION + 60);
    assert (MAX_DURATION + 60) / 60 == MAX_DURATION / 60 + 1;
  }
}
