/**
 The whole life of a run's log: a writer that opens, fills, breaks, lists and evicts chunks,
 the archiver's steps in between, a crash of the daemon, and the sweep after it.  Every event
 is one disk or database operation, so the layouts of a run of events are the ones a reader
 can meet.  One invariant holds in all of them, whatever fails.
 */
module LogRun {
  import opened Codec
  import opened LogReader
  import opened Archive
  import opened Growth

  /** The current chunk takes frames, has failed, or is closed; or the writer is gone. */
  datatype Phase = Writing | Broken | Closed | Dead

  /**
   The layout and the writer's own counters: the current chunk, the last sequence number used,
   the one the current chunk starts with and the last one acknowledged.  `want` is history:
   the acknowledged frames of each chunk that was not evicted.
   */
  datatype State = State(
    t: Tiers, phase: Phase, cur: nat, seqno: nat, first: nat, stored: nat, want: map<nat, seq<Frame>>)

  const START := State(NO_CHUNKS, Closed, 0, 0, 1, 0, map[])

  datatype Event =
    // the writer; Tear is a store that failed after k bytes of its frame reached the file
    | Open | Append(frame: Frame) | Tear(frame: Frame, k: nat) | Break
    | Close(indexed: bool, bytes: nat, raw: nat) | EvictOldest(n: nat)
    // the archiver
    | Commit(through: nat, puts: map<nat, Row>, pending: seq<nat>, moves: seq<nat>) | Fallback(ns: set<nat>)
    | Place(n: nat) | Unlink(n: nat) | Strike(n: nat) | Install
    // the daemon stops, and the sweep of the next one
    | Stop | Sweep(below: nat, puts: map<nat, Row>) | DropIndex

  function Want(s: State, n: nat): seq<Frame> { if n in s.want then s.want[n] else [] }

  /** A failed store that left its whole frame in the file. */
  predicate Whole(e: Event) { e.Tear? && e.k == |Encode(e.frame)| }

  ghost predicate WriterEnabled(s: State, e: Event) {
    match e
    case Open => s.phase.Closed? && s.cur + 1 !in s.t.buffer
    case Append(f) => s.phase.Writing? && s.cur in s.t.buffer && Valid(f) && f.sequence == s.seqno + 1
    case Tear(f, k) =>
      s.phase.Writing? && s.cur in s.t.buffer && Valid(f) && f.sequence == s.seqno + 1 && k <= |Encode(f)|
    case Break => s.phase.Writing?
    case Close(_, _, _) => s.phase.Writing? || s.phase.Broken?
    case EvictOldest(n) => !s.phase.Dead? && n in s.t.sealed && forall k | k in s.t.sealed :: n <= k
    case _ => false
  }

  /** The row the sweep gives a buffer file: as the index says, or for what could be salvaged. */
  ghost predicate SweepRow(t: Tiers, n: nat, row: Row) {
    n in t.buffer &&
    var fs := t.buffer[n].frames;
    if n in t.index then row.last == t.index[n].last && (row.Blob? ==> row.blob == t.buffer[n])
    else
      && fs != [] && row.Blob? && row.last == fs[|fs| - 1].sequence
      && row.blob.frames == fs && row.blob.end.Clean? && Faithful(row.blob)
  }

  /** The sweep has dealt with every file below the bound, except those it commits now. */
  ghost predicate Sweepable(t: Tiers, below: nat, puts: map<nat, Row>) {
    && (forall n :: n in puts ==> n < below && SweepRow(t, n, puts[n]))
    && (forall m :: m in t.buffer && m < below && m !in puts ==> Safe(t, m))
  }

  ghost predicate ArchiverEnabled(s: State, e: Event) {
    match e
    case Commit(through, puts, pending, moves) => !s.phase.Dead? && IsGathered(s.t, through, puts, pending, moves)
    case Fallback(ns) => forall n | n in ns :: n in s.t.buffer && n in s.t.rows
    case Place(n) => n in s.t.buffer && n in s.t.rows && s.t.rows[n].File?
    case Unlink(n) => Safe(s.t, n) && (n in s.t.rows || s.phase.Dead?)
    case Strike(n) => n in s.t.rows && n !in s.t.buffer
    case Install => !s.phase.Dead?
    case Stop => true
    case Sweep(below, puts) => s.phase.Dead? && Sweepable(s.t, below, puts)
    case DropIndex => s.phase.Dead?
    case _ => false
  }

  function Blobs(t: Tiers, ns: set<nat>): map<nat, Row> {
    map n | n in ns && n in t.buffer && n in t.rows :: Blob(t.rows[n].first, t.rows[n].last, t.rows[n].raw, t.buffer[n])
  }

  /** The current chunk's file after an append. */
  function Appended(file: Stream, f: Frame): Stream {
    Stream(file.bytes + Encode(f), file.frames + [Micros(f)], Clean)
  }

  ghost function WriterStep(s: State, e: Event): State
    requires WriterEnabled(s, e)
  {
    match e
    case Open =>
      s.(t := Write(s.t, s.cur + 1, NOTHING), phase := Writing, cur := s.cur + 1, first := s.seqno + 1)
    case Append(f) =>
      s.(t := Write(s.t, s.cur, Appended(s.t.buffer[s.cur], f)), seqno := s.seqno + 1, stored := s.seqno + 1,
         want := s.want[s.cur := Want(s, s.cur) + [Micros(f)]])
    case Tear(f, k) =>
      s.(t := Write(s.t, s.cur, Partly(s.t.buffer[s.cur], f, k)), phase := Broken, seqno := s.seqno + 1)
    case Break => s.(phase := Broken)
    case Close(indexed, bytes, raw) =>
      s.(t := if s.stored < s.first then s.t else List(s.t, Meta(s.cur, s.first, s.stored, bytes, raw), indexed),
         phase := Closed)
    case EvictOldest(n) => s.(t := Evict(s.t, n), want := if Archived(s.t, n) then s.want else s.want - {n})
  }

  ghost function ArchiverStep(s: State, e: Event): State
    requires ArchiverEnabled(s, e)
  {
    match e
    case Commit(_, puts, _, _) => s.(t := Put(s.t, puts))
    case Fallback(ns) => s.(t := Put(s.t, Blobs(s.t, ns)))
    case Place(n) => s.(t := Rename(s.t, n))
    case Unlink(n) => s.(t := Drop(s.t, {n}, s.t.index, s.t.sealed))
    case Strike(n) => s.(t := Drop(s.t, {}, s.t.index, s.t.sealed - {n}))
    case Install => s.(t := Drop(s.t, {}, s.t.sealed, s.t.sealed))
    case Stop => s.(t := Crash(s.t), phase := Dead)
    case Sweep(_, puts) => s.(t := Put(s.t, puts))
    case DropIndex => s.(t := Drop(s.t, {}, map[], s.t.sealed))
  }

  /** An event that cannot happen changes nothing. */
  ghost function Step(s: State, e: Event): State {
    if WriterEnabled(s, e) then WriterStep(s, e) else if ArchiverEnabled(s, e) then ArchiverStep(s, e) else s
  }

  ghost function Run(es: seq<Event>): State {
    if es == [] then START else Step(Run(es[..|es| - 1]), es[|es| - 1])
  }

  /** No failed store left its whole frame in the file. */
  predicate Tidy(es: seq<Event>) { forall i :: 0 <= i < |es| ==> !Whole(es[i]) }

  // ---------------------------------------------------------------- the invariant

  /** A record of chunk n ends at x. */
  predicate Ends(t: Tiers, n: nat, x: nat) {
    || (n in t.rows && t.rows[n].last == x)
    || (n in t.index && t.index[n].last == x)
    || (n in t.sealed && t.sealed[n].last == x)
  }

  /** Each chunk starts with its acknowledged frames; more can be there only after a whole failed store. */
  ghost predicate Held(s: State) { forall n: nat :: Want(s, n) <= Content(s.t, n) }

  ghost predicate Exact(s: State) { forall n: nat :: Content(s.t, n) == Want(s, n) }

  /** No record ends before the acknowledged frames of its chunk. */
  ghost predicate Reaching(s: State) { forall n: nat, x: nat :: Ends(s.t, n, x) ==> UpTo(Want(s, n), x) }

  /** Archived chunks precede every acknowledged frame that only the buffer has. */
  ghost predicate Leading(s: State) {
    forall n, m :: n in s.t.rows && m in s.t.buffer && m !in s.t.rows && Want(s, m) != [] ==> n < m
  }

  /** Sequence numbers start at one, and none beyond the writer's has been used. */
  ghost predicate UsedUpTo(t: Tiers, seqno: nat) { forall n: nat, x: nat :: Mark(t, n, x) ==> 1 <= x <= seqno }

  /** No stream is damaged inside; a failed write only tears the end. */
  ghost predicate Undamaged(t: Tiers) {
    && (forall n :: n in t.rows && t.rows[n].Blob? ==> !t.rows[n].blob.end.CorruptEnd?)
    && (forall n :: n in t.archive ==> !t.archive[n].end.CorruptEnd?)
    && (forall n :: n in t.buffer ==> !t.buffer[n].end.CorruptEnd?)
  }

  ghost predicate Layout(s: State) {
    && Sound(s.t) && AllFaithful(s.t) && Undamaged(s.t) && UsedUpTo(s.t, s.seqno)
    && Held(s) && Reaching(s) && Leading(s)
  }

  ghost predicate Numbered(t: Tiers, n: nat) {
    && (forall m :: m in t.rows ==> m <= n) && (forall m :: m in t.index ==> m <= n)
    && (forall m :: m in t.sealed ==> m <= n) && (forall m :: m in t.buffer ==> m <= n)
  }

  /** Every other chunk with acknowledged frames that is not archived is on the list. */
  ghost predicate OthersKnown(s: State, n: nat) {
    forall m :: m in s.t.buffer && m != n && m !in s.t.rows && Want(s, m) != [] ==> m in s.t.sealed
  }

  /** The current chunk's acknowledged frames end with the last one acknowledged. */
  predicate Tail(s: State) {
    && s.cur in s.t.buffer
    && (var w := Want(s, s.cur); if s.stored < s.first then w == [] else w != [] && w[|w| - 1].sequence == s.stored)
    && (s.phase.Writing? ==> s.t.buffer[s.cur].end.Clean? && s.t.buffer[s.cur].frames == Want(s, s.cur))
  }

  ghost predicate Writer(s: State) {
    && s.stored <= s.seqno && 1 <= s.first <= s.seqno + 1
    && match s.phase
       case Writing => Current(s.t, s.cur) && OthersKnown(s, s.cur) && Tail(s)
       case Broken => Current(s.t, s.cur) && OthersKnown(s, s.cur) && Tail(s)
       case Closed => Numbered(s.t, s.cur) && OthersKnown(s, s.cur + 1)
       case Dead => Numbered(s.t, s.cur) && s.t.sealed == map[]
  }

  ghost predicate Proper(s: State) { Layout(s) && Writer(s) }

  lemma Begins()
    ensures Proper(START) && Exact(START)
  {
    StartsWell();
  }

  lemma {:induction false} LayoutParts(s: State)
    requires Layout(s)
    ensures Sound(s.t) && AllFaithful(s.t) && Undamaged(s.t) && Agree(s.t)
  {
    SoundParts(s.t, 0);
    hide Sound, AllFaithful, Undamaged, Agree, Held, Reaching, Leading, UsedUpTo;
  }

  // ---------------------------------------------------------------- the archiver's steps

  /** Records of u were records of t, or end with the frames they are about. */
  ghost predicate EndsStay(t: Tiers, u: Tiers) {
    forall n: nat, x: nat :: Ends(u, n, x) ==> Ends(t, n, x) || (Mark(t, n, x) && UpTo(Content(t, n), x))
  }

  lemma {:induction false} EndsMarks(t: Tiers, u: Tiers)
    requires Same(t, u) && EndsStay(t, u)
    ensures MarksStay(t, u)
  {
    hide Stored;
    forall n: nat, x: nat | Mark(u, n, x) ensures Mark(t, n, x) {
      assert Content(u, n) == Content(t, n);
      assert Ends(u, n, x) || exists i :: 0 <= i < |Content(t, n)| && Content(t, n)[i].sequence == x;
    }
  }

  lemma {:induction false} StillReaching(s: State, u: Tiers)
    requires Held(s) && Reaching(s) && EndsStay(s.t, u)
    ensures Reaching(s.(t := u))
  {
    hide Ends, Mark, Content;
    forall n: nat, x: nat | Ends(u, n, x) ensures UpTo(Want(s, n), x) {
      assert Want(s, n) <= Content(s.t, n);
    }
  }

  /** A step that keeps every chunk's frames and says nothing untrue in its records. */
  lemma {:induction false} LayoutStays(s: State, u: Tiers)
    requires Layout(s) && Agree(u) && AllFaithful(u) && Undamaged(u) && Same(s.t, u) && EndsStay(s.t, u)
    requires Leading(s.(t := u))
    ensures Layout(s.(t := u)) && (Exact(s) ==> Exact(s.(t := u)))
  {
    hide Sound, AllFaithful, Undamaged, Agree, Reaching, Leading, EndsStay, Mark, Content;
    EndsMarks(s.t, u);
    SoundStays(s.t, u);
    StillReaching(s, u);
  }

  /** What a step does to the writer's view: rows come from its list, files and list entries only go. */
  ghost predicate Shifts(s: State, u: Tiers) {
    && (forall n :: n in u.rows ==> n in s.t.rows || n in s.t.sealed || (s.phase.Dead? && n in s.t.buffer))
    && (forall n :: n in s.t.rows ==> n in u.rows)
    && (forall n :: n in u.buffer ==> n in s.t.buffer && u.buffer[n] == s.t.buffer[n])
    && (forall n :: n in u.index ==> n in s.t.index || n in s.t.sealed)
    && (forall n :: n in u.sealed ==> n in s.t.sealed)
    && (forall n :: n in s.t.sealed ==> n in u.sealed || n in u.rows)
    && (s.cur in s.t.buffer && s.cur !in s.t.rows && !s.phase.Dead? ==> s.cur in u.buffer)
  }

  lemma {:induction false} WriterStays(s: State, u: Tiers)
    requires Writer(s) && Shifts(s, u)
    ensures Writer(s.(t := u))
  {
    hide OthersKnown, Tail, Current, Numbered, Shifts, Want;
    ShiftsKnown(s, u, s.cur);
    ShiftsKnown(s, u, s.cur + 1);
    if s.phase.Writing? || s.phase.Broken? { ShiftsCurrent(s, u); } else { ShiftsNumbered(s, u); }
  }

  lemma {:induction false} ShiftsKnown(s: State, u: Tiers, n: nat)
    requires Shifts(s, u)
    ensures OthersKnown(s, n) ==> OthersKnown(s.(t := u), n)
  {
    assert forall m: nat :: Want(s.(t := u), m) == Want(s, m);
    hide Want;
  }

  lemma {:induction false} ShiftsCurrent(s: State, u: Tiers)
    requires Shifts(s, u) && !s.phase.Dead? && Current(s.t, s.cur) && Tail(s)
    ensures Current(u, s.cur) && Tail(s.(t := u))
  {
  }

  lemma {:induction false} ShiftsNumbered(s: State, u: Tiers)
    requires Shifts(s, u) && Numbered(s.t, s.cur)
    ensures Numbered(u, s.cur) && (s.t.sealed == map[] ==> u.sealed == map[])
  {
  }

  /** A blob is the chunk's file or a fresh encoding of its frames. */
  predicate Copies(puts: map<nat, Row>) {
    forall n :: n in puts && puts[n].Blob? ==> !puts[n].blob.end.CorruptEnd?
  }

  /** The rows end where a record of their chunk ends or with its frames, and leave no acknowledged frame behind. */
  ghost predicate Lawful(s: State, puts: map<nat, Row>) {
    && Fills(s.t, puts) && Copies(puts)
    && (forall n :: n in puts ==>
          var x := puts[n].last; Ends(s.t, n, x) || (Mark(s.t, n, x) && UpTo(Content(s.t, n), x)))
    && (forall n, m :: n in puts && m in s.t.buffer && m !in s.t.rows && m !in puts && Want(s, m) != [] ==> n < m)
    && (forall n :: n in puts ==> n in s.t.rows || n in s.t.sealed || s.phase.Dead?)
  }

  lemma {:induction false} PutProper(s: State, puts: map<nat, Row>)
    requires Proper(s) && Lawful(s, puts)
    ensures Proper(s.(t := Put(s.t, puts))) && (Exact(s) ==> Exact(s.(t := Put(s.t, puts))))
  {
    hide Layout, Writer, Sound, AllFaithful, Undamaged, Agree, Same, Lawful, EndsStay, Leading, Shifts, Exact, Put;
    LayoutParts(s);
    LawfulPut(s, puts);
    LawfulFills(s, puts);
    PutAgrees(s.t, puts);
    PutFaithful(s.t, puts);
    LayoutStays(s, Put(s.t, puts));
    WriterStays(s, Put(s.t, puts));
  }

  lemma {:induction false} LawfulFills(s: State, puts: map<nat, Row>)
    requires Lawful(s, puts)
    ensures Fills(s.t, puts)
  {
    hide Fills, Copies, Mark, Ends, UpTo, Content;
  }

  lemma {:induction false} LawfulPut(s: State, puts: map<nat, Row>)
    requires Layout(s) && Lawful(s, puts)
    ensures var u := Put(s.t, puts);
            Undamaged(u) && EndsStay(s.t, u) && Leading(s.(t := u)) && Shifts(s, u)
  {
    hide Sound, AllFaithful, UsedUpTo, Held, Reaching, Mark, UpTo, Content, Faithful;
  }

  lemma {:induction false} CommitLawful(s: State, e: Event)
    requires Proper(s) && e.Commit? && ArchiverEnabled(s, e)
    ensures Lawful(s, e.puts)
  {
    hide Sound, UsedUpTo, Held, Reaching, WithinLimits, Mark, UpTo, Leading, Layout;
    LayoutParts(s);
    var bound :| 0 <= bound <= e.through + 1 && Gathered(s.t, bound, e.puts);
    CommitFills(s.t, bound, e.puts);
    forall n, m | n in e.puts && m in s.t.buffer && m !in s.t.rows && m !in e.puts && Want(s, m) != []
      ensures n < m
    {
      hide Faithful, Content, AllFaithful, Undamaged, Agree, Fills;
    }
    hide AllFaithful, Agree, Fills, Content;
  }

  lemma {:induction false} CommitFills(t: Tiers, bound: nat, puts: map<nat, Row>)
    requires AllFaithful(t) && Agree(t) && Gathered(t, bound, puts)
    ensures Fills(t, puts)
  {
    hide Faithful;
  }

  lemma {:induction false} FallbackLawful(s: State, ns: set<nat>)
    requires Proper(s) && ArchiverEnabled(s, Fallback(ns))
    ensures Lawful(s, Blobs(s.t, ns))
  {
    hide Sound, UsedUpTo, Held, Reaching, Mark, UpTo, Faithful, Layout, Writer;
    LayoutParts(s);
    assert Fills(s.t, Blobs(s.t, ns));
    hide Fills, Agree, AllFaithful, Content;
    LayoutLeads(s);
  }

  lemma {:induction false} LayoutLeads(s: State)
    requires Layout(s)
    ensures Leading(s)
  {
    hide Sound, AllFaithful, Undamaged, UsedUpTo, Held, Reaching, Leading;
  }

  lemma {:induction false} SweepLawful(s: State, below: nat, puts: map<nat, Row>)
    requires Proper(s) && ArchiverEnabled(s, Sweep(below, puts))
    ensures Lawful(s, puts)
  {
    hide Layout, Writer, Sound, Agree, AllFaithful, Undamaged, Mark, UpTo, Ends, Safe, SweepRow, Content, Faithful;
    LayoutParts(s);
    forall n | n in puts
      ensures var x := puts[n].last; Ends(s.t, n, x) || (Mark(s.t, n, x) && UpTo(Content(s.t, n), x))
      ensures puts[n].Blob? ==>
                puts[n].blob.frames == Content(s.t, n) && Faithful(puts[n].blob) && !puts[n].blob.end.CorruptEnd?
      ensures n in s.t.buffer
    {
      SweptRow(s.t, n, puts[n]);
    }
    forall m | m in s.t.buffer && m < below && m !in puts && m !in s.t.rows ensures Want(s, m) == [] {
      SafeIsEmpty(s, m);
    }
  }

  lemma {:induction false} SafeIsEmpty(s: State, m: nat)
    requires Layout(s) && Safe(s.t, m) && m !in s.t.rows
    ensures Want(s, m) == []
  {
    hide Sound, AllFaithful, Undamaged, UsedUpTo, Reaching, Leading, Content;
    assert Want(s, m) <= Content(s.t, m);
  }

  lemma {:induction false} SweptRow(t: Tiers, n: nat, row: Row)
    requires Sound(t) && AllFaithful(t) && Undamaged(t) && SweepRow(t, n, row)
    ensures Ends(t, n, row.last) || (Mark(t, n, row.last) && UpTo(Content(t, n), row.last))
    ensures row.Blob? ==> row.blob.frames == Content(t, n) && Faithful(row.blob) && !row.blob.end.CorruptEnd?
    ensures n in t.buffer
  {
    hide Sound, Faithful;
    SoundParts(t, n);
    var fs := t.buffer[n].frames;
    assert Content(t, n) == fs;
    if n !in t.index {
      hide Agree, Stored, AllFaithful, Undamaged;
      assert fs[|fs| - 1].sequence == Content(t, n)[|fs| - 1].sequence;
    }
  }

  lemma {:induction false} MoveProper(s: State, u: Tiers)
    requires Proper(s) && Moved(s.t, u) && Same(s.t, u) && Shifts(s, u)
    ensures Proper(s.(t := u)) && (Exact(s) ==> Exact(s.(t := u)))
  {
    hide Layout, Writer, Sound, AllFaithful, Undamaged, Agree, Same, EndsStay, Leading, Shifts, Exact, Moved;
    LayoutParts(s);
    LayoutLeads(s);
    MovedMore(s, u);
    MovedAgrees(s.t, u);
    MovedFaithful(s.t, u);
    LayoutStays(s, u);
    WriterStays(s, u);
  }

  lemma {:induction false} MovedMore(s: State, u: Tiers)
    requires Moved(s.t, u) && Undamaged(s.t) && Leading(s)
    ensures Undamaged(u) && EndsStay(s.t, u) && Leading(s.(t := u))
  {
    hide Mark, UpTo, Content;
  }

  lemma {:induction false} DropProper(s: State, gone: set<nat>, index: map<nat, Meta>, sealed: map<nat, Meta>)
    requires Proper(s) && Droppable(s.t, gone, index, sealed) && Shifts(s, Drop(s.t, gone, index, sealed))
    ensures var u := s.(t := Drop(s.t, gone, index, sealed)); Proper(u) && (Exact(s) ==> Exact(u))
  {
    hide Proper, Shifts, Drop, Droppable, Exact;
    DropSame(s.t, gone, index, sealed);
    MoveProper(s, Drop(s.t, gone, index, sealed));
  }

  lemma {:induction false} PlaceProper(s: State, n: nat)
    requires Proper(s) && ArchiverEnabled(s, Place(n))
    ensures var u := ArchiverStep(s, Place(n)); Proper(u) && (Exact(s) ==> Exact(u))
  {
    hide Layout, Sound, AllFaithful, Undamaged, Agree, Same, Moved, Exact;
    LayoutParts(s);
    RenameSame(s.t, n);
    MoveProper(s, Rename(s.t, n));
  }

  lemma {:induction false} StopProper(s: State)
    requires Proper(s)
    ensures var u := ArchiverStep(s, Stop); Proper(u) && (Exact(s) ==> Exact(u))
  {
    hide Layout, Sound, AllFaithful, Undamaged, Agree, Same, Moved, EndsStay, Leading, Content;
    var u := Crash(s.t);
    LayoutParts(s);
    LayoutLeads(s);
    CrashMoved(s.t);
    MovedMore(s, u);
    MovedAgrees(s.t, u);
    MovedFaithful(s.t, u);
    LayoutStays(s, u);
    LayoutPhase(s.(t := u), Dead);
  }

  lemma {:induction false} CrashMoved(t: Tiers)
    ensures Moved(t, Crash(t)) && Same(t, Crash(t))
  {
    forall m: nat ensures Content(Crash(t), m) == Content(t, m) { }
  }

  lemma {:induction false} LayoutPhase(s: State, phase: Phase)
    requires Layout(s)
    ensures Layout(s.(phase := phase)) && (Exact(s) ==> Exact(s.(phase := phase)))
  {
    hide Sound, AllFaithful, Undamaged, UsedUpTo, Content, Ends;
  }

  lemma {:induction false} UnlinkProper(s: State, n: nat)
    requires Proper(s) && ArchiverEnabled(s, Unlink(n))
    ensures var u := ArchiverStep(s, Unlink(n)); Proper(u) && (Exact(s) ==> Exact(u))
  {
    hide Proper, Safe, Exact;
    DropProper(s, {n}, s.t.index, s.t.sealed);
  }

  /** Every archiver, crash and sweep step, between any two writer steps, keeps the layout proper. */
  lemma {:induction false} ArchiverProper(s: State, e: Event)
    requires Proper(s) && ArchiverEnabled(s, e)
    ensures Proper(ArchiverStep(s, e)) && (Exact(s) ==> Exact(ArchiverStep(s, e)))
  {
    hide Proper, Safe, IsGathered, Sweepable, Content, Exact, Lawful;
    match e
    case Commit(_, puts, _, _) => CommitLawful(s, e); PutProper(s, puts);
    case Fallback(ns) => FallbackLawful(s, ns); PutProper(s, Blobs(s.t, ns));
    case Place(n) => PlaceProper(s, n);
    case Unlink(n) => UnlinkProper(s, n);
    case Strike(n) => DropProper(s, {}, s.t.index, s.t.sealed - {n});
    case Install => DropProper(s, {}, s.t.sealed, s.t.sealed);
    case Stop => StopProper(s);
    case Sweep(below, puts) => SweepLawful(s, below, puts); PutProper(s, puts);
    case DropIndex => DropProper(s, {}, map[], s.t.sealed);
  }

  // ---------------------------------------------------------------- the writer's steps

  lemma {:induction false} WriteMarked(t: Tiers, n: nat, st: Stream, seqno: nat)
    requires Agree(t) && Current(t, n) && UsedUpTo(t, seqno)
    requires forall i :: 0 <= i < |st.frames| ==> 1 <= st.frames[i].sequence <= seqno
    ensures UsedUpTo(Write(t, n, st), seqno)
  {
    WriteMarks(t, n, st);
    hide Mark, Agree, Current, Stored, Write;
    var u := Write(t, n, st);
    forall m: nat, x: nat | Mark(u, m, x) ensures 1 <= x <= seqno { }
  }

  /** Giving the current chunk new content of its own, no newer than the counter. */
  lemma {:induction false} WriteLayout(s: State, n: nat, st: Stream, more: seq<Frame>, seqno: nat, want: map<nat,
        seq<Frame>>)
    requires Layout(s) && Current(s.t, n) && Kept(s.t, Write(s.t, n, st), n, more, n + 1) && !st.end.CorruptEnd?
    requires s.seqno <= seqno && st.frames == Content(s.t, n) + more
    requires forall i :: 0 <= i < |more| ==> 1 <= more[i].sequence <= seqno
    requires Want(s.(want := want), n) <= st.frames
    requires forall m: nat :: m != n ==> Want(s.(want := want), m) == Want(s, m)
    ensures Layout(s.(t := Write(s.t, n, st), seqno := seqno, want := want))
    ensures Exact(s) && Want(s.(want := want), n) == st.frames ==>
              Exact(s.(t := Write(s.t, n, st), seqno := seqno, want := want))
  {
    hide Sound, AllFaithful, Mark, Agree, Inv, OthersListed, Covered, Content, Logical, Current, UpTo, Ends, Undamaged;
    hide UsedUpTo, Leading, Reaching, Write;
    var u := Write(s.t, n, st);
    var v := s.(t := u, seqno := seqno, want := want);
    LayoutParts(s);
    FramesUsed(s, n);
    UsedMore(s, seqno);
    WriteMarked(s.t, n, st, seqno);
    WriteRest(s, n, st, seqno, want);
    forall m: nat ensures Want(v, m) <= Content(u, m) { }
  }

  lemma {:induction false} UsedMore(s: State, seqno: nat)
    requires Layout(s) && s.seqno <= seqno
    ensures UsedUpTo(s.t, seqno)
  {
    hide Sound, AllFaithful, Undamaged, Held, Reaching, Leading, Mark;
  }

  /** The current chunk has no record, and every archived chunk precedes it. */
  lemma {:induction false} WriteRest(s: State, n: nat, st: Stream, seqno: nat, want: map<nat, seq<Frame>>)
    requires Layout(s) && Current(s.t, n) && !st.end.CorruptEnd?
    requires forall m: nat :: m != n ==> Want(s.(want := want), m) == Want(s, m)
    ensures var v := s.(t := Write(s.t, n, st), seqno := seqno, want := want);
            Undamaged(v.t) && Reaching(v) && Leading(v)
  {
    hide Sound, AllFaithful, UsedUpTo, Held, UpTo, Content;
    var v := s.(t := Write(s.t, n, st), seqno := seqno, want := want);
    assert forall m: nat :: m != n ==> Want(v, m) == Want(s, m);
    hide Want;
    forall m: nat, x: nat | Ends(v.t, m, x) ensures UpTo(Want(v, m), x) { assert Ends(s.t, m, x) && m != n; }
    hide Ends, Reaching;
  }

  lemma {:induction false} FramesUsed(s: State, n: nat)
    requires Layout(s)
    ensures forall i :: 0 <= i < |Content(s.t, n)| ==> 1 <= Content(s.t, n)[i].sequence <= s.seqno
  {
    hide Sound, AllFaithful, Undamaged, Held, Reaching, Leading;
    forall i | 0 <= i < |Content(s.t, n)| ensures 1 <= Content(s.t, n)[i].sequence <= s.seqno {
      MarkOf(s.t, n, i);
    }
  }

  lemma {:induction false} MarkOf(t: Tiers, n: nat, i: nat)
    requires i < |Content(t, n)|
    ensures Mark(t, n, Content(t, n)[i].sequence)
  {
    hide Stored;
  }

  lemma {:induction false} LayoutCounters(s: State, phase: Phase, cur: nat, first: nat, stored: nat)
    requires Layout(s)
    ensures var u := s.(phase := phase, cur := cur, first := first, stored := stored);
            Layout(u) && (Exact(s) ==> Exact(u))
  {
    hide Sound, AllFaithful, Undamaged, UsedUpTo, Content, Ends;
  }

  lemma {:induction false} OpenProper(s: State)
    requires Proper(s) && WriterEnabled(s, Open)
    ensures var u := WriterStep(s, Open); Proper(u) && (Exact(s) ==> Exact(u))
  {
    hide Layout, Sound, AllFaithful, Undamaged, Agree, Content, Kept, Exact;
    var n := s.cur + 1;
    LayoutParts(s);
    NothingYet(s, n);
    OpenKeeps(s.t, n, n + 1);
    WriteLayout(s, n, NOTHING, [], s.seqno, s.want);
    LayoutCounters(s.(t := Write(s.t, n, NOTHING)), Writing, n, s.seqno + 1, s.stored);
  }

  lemma {:induction false} NothingYet(s: State, n: nat)
    requires Layout(s) && n > 0 && Numbered(s.t, n - 1)
    ensures Current(s.t, n) && Want(s, n) == [] && Content(s.t, n) == [] && n !in s.t.buffer
  {
    hide Sound, AllFaithful, Undamaged, UsedUpTo, Reaching, Leading;
  }

  lemma {:induction false} NewerThanAll(s: State, f: Frame)
    requires Layout(s) && f.sequence > s.seqno
    ensures forall m: nat, x: nat :: Mark(s.t, m, x) ==> x < f.sequence
  {
    hide Sound, Mark, AllFaithful, Undamaged, Held, Reaching, Leading;
  }

  /** The current chunk, while it takes frames, holds exactly its acknowledged ones. */
  lemma {:induction false} WritingChunk(s: State)
    requires Proper(s) && s.phase.Writing?
    ensures s.cur in s.t.buffer && Current(s.t, s.cur) && s.t.buffer[s.cur].end.Clean?
    ensures s.t.buffer[s.cur].frames == Want(s, s.cur) == Content(s.t, s.cur)
  {
    hide Layout, Current, OthersKnown, Sound, AllFaithful, Undamaged, Agree, Content, Unused;
    LayoutParts(s);
    CurrentFrames(s.t, s.cur);
  }

  lemma {:induction false} AppendProper(s: State, f: Frame)
    requires Proper(s) && WriterEnabled(s, Append(f))
    ensures var u := WriterStep(s, Append(f)); Proper(u) && (Exact(s) ==> Exact(u))
  {
    hide Layout, Writer, Sound, AllFaithful, Undamaged, Agree, Content, Kept, Current, Mark, Encode, Valid, Exact;
    var st := Appended(s.t.buffer[s.cur], f);
    var want := s.want[s.cur := Want(s, s.cur) + [Micros(f)]];
    LayoutParts(s);
    WritingChunk(s);
    NewerThanAll(s, f);
    AppendKeeps(s.t, s.cur, f, s.cur + 1);
    WriteLayout(s, s.cur, st, [Micros(f)], s.seqno + 1, want);
    LayoutCounters(s.(t := Write(s.t, s.cur, st), seqno := s.seqno + 1, want := want),
                   Writing, s.cur, s.first, s.seqno + 1);
    AppendWriter(s, f);
  }

  lemma {:induction false} AppendWriter(s: State, f: Frame)
    requires Proper(s) && WriterEnabled(s, Append(f)) && s.t.buffer[s.cur].frames == Want(s, s.cur)
    ensures Writer(WriterStep(s, Append(f)))
  {
    hide Layout, Encode, Valid;
  }

  lemma {:induction false} TearProper(s: State, f: Frame, k: nat)
    requires Proper(s) && WriterEnabled(s, Tear(f, k))
    ensures var u := WriterStep(s, Tear(f, k)); Proper(u) && (Exact(s) && !Whole(Tear(f, k)) ==> Exact(u))
  {
    hide Layout, Writer, Sound, AllFaithful, Undamaged, Agree, Content, Kept, Current, Mark, Encode, Valid, Exact;
    var st := Partly(s.t.buffer[s.cur], f, k);
    var more := if k == |Encode(f)| then [Micros(f)] else [];
    LayoutParts(s);
    WritingChunk(s);
    NewerThanAll(s, f);
    TornKeeps(s.t, s.cur, f, k, s.cur + 1);
    PartlyFrames(s.t.buffer[s.cur], f, k);
    WriteLayout(s, s.cur, st, more, s.seqno + 1, s.want);
    LayoutCounters(s.(t := Write(s.t, s.cur, st), seqno := s.seqno + 1), Broken, s.cur, s.first, s.stored);
    TearWriter(s, f, k);
  }

  lemma {:induction false} PartlyFrames(file: Stream, f: Frame, k: nat)
    requires k <= |Encode(f)| && file.end.Clean?
    ensures var st := Partly(file, f, k);
            st.frames == file.frames + (if k == |Encode(f)| then [Micros(f)] else []) && !st.end.CorruptEnd?
  {
    EncodeSize(f);
    hide Encode;
  }

  lemma {:induction false} TearWriter(s: State, f: Frame, k: nat)
    requires Proper(s) && WriterEnabled(s, Tear(f, k))
    ensures Writer(WriterStep(s, Tear(f, k)))
  {
    hide Layout, Encode, Valid, Partly;
  }

  lemma {:induction false} CloseProper(s: State, e: Event)
    requires Proper(s) && e.Close? && WriterEnabled(s, e)
    ensures var u := WriterStep(s, e); Proper(u) && (Exact(s) ==> Exact(u))
  {
    hide Layout, Exact, Sound;
    if s.stored < s.first {
      LayoutPhase(s, Closed);
    } else {
      var m := Meta(s.cur, s.first, s.stored, e.bytes, e.raw);
      ListLayout(s, m, e.indexed);
      LayoutPhase(s.(t := List(s.t, m, e.indexed)), Closed);
    }
  }

  lemma {:induction false} ListLayout(s: State, m: Meta, indexed: bool)
    requires Layout(s) && Current(s.t, m.number)
    requires var w := Want(s, m.number); w != [] && w[|w| - 1].sequence == m.last
    ensures Layout(s.(t := List(s.t, m, indexed))) && (Exact(s) ==> Exact(s.(t := List(s.t, m, indexed))))
  {
    hide Sound, AllFaithful, Agree, Inv, OthersListed, Covered, Content, Mark, Increasing, Current;
    var u := List(s.t, m, indexed);
    var w := Want(s, m.number);
    SoundParts(s.t, m.number);
    WantMarks(s, m.number, |w| - 1);
    ListKeeps(s.t, m, indexed);
    LastIsGreatest(w);
    assert Undamaged(u) && UsedUpTo(u, s.seqno);
    forall n: nat, x: nat | Ends(u, n, x) ensures UpTo(Want(s, n), x) {
      assert Ends(s.t, n, x) || (n == m.number && x == m.last);
    }
    hide UpTo, Undamaged, UsedUpTo;
  }

  lemma {:induction false} LastIsGreatest(fs: seq<Frame>)
    requires Increasing(fs) && fs != []
    ensures UpTo(fs, fs[|fs| - 1].sequence)
  {
  }

  /** An acknowledged frame of a chunk is one of its numbers, and they are in order. */
  lemma {:induction false} WantMarks(s: State, n: nat, i: nat)
    requires Layout(s) && i < |Want(s, n)|
    ensures Mark(s.t, n, Want(s, n)[i].sequence) && Increasing(Want(s, n))
  {
    hide Sound, AllFaithful, Undamaged, UsedUpTo, Reaching, Leading, Content;
    SoundParts(s.t, n);
    assert Want(s, n) <= Content(s.t, n);
    MarkOf(s.t, n, i);
  }

  lemma {:induction false} EvictProper(s: State, n: nat)
    requires Proper(s) && WriterEnabled(s, EvictOldest(n))
    ensures var u := WriterStep(s, EvictOldest(n)); Proper(u) && (Exact(s) ==> Exact(u))
  {
    hide Sound, AllFaithful, Agree, Inv, Covered, Content, Mark, Writer, Archived;
    var u := WriterStep(s, EvictOldest(n));
    EvictKeeps(s.t, n);
    EvictedWriter(s, n);
    assert Undamaged(u.t) && UsedUpTo(u.t, u.seqno);
    forall m: nat ensures Want(u, m) <= Content(u.t, m) { }
    forall m: nat, x: nat | Ends(u.t, m, x) ensures UpTo(Want(u, m), x) { assert Ends(s.t, m, x); }
    assert Leading(u);
    hide UpTo, Undamaged, UsedUpTo;
  }

  lemma {:induction false} EvictedWriter(s: State, n: nat)
    requires Proper(s) && WriterEnabled(s, EvictOldest(n))
    ensures Writer(WriterStep(s, EvictOldest(n)))
  {
    hide Layout, Archived;
  }

  /** Every writer step keeps the layout proper; only a whole failed store adds an unacknowledged frame. */
  lemma {:induction false} WriterProper(s: State, e: Event)
    requires Proper(s) && WriterEnabled(s, e)
    ensures Proper(WriterStep(s, e)) && (Exact(s) && !Whole(e) ==> Exact(WriterStep(s, e)))
  {
    hide Layout, Content, Encode, Exact;
    match e
    case Open => OpenProper(s);
    case Append(f) => AppendProper(s, f);
    case Tear(f, k) => TearProper(s, f, k);
    case Break => LayoutPhase(s, Broken);
    case Close(_, _, _) => CloseProper(s, e);
    case EvictOldest(n) => EvictProper(s, n);
  }

  // ---------------------------------------------------------------- every run

  /** With nothing but acknowledged frames in the chunks, the layout is good for the archiver and every reader. */
  lemma {:induction false} ExactIsGood(s: State)
    requires Proper(s) && Exact(s)
    ensures Inv(s.t) && Covered(s.t)
  {
    assert Bounded(s.t) by {
      hide Sound, AllFaithful, Undamaged, UsedUpTo, Leading, Writer, Content, UpTo;
      forall n | n in s.t.rows ensures UpTo(Content(s.t, n), s.t.rows[n].last) {
        assert Ends(s.t, n, s.t.rows[n].last);
      }
      forall n | n in s.t.index ensures UpTo(Content(s.t, n), s.t.index[n].last) {
        assert Ends(s.t, n, s.t.index[n].last);
      }
      forall n | n in s.t.sealed ensures UpTo(Content(s.t, n), s.t.sealed[n].last) {
        assert Ends(s.t, n, s.t.sealed[n].last);
      }
    }
    assert RowsFirst(s.t) && Covered(s.t) by {
      hide Sound, AllFaithful, Undamaged, UsedUpTo, Reaching, Bounded;
      assert forall n: nat :: Content(s.t, n) == Want(s, n);
      hide Content;
    }
    InvIsSound(s.t);
    hide Sound, Inv, Bounded, RowsFirst;
  }

  /**
   Every layout of every run from an empty log is proper; if no failed store left its whole
   frame, it holds exactly what was acknowledged and not evicted.
   */
  lemma {:induction false} EveryLayoutIsProper(es: seq<Event>)
    ensures Proper(Run(es))
    ensures Tidy(es) ==> Exact(Run(es)) && Inv(Run(es).t) && Covered(Run(es).t)
  {
    hide Proper, WriterEnabled, ArchiverEnabled, Covered, Exact, Inv, Whole;
    if es == [] {
      Begins();
    } else {
      EveryLayoutIsProper(es[..|es| - 1]);
      var s, e := Run(es[..|es| - 1]), es[|es| - 1];
      if WriterEnabled(s, e) {
        WriterProper(s, e);
      } else if ArchiverEnabled(s, e) {
        ArchiverProper(s, e);
      }
    }
    if Tidy(es) { ExactIsGood(Run(es)); }
  }

  // ---------------------------------------------------------------- the writer is never stuck

  /** In every reachable layout the writer can do what its phase calls for, and it takes effect. */
  lemma {:induction false} WriterGoesOn(es: seq<Event>, f: Frame, indexed: bool, bytes: nat, raw: nat)
    ensures var s := Run(es);
            && (s.phase.Closed? ==>
                  var u := Step(s, Open);
                  u.phase.Writing? && u.cur == s.cur + 1 && u.cur in u.t.buffer && u.t.buffer[u.cur].frames == [])
            && (s.phase.Writing? && Valid(f) && f.sequence == s.seqno + 1 ==>
                  var u := Step(s, Append(f));
                  u.stored == f.sequence && Want(u, u.cur) == Want(s, s.cur) + [Micros(f)])
            && (s.phase.Writing? || s.phase.Broken? ==>
                  var u := Step(s, Close(indexed, bytes, raw));
                  u.phase.Closed? && (s.first <= s.stored ==> s.cur in u.t.sealed && (indexed ==> s.cur in u.t.index)))
  {
    EveryLayoutIsProper(es);
    hide Run, Layout, Encode;
  }

  /** As long as there is a writer it can evict the oldest chunk on its list, file and entry. */
  lemma {:induction false} OldestCanGo(s: State, n: nat)
    requires !s.phase.Dead? && n in s.t.sealed && forall k :: k in s.t.sealed ==> n <= k
    ensures var u := Step(s, EvictOldest(n));
            u.t.buffer == s.t.buffer - {n} && u.t.sealed == s.t.sealed - {n} && u.t.rows == s.t.rows
  {
    assert forall k | k in s.t.sealed :: n <= k;
  }
}
