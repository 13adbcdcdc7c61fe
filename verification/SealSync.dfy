/**
 Deferred durability of sealed chunks.  A seal may leave its fsync to a shared pass, and
 the archiver may move the file while that pass runs.  Each event is one step of the
 sealer, of the pass, or of the archiver; a run is any interleaving of them.
 */
module SealSync {
  datatype Place = Buffer | Archive | Removed

  /** A chunk file's path: which chunk, in which directory. */
  datatype Path = Path(chunk: nat, place: Place)

  /** One file of the running pass: not opened yet, open, or only to be crossed off. */
  datatype Entry = Waiting(path: Path) | Opened(path: Path) | Handled(path: Path)

  datatype Row = File | Blob

  /** A file move of the archiver: classified, then committed; queued as classifyMoves saw it. */
  datatype Move = Classified(queued: bool) | Committed(queued: bool)

  datatype State = State(
    files: map<nat, Place>,
    own: set<nat>,          // chunks this process sealed
    durable: set<nat>,      // chunks whose bytes were fsynced
    queue: set<Path>,       // deferred seals waiting for a pass
    unsynced: set<Path>,    // the paths the archiver consults
    pass: set<Entry>,
    rows: map<nat, Row>,
    moves: map<nat, Move>)

  datatype Event =
    | SealNow(chunk: nat) | SealLater(chunk: nat)
    | PassBegin | PassOpen(path: Path) | PassSync(path: Path) | PassForget(path: Path)
    | Classify(chunk: nat, looksOld: bool) | Commit(chunk: nat) | Rename(chunk: nat) | GiveUp(chunk: nat)
    | StoreBlob(chunk: nat) | Unlink(chunk: nat) | Evict(chunk: nat)

  predicate At(s: State, c: nat, p: Place) { c in s.files && s.files[c] == p }

  function PathOf(s: State, c: nat): Path
    requires c in s.files
  {
    Path(c, s.files[c])
  }

  function Step(s: State, e: Event): State {
    match e
    case SealNow(c) =>
      if c in s.files then s else s.(files := s.files[c := Buffer], own := s.own + {c}, durable := s.durable + {c})
    case SealLater(c) =>
      if c in s.files then s
      else s.(files := s.files[c := Buffer], own := s.own + {c}, queue := s.queue + {Path(c, Buffer)},
          unsynced := s.unsynced + {Path(c, Buffer)})
    case PassBegin =>
      if s.pass != {} then s else s.(pass := set p | p in s.queue :: Waiting(p), queue := {})
    case PassOpen(p) =>
      if Waiting(p) !in s.pass then s
      else s.(pass := s.pass - {Waiting(p)} + {if At(s, p.chunk, p.place) then Opened(p) else Handled(p)})
    case PassSync(p) => // the handle stays on the chunk even if the file was moved meanwhile
      if Opened(p) !in s.pass then s
      else s.(pass := s.pass - {Opened(p)} + {Handled(p)}, durable := s.durable + {p.chunk})
    case PassForget(p) =>
      if Handled(p) !in s.pass then s else s.(pass := s.pass - {Handled(p)}, unsynced := s.unsynced - {p})
    case Classify(c, looksOld) =>
      if !At(s, c, Buffer) || c in s.moves then s
      else if Path(c, Buffer) in s.unsynced then s.(moves := s.moves[c := Classified(true)])
      else if looksOld || c !in s.own then s.(moves := s.moves[c := Classified(false)], durable := s.durable + {c})
      else s.(moves := s.moves[c := Classified(false)])
    case Commit(c) =>
      if c !in s.moves || !s.moves[c].Classified? then s
      else s.(rows := s.rows[c := File], moves := s.moves[c := Committed(s.moves[c].queued)])
    case Rename(c) =>
      if c !in s.moves || !s.moves[c].Committed? then s
      else if !s.moves[c].queued then s.(files := s.files[c := Archive], moves := s.moves - {c})
      else s.(files := s.files[c := Archive], moves := s.moves - {c},
              unsynced := s.unsynced - {Path(c, Buffer)} + {Path(c, Archive)}, queue := s.queue + {Path(c, Archive)})
    case GiveUp(c) => s.(moves := s.moves - {c})
    case StoreBlob(c) => // a small chunk, or the fallback after a failed rename
      if !At(s, c, Buffer) || (c in s.moves && s.moves[c].Classified?) then s
      else s.(rows := s.rows[c := Blob], moves := s.moves - {c})
    case Unlink(c) =>
      if At(s, c, Buffer) && c in s.rows && s.rows[c].Blob? && c !in s.moves then s.(files := s.files[c := Removed])
          else s
    case Evict(c) => // the log is full: the file goes even if its row is committed
      if At(s, c, Buffer) then s.(files := s.files[c := Removed], moves := s.moves - {c}) else s
  }

  /** A process that just started: nothing is its own, and rows of the past are on disk. */
  ghost predicate Begin(s: State) {
    && s.own == {} && s.queue == {} && s.unsynced == {} && s.pass == {} && s.moves == map[]
    && (forall c :: c in s.rows && s.rows[c].File? ==> c in s.files && (c in s.durable || s.files[c].Removed?))
  }

  function Run(s: State, es: seq<Event>): State {
    if es == [] then s else Step(Run(s, es[..|es| - 1]), es[|es| - 1])
  }

  // ---------------------------------------------------------------- the invariant

  /** The group sync still has this path on its list or in its hands. */
  predicate Pending(s: State, p: Path) {
    p in s.queue || Waiting(p) in s.pass || Opened(p) in s.pass
  }

  /** The group sync still owes chunk c a sync under the path it has now. */
  predicate Awaited(s: State, c: nat) { c in s.files && Pending(s, PathOf(s, c)) }

  /** The claim about one committed file chunk. */
  predicate Secured(s: State, c: nat) {
    c in s.files && (c in s.durable || Pending(s, PathOf(s, c)))
  }

  /** Every own chunk that is not on disk is pending under its current path, and the archiver can see that. */
  ghost predicate OwnPending(s: State) {
    forall c :: c in s.own && c in s.files && c !in s.durable && !s.files[c].Removed? ==>
      Pending(s, PathOf(s, c)) && PathOf(s, c) in s.unsynced
  }

  predicate Mentioned(s: State, p: Path) {
    p in s.queue || p in s.unsynced || Waiting(p) in s.pass || Opened(p) in s.pass || Handled(p) in s.pass
  }

  /** Paths name own chunks, and an archive path only ever names a file that is there. */
  ghost predicate PathsMeant(s: State) {
    && (forall p :: Mentioned(s, p) ==>
          p.chunk in s.own && p.chunk in s.files && !p.place.Removed? && (p.place.Archive? ==> At(s, p.chunk, Archive)))
    && (forall p :: Handled(p) in s.pass ==> p.chunk in s.durable || !At(s, p.chunk, p.place))
  }

  ghost predicate MovesMeant(s: State) {
    forall c :: c in s.moves ==> At(s, c, Buffer) && (if s.moves[c].queued then c in s.own else c in s.durable)
  }

  ghost predicate RowsMeant(s: State) {
    && (forall c :: c in s.rows && s.rows[c].File? ==> c in s.files)
    && (forall c :: c in s.rows && s.rows[c].File? && c !in s.own ==> c in s.durable || s.files[c].Removed?)
    && (forall c :: c in s.own ==> c in s.files)
  }

  ghost predicate Inv(s: State) {
    OwnPending(s) && PathsMeant(s) && MovesMeant(s) && RowsMeant(s)
  }

  /** A committed file chunk that eviction did not remove. */
  predicate Kept(s: State, c: nat) { c in s.rows && s.rows[c].File? && !At(s, c, Removed) }

  /** Every kept file chunk is on disk or waits for the sync under the path it has now. */
  ghost predicate AllSecured(s: State) { forall c :: Kept(s, c) ==> Secured(s, c) }

  lemma {:induction false} SealKeeps(s: State, e: Event)
    requires Inv(s) && (e.SealNow? || e.SealLater?)
    ensures Inv(Step(s, e))
  {
    assert forall p :: Mentioned(Step(s, e), p) ==> Mentioned(s, p) || p == Path(e.chunk, Buffer);
  }

  lemma {:induction false} PassOpens(s: State, e: Event)
    requires Inv(s) && (e.PassBegin? || e.PassOpen?)
    ensures Inv(Step(s, e))
  {
    var u := Step(s, e);
    assert forall p :: Mentioned(u, p) ==> Mentioned(s, p);
    forall c | c in u.own && c in u.files && c !in u.durable && !u.files[c].Removed?
      ensures Pending(u, PathOf(u, c)) && PathOf(u, c) in u.unsynced
    {
      assert Pending(s, PathOf(s, c));
    }
  }

  lemma {:induction false} PassSyncs(s: State, e: Event)
    requires Inv(s) && (e.PassSync? || e.PassForget?)
    ensures Inv(Step(s, e))
  {
    var u := Step(s, e);
    assert forall p :: Mentioned(u, p) ==> Mentioned(s, p);
    forall c | c in u.own && c in u.files && c !in u.durable && !u.files[c].Removed?
      ensures Pending(u, PathOf(u, c)) && PathOf(u, c) in u.unsynced
    {
      assert Pending(s, PathOf(s, c));
    }
  }

  lemma {:induction false} ClassifyKeeps(s: State, c: nat, looksOld: bool)
    requires Inv(s)
    ensures Inv(Step(s, Classify(c, looksOld)))
  {
    var u := Step(s, Classify(c, looksOld));
    assert forall p :: Mentioned(u, p) == Mentioned(s, p) && Pending(u, p) == Pending(s, p);
    assert c in u.moves && !u.moves[c].queued && u != s ==> c in u.durable by {
      hide PathsMeant, RowsMeant, Mentioned;
    }
    hide Mentioned, Pending;
  }

  lemma {:induction false} CommitKeeps(s: State, c: nat)
    requires Inv(s)
    ensures Inv(Step(s, Commit(c))) && Inv(Step(s, GiveUp(c)))
  {
    var u, v := Step(s, Commit(c)), Step(s, GiveUp(c));
    assert forall p :: Mentioned(u, p) == Mentioned(s, p) == Mentioned(v, p);
    hide Mentioned;
  }

  lemma {:induction false} RenameKeeps(s: State, c: nat)
    requires Inv(s)
    ensures Inv(Step(s, Rename(c)))
  {
    var u := Step(s, Rename(c));
    assert forall p :: Mentioned(u, p) ==> Mentioned(s, p) || p == Path(c, Archive);
    assert forall p :: Handled(p) in u.pass ==> Mentioned(s, p);
  }

  lemma {:induction false} RemoveKeeps(s: State, e: Event)
    requires Inv(s) && (e.StoreBlob? || e.Unlink? || e.Evict?)
    ensures Inv(Step(s, e))
  {
    var u := Step(s, e);
    assert forall p :: Mentioned(u, p) ==> Mentioned(s, p);
    assert forall p :: Handled(p) in u.pass ==> Mentioned(s, p);
  }

  lemma {:induction false} StepKeeps(s: State, e: Event)
    requires Inv(s)
    ensures Inv(Step(s, e))
  {
    hide Inv, Step;
    match e
    case SealNow(_) => SealKeeps(s, e);
    case SealLater(_) => SealKeeps(s, e);
    case PassBegin => PassOpens(s, e);
    case PassOpen(_) => PassOpens(s, e);
    case PassSync(_) => PassSyncs(s, e);
    case PassForget(_) => PassSyncs(s, e);
    case Classify(c, looksOld) => ClassifyKeeps(s, c, looksOld);
    case Commit(c) => CommitKeeps(s, c);
    case GiveUp(c) => CommitKeeps(s, c);
    case Rename(c) => RenameKeeps(s, c);
    case StoreBlob(_) => RemoveKeeps(s, e);
    case Unlink(_) => RemoveKeeps(s, e);
    case Evict(_) => RemoveKeeps(s, e);
  }

  lemma {:induction false} Reachable(s: State, es: seq<Event>)
    requires Begin(s)
    ensures Inv(Run(s, es))
  {
    if es != [] {
      Reachable(s, es[..|es| - 1]);
      StepKeeps(Run(s, es[..|es| - 1]), es[|es| - 1]);
    }
  }

  /** The main result: whatever the interleaving, no committed file row is left behind. */
  lemma {:induction false} CommittedRowsAreSecured(s: State, es: seq<Event>)
    requires Begin(s)
    ensures AllSecured(Run(s, es))
  {
    Reachable(s, es);
    hide Run;
  }

  /** Once the group sync has nothing to do, every committed file row is on disk. */
  lemma {:induction false} IdleMeansDurable(s: State, es: seq<Event>, c: nat)
    requires Begin(s) && Run(s, es).queue == {} && Run(s, es).pass == {}
    requires Kept(Run(s, es), c)
    ensures c in Run(s, es).durable
  {
    Reachable(s, es);
    hide Run;
    assert Secured(Run(s, es), c);
  }

  // ---------------------------------------------------------------- what the archiver achieves

  /**
   An undisturbed move takes the file to the archive directory and its row says so; the new
   path is queued for the group sync exactly when the old one still was, and otherwise the
   bytes are on disk.
   */
  lemma {:induction false} MoveArchives(s: State, c: nat, looksOld: bool)
    requires Inv(s) && At(s, c, Buffer) && c !in s.moves
    ensures var u := Step(Step(Step(s, Classify(c, looksOld)), Commit(c)), Rename(c));
            && u.files == s.files[c := Archive] && u.rows == s.rows[c := File] && u.moves == s.moves
            && (if Path(c, Buffer) in s.unsynced
                then u.queue == s.queue + {Path(c, Archive)} && u.durable == s.durable
                else u.queue == s.queue && c in u.durable)
  {
    var a := Step(s, Classify(c, looksOld));
    assert c in a.moves && a.moves[c] == Classified(Path(c, Buffer) in s.unsynced);
    var b := Step(a, Commit(c));
    assert b.moves[c] == Committed(a.moves[c].queued) && b.rows == s.rows[c := File];
    assert Path(c, Buffer) !in s.unsynced && !looksOld && c in s.own ==> c in s.durable by {
      hide PathsMeant, MovesMeant, RowsMeant;
    }
    hide Inv;
    assert s.moves[c := Committed(a.moves[c].queued)] - {c} == s.moves;
  }

  /** A chunk stored as a blob, also after a failed rename, loses its file only with the row in place. */
  lemma {:induction false} BlobReplacesFile(s: State, c: nat)
    requires At(s, c, Buffer) && (c in s.moves ==> s.moves[c].Committed?)
    ensures var u := Step(Step(s, StoreBlob(c)), Unlink(c));
            u.rows == s.rows[c := Blob] && u.files == s.files[c := Removed] && u.moves == s.moves - {c}
  {
  }

  /** A file goes only by eviction, which takes it at once, or once its bytes are in a row. */
  lemma {:induction false} FilesStay(s: State, e: Event, c: nat)
    requires c in s.files && !At(s, c, Removed)
    ensures At(Step(s, e), c, Removed) <==>
            At(s, c, Buffer) && (e == Evict(c) || (e == Unlink(c) && c in s.rows && s.rows[c].Blob? && c !in s.moves))
    ensures At(s, c, Archive) ==> At(Step(s, e), c, Archive)
  {
  }

  /** A row is written or replaced only while its file is in the buffer, and none is ever lost. */
  lemma {:induction false} RowsStay(s: State, e: Event, c: nat)
    requires Inv(s)
    ensures c in s.rows ==> c in Step(s, e).rows
    ensures c in Step(s, e).rows && (c in s.rows ==> Step(s, e).rows[c] != s.rows[c]) ==> At(s, c, Buffer)
  {
    hide OwnPending, PathsMeant, RowsMeant;
  }

  // ---------------------------------------------------------------- a daemon crash

  /** A restart forgets the queue, the pass and the moves; files, rows and the page cache stay. */
  function Restart(s: State): State {
    s.(own := {}, queue := {}, unsynced := {}, pass := {}, moves := map[])
  }

  /**
   Across a restart the claim holds exactly when every kept chunk still pending before it is
   already on disk; then the new process starts from a state of the kind the main result needs.
   */
  lemma {:induction false} RestartExactly(s: State, es: seq<Event>)
    requires Begin(s)
    ensures var u := Run(s, es);
            AllSecured(Restart(u)) <==> forall c :: Kept(u, c) && Awaited(u, c) ==> c in u.durable
    ensures AllSecured(Restart(Run(s, es))) <==> Begin(Restart(Run(s, es)))
  {
    Reachable(s, es);
    hide Run;
    var u := Run(s, es);
    var v := Restart(u);
    if AllSecured(v) {
      forall c | Kept(u, c) ensures c in u.durable { assert Kept(v, c) && Secured(v, c); }
    } else {
      var c :| Kept(v, c) && !Secured(v, c);
      assert Kept(u, c) && Secured(u, c);
    }
  }

  const EMPTY := State(map[], {}, {}, {}, {}, {}, map[], map[])

  /** A restart between the rename and the next pass leaves a committed chunk unsecured. */
  lemma RestartCanForget()
    ensures Begin(EMPTY) && exists es :: !AllSecured(Restart(Run(EMPTY, es)))
  {
    var e1 := [SealLater(1)];
    var e2 := e1 + [Classify(1, false)];
    var e3 := e2 + [Commit(1)];
    var e4 := e3 + [Rename(1)];
    assert e1 == [] + e1;
    RunStep(EMPTY, [], SealLater(1));
    RunStep(EMPTY, e1, Classify(1, false));
    RunStep(EMPTY, e2, Commit(1));
    RunStep(EMPTY, e3, Rename(1));
    assert Run(EMPTY, []) == EMPTY;
    hide Run, Step;
    Renamed(1);
    assert Kept(Restart(Run(EMPTY, e4)), 1) && !Secured(Restart(Run(EMPTY, e4)), 1);
  }

  /** A chunk can be on disk and still pending: the pass syncs it between classification and rename. */
  lemma PendingThoughSynced()
    ensures exists es :: var u := Run(EMPTY, es); Kept(u, 1) && Awaited(u, 1) && 1 in u.durable
  {
    var p := Path(1, Buffer);
    var e1 := [SealLater(1)];
    var e2 := e1 + [PassBegin];
    var e3 := e2 + [PassOpen(p)];
    var e4 := e3 + [Classify(1, false)];
    var e5 := e4 + [PassSync(p)];
    var e6 := e5 + [Commit(1)];
    var e7 := e6 + [Rename(1)];
    assert e1 == [] + e1;
    RunStep(EMPTY, [], SealLater(1));
    RunStep(EMPTY, e1, PassBegin);
    RunStep(EMPTY, e2, PassOpen(p));
    RunStep(EMPTY, e3, Classify(1, false));
    RunStep(EMPTY, e4, PassSync(p));
    RunStep(EMPTY, e5, Commit(1));
    RunStep(EMPTY, e6, Rename(1));
    assert Run(EMPTY, []) == EMPTY;
    hide Run, Step;
    OpenedFirst();
    SyncedThenMoved();
  }

  /** The pass has opened the chunk's file when the archiver classifies it as queued. */
  const OPENED := State(map[1 := Buffer], {1}, {}, {}, {Path(1, Buffer)}, {Opened(Path(1, Buffer))}, map[],
                        map[1 := Classified(true)])

  lemma OpenedFirst()
    ensures var waiting := Step(Step(EMPTY, SealLater(1)), PassBegin);
            Step(Step(waiting, PassOpen(Path(1, Buffer))), Classify(1, false)) == OPENED
  {
    var p := Path(1, Buffer);
    var s1 := Step(EMPTY, SealLater(1));
    assert s1 == State(map[1 := Buffer], {1}, {}, {p}, {p}, {}, map[], map[]);
    var s2 := Step(s1, PassBegin);
    assert s2 == State(map[1 := Buffer], {1}, {}, {}, {p}, {Waiting(p)}, map[], map[]);
    var s3 := Step(s2, PassOpen(p));
    assert s3 == State(map[1 := Buffer], {1}, {}, {}, {p}, {Opened(p)}, map[], map[]);
  }

  lemma SyncedThenMoved()
    ensures var u := Step(Step(Step(OPENED, PassSync(Path(1, Buffer))), Commit(1)), Rename(1));
            Kept(u, 1) && Awaited(u, 1) && 1 in u.durable
  {
    var p := Path(1, Buffer);
    var a := Step(OPENED, PassSync(p));
    assert a == OPENED.(pass := {Handled(p)}, durable := {1});
    var b := Step(a, Commit(1));
    assert b.moves[1] == Committed(true);
  }

  lemma {:induction false} Renamed(c: nat)
    ensures var s := Step(Step(Step(Step(EMPTY, SealLater(c)), Classify(c, false)), Commit(c)), Rename(c));
            Kept(s, c) && s.durable == {}
  {
    var s1 := Step(EMPTY, SealLater(c));
    assert At(s1, c, Buffer) && Path(c, Buffer) in s1.unsynced && s1.durable == {} && c !in s1.moves;
    var s2 := Step(s1, Classify(c, false));
    assert c in s2.moves && s2.moves[c] == Classified(true) && s2.durable == {};
  }

  lemma {:induction false} RunStep(s: State, es: seq<Event>, e: Event)
    ensures Run(s, es + [e]) == Step(Run(s, es), e)
  {
    assert (es + [e])[..|es + [e]| - 1] == es;
  }
}
