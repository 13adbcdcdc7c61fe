/**
 Archival of one run's chunks: rows are committed first, then files are renamed into
 the archive directory (or stored as blobs if that fails), then the buffer is
 unlinked and the index rewritten.  An orphan sweep does the same for a run whose
 writer is gone, salvaging chunks the index does not list.

 Every disk operation may fail, and a commit may take effect yet report an error.
 The store records each intermediate layout in `trace`: these are the layouts a
 reader can observe and a crash can leave behind.
 */
module Archive {
  import opened Codec
  import opened LogReader

  const FILE_CHUNK_MIN := 64 * 1024
  const BATCH_BYTES := 8 * 1024 * 1024
  const BATCH_CHUNKS := 64

  // ---------------------------------------------------------------- layouts

  /** Both layouts hold the same frames in every chunk. */
  ghost predicate Same(a: Tiers, b: Tiers) {
    forall n: nat :: Content(a, n) == Content(b, n)
  }

  lemma {:induction false} SameLogical(a: Tiers, b: Tiers, hi: nat)
    requires Same(a, b)
    ensures Logical(a, hi) == Logical(b, hi)
  {
    if hi > 0 { SameLogical(a, b, hi - 1); }
  }

  /** Chunk n no longer needs its buffer file. */
  predicate Safe(t: Tiers, n: nat) {
    (n in t.rows && (t.rows[n].Blob? || n in t.archive)) || Content(t, n) == []
  }

  /** Anything the writer still has to archive is on its list or newer than the list. */
  ghost predicate Covered(t: Tiers) {
    forall m :: m in t.buffer && m !in t.rows && Content(t, m) != [] ==>
      m in t.sealed || forall k :: k in t.sealed ==> k < m
  }

  /** The records of u say nothing new about the chunks of t. */
  ghost predicate Truthful(t: Tiers, u: Tiers) {
    && (forall n :: n in u.rows ==> Mark(t, n, u.rows[n].last) && UpTo(Content(t, n), u.rows[n].last))
    && (forall n :: n in u.index ==> Mark(t, n, u.index[n].last) && UpTo(Content(t, n), u.index[n].last))
    && (forall n :: n in u.sealed ==> n in t.sealed && u.sealed[n] == t.sealed[n])
  }

  lemma {:induction false} Parts(t: Tiers)
    requires Inv(t)
    ensures Ordered(t) && Bounded(t) && Agree(t) && RowsFirst(t)
  {
  }

  /** Every record of u, and every frame, carries a number that chunk already had in t. */
  ghost predicate MarksStay(t: Tiers, u: Tiers) { forall n: nat, x: nat :: Mark(u, n, x) ==> Mark(t, n, x) }

  lemma {:induction false} SoundStays(t: Tiers, u: Tiers)
    requires Sound(t) && Same(t, u) && MarksStay(t, u) && Agree(u)
    ensures Sound(u)
  {
    hide Mark, Agree, Content, Increasing;
    forall n: nat ensures Increasing(Content(u, n)) {
      assert Content(u, n) == Content(t, n);
    }
  }

  lemma {:induction false} TruthfulMarks(t: Tiers, u: Tiers)
    requires Same(t, u) && Truthful(t, u)
    ensures MarksStay(t, u)
  {
    forall n: nat, x: nat | Mark(u, n, x) ensures Mark(t, n, x) {
      assert Content(u, n) == Content(t, n);
      hide Stored;
    }
  }

  /** A step that moves bytes around without changing any chunk's frames or records. */
  lemma {:induction false} StepKeeps(t: Tiers, u: Tiers)
    requires Inv(t) && Same(t, u) && Truthful(t, u)
    requires Agree(u) && RowsFirst(u)
    ensures Inv(u)
  {
    InvIsSound(t);
    InvIsSound(u);
    hide Inv, Sound, MarksStay, Mark, Agree, RowsFirst, UpTo, Content;
    TruthfulMarks(t, u);
    SoundStays(t, u);
    assert Bounded(u) by {
      forall n: nat ensures Content(u, n) == Content(t, n) { }
    }
  }

  function Put(t: Tiers, puts: map<nat, Row>): Tiers {
    t.(rows := t.rows + puts)
  }

  /** The rows are for buffered chunks and hold their frames. */
  ghost predicate Fills(t: Tiers, puts: map<nat, Row>) {
    && (forall n :: n in puts ==> n in t.buffer)
    && (forall n :: n in puts && puts[n].Blob? ==> puts[n].blob.frames == Content(t, n) && Faithful(puts[n].blob))
  }

  /** They also end at a number of their chunk, not before its frames, and leave no older chunk behind. */
  ghost predicate Puttable(t: Tiers, puts: map<nat, Row>) {
    && Fills(t, puts)
    && (forall n :: n in puts ==> Mark(t, n, puts[n].last) && UpTo(Content(t, n), puts[n].last))
    && (forall n, m ::
          n in puts && m in t.buffer && m !in t.rows && m !in puts && Content(t, m) != [] && Intact(t, m) ==> n < m)
  }

  lemma {:induction false} PutSame(t: Tiers, puts: map<nat, Row>)
    requires Agree(t) && Fills(t, puts)
    ensures Same(t, Put(t, puts))
  {
    forall n: nat ensures Content(Put(t, puts), n) == Content(t, n) {
      if n in puts && n in t.archive { assert n in t.rows; }
    }
  }

  lemma {:induction false} PutAgrees(t: Tiers, puts: map<nat, Row>)
    requires Agree(t) && Fills(t, puts)
    ensures Agree(Put(t, puts)) && Same(t, Put(t, puts))
  {
    PutSame(t, puts);
    var u := Put(t, puts);
    assert forall n: nat :: Content(u, n) == Content(t, n);
    hide Stored, Faithful;
  }

  lemma {:induction false} PutRowsFirst(t: Tiers, puts: map<nat, Row>)
    requires RowsFirst(t) && Puttable(t, puts)
    ensures RowsFirst(Put(t, puts))
  {
    hide Mark, UpTo, Faithful;
    var u := Put(t, puts);
    forall n, m | n in u.rows && m in u.buffer && m !in u.rows && Content(u, m) != [] && Intact(u, m) ensures n < m {
      assert Stored(u, m) == Stored(t, m);
    }
  }

  lemma {:induction false} PutRecords(t: Tiers, puts: map<nat, Row>)
    requires Bounded(t) && Puttable(t, puts)
    ensures Truthful(t, Put(t, puts))
  {
  }

  lemma {:induction false} PutFaithful(t: Tiers, puts: map<nat, Row>)
    requires AllFaithful(t) && Fills(t, puts)
    ensures AllFaithful(Put(t, puts))
  {
  }

  lemma {:induction false} PuttableFills(t: Tiers, puts: map<nat, Row>)
    requires Puttable(t, puts)
    ensures Fills(t, puts)
  {
    hide Fills, Mark, Content, UpTo;
  }

  /** Committing rows, whether new or replacing an earlier attempt, changes no content. */
  lemma {:induction false} PutKeeps(t: Tiers, puts: map<nat, Row>)
    requires Inv(t) && AllFaithful(t) && Puttable(t, puts)
    ensures Inv(Put(t, puts)) && AllFaithful(Put(t, puts)) && Same(t, Put(t, puts))
  {
    hide *;
    Parts(t);
    PuttableFills(t, puts);
    PutAgrees(t, puts);
    PutRowsFirst(t, puts);
    PutRecords(t, puts);
    PutFaithful(t, puts);
    StepKeeps(t, Put(t, puts));
  }

  /** u keeps the rows of t and holds nothing that t did not: files move or go, records go. */
  ghost predicate Moved(t: Tiers, u: Tiers) {
    && u.rows == t.rows
    && (forall n :: n in u.buffer ==> n in t.buffer && u.buffer[n] == t.buffer[n])
    && (forall n :: n in u.archive ==>
          (n in t.archive && u.archive[n] == t.archive[n])
              || (n in t.buffer && n in t.rows && u.archive[n] == t.buffer[n]))
    && (forall n :: n in u.index ==>
          (n in t.index && u.index[n] == t.index[n]) || (n in t.sealed && u.index[n] == t.sealed[n]))
    && (forall n :: n in u.sealed ==> n in t.sealed && u.sealed[n] == t.sealed[n])
  }

  lemma {:induction false} MovedAgrees(t: Tiers, u: Tiers)
    requires Agree(t) && Moved(t, u) && Same(t, u)
    ensures Agree(u)
  {
    assert forall n: nat :: Content(u, n) == Content(t, n);
    hide Stored;
  }

  lemma {:induction false} MovedRowsFirst(t: Tiers, u: Tiers)
    requires RowsFirst(t) && Moved(t, u) && Same(t, u)
    ensures RowsFirst(u)
  {
    forall n, m | n in u.rows && m in u.buffer && m !in u.rows && Content(u, m) != [] && Intact(u, m) ensures n < m {
      assert Stored(u, m) == Stored(t, m);
    }
  }

  lemma {:induction false} MovedFaithful(t: Tiers, u: Tiers)
    requires AllFaithful(t) && Moved(t, u)
    ensures AllFaithful(u)
  {
    hide Faithful;
  }

  lemma {:induction false} MovedRecords(t: Tiers, u: Tiers)
    requires Bounded(t) && Moved(t, u)
    ensures Truthful(t, u)
  {
  }

  lemma {:induction false} MoveKeeps(t: Tiers, u: Tiers)
    requires Inv(t) && AllFaithful(t) && Moved(t, u) && Same(t, u)
    ensures Inv(u) && AllFaithful(u)
  {
    hide *;
    Parts(t);
    MovedAgrees(t, u);
    MovedRowsFirst(t, u);
    MovedFaithful(t, u);
    MovedRecords(t, u);
    StepKeeps(t, u);
  }

  function Rename(t: Tiers, n: nat): Tiers
    requires n in t.buffer
  {
    t.(archive := t.archive[n := t.buffer[n]], buffer := t.buffer - {n})
  }

  /** Renaming a committed file chunk into the archive directory changes no content. */
  lemma {:induction false} RenameKeeps(t: Tiers, n: nat)
    requires Inv(t) && AllFaithful(t) && n in t.buffer && n in t.rows && t.rows[n].File?
    ensures Inv(Rename(t, n)) && AllFaithful(Rename(t, n)) && Same(t, Rename(t, n))
  {
    Parts(t);
    hide Inv, Ordered, Bounded, AllFaithful, RowsFirst;
    RenameSame(t, n);
    hide *;
    MoveKeeps(t, Rename(t, n));
  }

  lemma {:induction false} RenameSame(t: Tiers, n: nat)
    requires Agree(t) && n in t.buffer && n in t.rows && t.rows[n].File?
    ensures Same(t, Rename(t, n)) && Moved(t, Rename(t, n))
  {
    forall m: nat ensures Content(Rename(t, n), m) == Content(t, m) { }
  }

  /** Removing buffer files that are safe, and records with them. */
  function Drop(t: Tiers, gone: set<nat>, index: map<nat, Meta>, sealed: map<nat, Meta>): Tiers {
    t.(buffer := t.buffer - gone, index := index, sealed := sealed)
  }

  ghost predicate Droppable(t: Tiers, gone: set<nat>, index: map<nat, Meta>, sealed: map<nat, Meta>) {
    && (forall n :: n in gone && n in t.buffer ==> Safe(t, n))
    && (forall n :: n in index ==>
          (n in t.index && index[n] == t.index[n]) || (n in t.sealed && index[n] == t.sealed[n]))
    && (forall n :: n in sealed ==> n in t.sealed && sealed[n] == t.sealed[n])
  }

  lemma {:induction false} DropKeeps(t: Tiers, gone: set<nat>, index: map<nat, Meta>, sealed: map<nat, Meta>)
    requires Inv(t) && AllFaithful(t) && Droppable(t, gone, index, sealed)
    ensures var u := Drop(t, gone, index, sealed); Inv(u) && AllFaithful(u) && Same(t, u)
  {
    hide *;
    DropSame(t, gone, index, sealed);
    MoveKeeps(t, Drop(t, gone, index, sealed));
  }

  lemma {:induction false} DropSame(t: Tiers, gone: set<nat>, index: map<nat, Meta>, sealed: map<nat, Meta>)
    requires Droppable(t, gone, index, sealed)
    ensures var u := Drop(t, gone, index, sealed); Same(t, u) && Moved(t, u)
  {
    forall m: nat ensures Content(Drop(t, gone, index, sealed), m) == Content(t, m) { }
  }

  /** A layout from which the run reads exactly as it did in `base`. */
  ghost predicate Good(base: Tiers, t: Tiers) {
    Inv(t) && AllFaithful(t) && Same(base, t)
  }

  lemma {:induction false} SameTrans(a: Tiers, b: Tiers, c: Tiers)
    requires Same(a, b) && Same(b, c)
    ensures Same(a, c)
  {
    forall n: nat ensures Content(a, n) == Content(c, n) {
      assert Content(a, n) == Content(b, n);
    }
  }

  lemma {:induction false} PutGood(base: Tiers, t: Tiers, puts: map<nat, Row>)
    requires Good(base, t) && Covered(t) && Puttable(t, puts)
    ensures Good(base, Put(t, puts)) && Covered(Put(t, puts))
  {
    hide Inv, AllFaithful, Same, Covered, Puttable, Put;
    PutKeeps(t, puts);
    PutCovered(t, puts);
    SameTrans(base, t, Put(t, puts));
  }

  lemma {:induction false} PutCovered(t: Tiers, puts: map<nat, Row>)
    requires Covered(t) && Same(t, Put(t, puts))
    ensures Covered(Put(t, puts))
  {
  }

  lemma {:induction false} RenameGood(base: Tiers, t: Tiers, n: nat)
    requires Good(base, t) && Covered(t) && n in t.buffer && n in t.rows && t.rows[n].File?
    ensures Good(base, Rename(t, n)) && Covered(Rename(t, n))
  {
    hide Inv, AllFaithful, Same, Covered, Rename;
    RenameKeeps(t, n);
    RenameCovered(t, n);
    SameTrans(base, t, Rename(t, n));
  }

  lemma {:induction false} RenameCovered(t: Tiers, n: nat)
    requires Covered(t) && n in t.buffer && Same(t, Rename(t, n))
    ensures Covered(Rename(t, n))
  {
  }

  /** Chunks struck off the writer's list are archived ones. */
  ghost predicate Listed(t: Tiers, sealed: map<nat, Meta>) {
    forall n :: n in t.sealed && n !in sealed ==> n in t.rows || Content(t, n) == []
  }

  lemma {:induction false} DropGood(base: Tiers, t: Tiers, gone: set<nat>, index: map<nat, Meta>, sealed: map<nat,
        Meta>)
    requires Good(base, t) && Covered(t) && Droppable(t, gone, index, sealed) && Listed(t, sealed)
    ensures Good(base, Drop(t, gone, index, sealed)) && Covered(Drop(t, gone, index, sealed))
  {
    hide Inv, AllFaithful, Same, Covered, Drop, Droppable, Listed;
    DropKeeps(t, gone, index, sealed);
    DropCovered(t, gone, index, sealed);
    SameTrans(base, t, Drop(t, gone, index, sealed));
  }

  lemma {:induction false} DropCovered(t: Tiers, gone: set<nat>, index: map<nat, Meta>, sealed: map<nat, Meta>)
    requires Covered(t) && Droppable(t, gone, index, sealed) && Listed(t, sealed)
    requires Same(t, Drop(t, gone, index, sealed))
    ensures Covered(Drop(t, gone, index, sealed))
  {
    var u := Drop(t, gone, index, sealed);
    forall m | m in u.buffer && m !in u.rows && Content(u, m) != []
      ensures m in u.sealed || forall k :: k in u.sealed ==> k < m
    {
      assert Content(t, m) == Content(u, m);
    }
  }

  // ---------------------------------------------------------------- one run's store

  /** The layouts passed through so far, all of them good, up to the present one. */
  ghost predicate Recorded(base: Tiers, trace: seq<Tiers>, now: Tiers) {
    (forall i :: 0 <= i < |trace| ==> Good(base, trace[i])) && |trace| > 0 && trace[|trace| - 1] == now
  }

  class RunStore {
    /** The disk and the database do not fail. */
    const sound: bool
    var rows: map<nat, Row>
    var archive: map<nat, Stream>
    var buffer: map<nat, Stream>
    var index: map<nat, Meta>
    var sealed: map<nat, Meta>
    var quarantine: map<nat, Stream>
    ghost var base: Tiers
    ghost var trace: seq<Tiers>

    function View(): Tiers
      reads this
    {
      Tiers(rows, archive, buffer, index, sealed)
    }

    ghost predicate Valid()
      reads this
    {
      Good(base, View()) && Covered(View()) && Recorded(base, trace, View())
    }

    constructor (t: Tiers, sound: bool)
      requires Inv(t) && AllFaithful(t) && Covered(t)
      ensures Valid() && View() == base == t && trace == [t] && this.sound == sound
    {
      this.sound := sound;
      rows, archive, buffer, index, sealed := t.rows, t.archive, t.buffer, t.index, t.sealed;
      quarantine, base, trace := map[], t, [t];
    }

    /** Whether an operation fails; any may, unless storage is sound. */
    method Fault() returns (bad: bool)
      ensures sound ==> !bad
    {
      bad := *;
      bad := bad && !sound;
    }

    /** Records the layout just reached. */
    ghost method Observe(was: Tiers)
      requires Good(base, View()) && Covered(View()) && Recorded(base, trace, was)
      modifies this`trace
      ensures Valid() && trace == old(trace) + [View()]
    {
      hide Good, Covered;
      trace := trace + [View()];
    }

    /** The upsert transaction.  It may commit and still report an error. */
    method PutChunks(puts: map<nat, Row>) returns (ok: bool)
      requires Valid() && Puttable(View(), puts)
      modifies this`rows, this`trace
      ensures Valid() && old(trace) <= trace
      ensures rows == old(rows) + puts || (!ok && rows == old(rows))
      ensures sound ==> ok
      ensures Untouched(old(View()), View(), puts.Keys)
    {
      hide Good, Recorded, Covered, Puttable;
      var rolledBack := Fault();
      var failed := Fault();
      ok := !rolledBack && !failed;
      if !rolledBack {
        PutGood(base, View(), puts);
        rows := rows + puts;
        Observe(old(View()));
      }
    }

    /** Renames one committed file chunk into the archive directory. */
    method RenameMove(n: nat) returns (ok: bool)
      requires Valid() && n in buffer && n in rows && rows[n].File?
      modifies this`archive, this`buffer, this`trace
      ensures Valid() && old(trace) <= trace
      ensures ok ==> n in archive && archive == old(archive)[n := old(buffer)[n]] && buffer == old(buffer) - {n}
      ensures !ok ==> archive == old(archive) && buffer == old(buffer)
      ensures Untouched(old(View()), View(), {n}) && (sound ==> ok)
    {
      hide Good, Recorded, Covered;
      var failed := Fault();
      ok := !failed;
      if ok {
        RenameGood(base, View(), n);
        archive, buffer := archive[n := buffer[n]], buffer - {n};
        Observe(old(View()));
      }
    }

    /** Unlinks one buffer file; a missing file is not an error. */
    method RemoveBuffer(n: nat) returns (ok: bool)
      requires Valid() && Safe(View(), n)
      modifies this`buffer, this`trace
      ensures Valid() && old(trace) <= trace
      ensures buffer == if ok then old(buffer) - {n} else old(buffer)
      ensures sound || n !in old(buffer) ==> ok
      ensures Untouched(old(View()), View(), {n})
    {
      hide Good, Recorded, Covered, Safe;
      var failed := Fault();
      ok := !failed || n !in buffer;
      if ok {
        RemoveGood(base, View(), n);
        buffer := buffer - {n};
        Observe(old(View()));
      }
    }

    /** Replaces index.json by the writer's list. */
    method WriteIndex() returns (ok: bool)
      requires Valid()
      modifies this`index, this`trace
      ensures Valid() && old(trace) <= trace
      ensures index == (if ok then sealed else old(index)) && (sound ==> ok)
    {
      hide Good, Recorded, Covered;
      var failed := Fault();
      ok := !failed;
      if ok {
        IndexGood(base, View());
        index := sealed;
        Observe(old(View()));
      }
    }

    /** Strikes archived chunks off the writer's list. */
    method Unlist(gone: set<nat>)
      requires Valid() && forall n :: n in gone ==> n in rows
      modifies this`sealed, this`trace
      ensures Valid() && old(trace) <= trace
      ensures sealed == old(sealed) - gone
    {
      hide Good, Recorded, Covered;
      UnlistGood(base, View(), gone);
      sealed := sealed - gone;
      Observe(old(View()));
    }

    /** Renames committed file chunks in order, up to the first failure. */
    method RenameAll(moves: seq<nat>) returns (ok: bool)
      requires Valid()
      requires forall i :: 0 <= i < |moves| ==> moves[i] in buffer && moves[i] in rows && rows[moves[i]].File?
      requires forall i, j :: 0 <= i < j < |moves| ==> moves[i] != moves[j]
      modifies this`archive, this`buffer, this`trace
      ensures Valid() && old(trace) <= trace
      ensures forall n :: n in moves ==> n in archive || n in buffer
      ensures ok ==> forall n :: n in moves ==> n in archive
      ensures sound ==> ok
      ensures buffer.Keys <= old(buffer).Keys && Untouched(old(View()), View(), set n | n in moves)
    {
      hide Good, Recorded, Covered, Untouched;
      ghost var m := set n | n in moves;
      UntouchedSelf(View(), m);
      var failed := Fault(); // the directory could not be made
      ok := !failed;
      var i := 0;
      while ok && i < |moves|
        invariant 0 <= i <= |moves| && Valid() && old(trace) <= trace
        invariant forall j :: i <= j < |moves| ==> moves[j] in buffer
        invariant forall j :: 0 <= j < i ==> moves[j] in archive
        invariant buffer.Keys <= old(buffer).Keys && Untouched(old(View()), View(), m)
        invariant sound ==> ok
        decreases if ok then |moves| - i else 0, ok
      {
        ghost var before := View();
        ok := RenameMove(moves[i]);
        UntouchedTwice(old(View()), before, View(), m, {moves[i]}, m);
        if ok { i := i + 1; }
      }
    }

    /**
     Moves committed file chunks into the archive directory.  If a rename or the
     directory sync fails, those still in the buffer are stored as blobs instead.
     */
    method PlaceFiles(moves: seq<nat>) returns (ok: bool)
      requires Valid()
      requires forall i :: 0 <= i < |moves| ==> moves[i] in buffer && moves[i] in rows && rows[moves[i]].File?
      requires forall i, j :: 0 <= i < j < |moves| ==> moves[i] != moves[j]
      modifies this`rows, this`archive, this`buffer, this`trace
      ensures Valid() && old(trace) <= trace
      ensures ok ==> forall n :: n in moves ==> n in rows && (rows[n].Blob? || n in archive)
      ensures sound ==> ok
      ensures rows.Keys == old(rows).Keys && buffer.Keys <= old(buffer).Keys
      ensures Untouched(old(View()), View(), set n | n in moves)
    {
      hide Good, Recorded, Covered, Untouched, Puttable;
      ghost var m := set n | n in moves;
      UntouchedSelf(View(), m);
      if moves == [] { return true; }
      var renamed := RenameAll(moves);
      var unsynced := Fault();
      if renamed && !unsynced { return true; }
      var unreadable := Fault();
      if unreadable { return false; }
      ghost var before := View();
      var blobs := map n | n in moves && n in buffer :: Blob(rows[n].first, rows[n].last, rows[n].raw, buffer[n]);
      BlobsPuttable(base, View(), blobs);
      ok := PutChunks(blobs);
      UntouchedTwice(old(View()), before, View(), m, blobs.Keys, m);
    }

    /** Unlinks archived chunks in order, up to the first failure. */
    method UnlinkAll(pending: seq<nat>) returns (removed: nat)
      requires Valid()
      requires forall n :: n in pending ==> n in rows && (rows[n].Blob? || n in archive)
      modifies this`buffer, this`trace
      ensures Valid() && old(trace) <= trace && removed <= |pending|
      ensures forall i :: 0 <= i < removed ==> pending[i] !in buffer
      ensures removed < |pending| ==> !sound && pending[removed] in buffer
      ensures buffer.Keys <= old(buffer).Keys && Untouched(old(View()), View(), set n | n in pending)
    {
      hide Good, Recorded, Covered, Untouched;
      ghost var m := set n | n in pending;
      UntouchedSelf(View(), m);
      removed := 0;
      var failed := false;
      while !failed && removed < |pending|
        invariant removed <= |pending| && Valid() && old(trace) <= trace
        invariant forall i :: 0 <= i < removed ==> pending[i] !in buffer
        invariant buffer.Keys <= old(buffer).Keys && Untouched(old(View()), View(), m)
        invariant failed ==> !sound && removed < |pending| && pending[removed] in buffer
        decreases if failed then 0 else |pending| - removed, !failed
      {
        ghost var before := View();
        var gone := RemoveBuffer(pending[removed]);
        UntouchedTwice(old(View()), before, View(), m, {pending[removed]}, m);
        if gone {
          removed := removed + 1;
        } else {
          failed := true;
        }
      }
    }

    /** Commits rows for buffered chunks and moves the file chunks among them. */
    method Commit(puts: map<nat, Row>, pending: seq<nat>, moves: seq<nat>) returns (ok: bool)
      requires Valid() && Puttable(View(), puts) && IsBatch(puts, pending, moves)
      modifies this`rows, this`archive, this`buffer, this`trace
      ensures Valid() && old(trace) <= trace
      ensures old(rows).Keys <= rows.Keys <= old(rows).Keys + puts.Keys
      ensures ok ==> forall n :: n in puts ==> n in rows && (rows[n].Blob? || n in archive)
      ensures buffer.Keys <= old(buffer).Keys && Untouched(old(View()), View(), puts.Keys) && (sound ==> ok)
    {
      hide Good, Recorded, Covered, Puttable, IsBatch, Untouched;
      UntouchedSelf(View(), puts.Keys);
      var unsynced := Fault(); // chunks left by an earlier process are synced first
      if unsynced { return false; }
      BatchMoves(View(), puts, pending, moves);
      ghost var m, p := set n | n in moves, set n | n in pending;
      BatchSets(puts, pending, moves, m, p);
      ok := PutChunks(puts);
      ghost var put := View();
      if ok {
        ok := PlaceFiles(moves);
        UntouchedTwice(old(View()), put, View(), puts.Keys, m, puts.Keys);
        if ok { AllPlaced(put, View(), puts, pending, moves, m); }
      }
    }

    /**
     Commits rows for buffered chunks, moves their files, then unlinks them in order.
     The buffer is touched only after the commit succeeded.
     */
    method Transfer(puts: map<nat, Row>, pending: seq<nat>, moves: seq<nat>) returns (ok: bool, removed: nat)
      requires Valid() && Puttable(View(), puts) && IsBatch(puts, pending, moves)
      modifies this`rows, this`archive, this`buffer, this`trace
      ensures Valid() && old(trace) <= trace && removed <= |pending| && (!ok ==> removed == 0)
      ensures old(rows).Keys <= rows.Keys <= old(rows).Keys + puts.Keys
      ensures ok ==> forall n :: n in puts ==> n in rows && (rows[n].Blob? || n in archive)
      ensures forall i :: 0 <= i < removed ==> pending[i] !in buffer
      ensures sound ==> ok && removed == |pending|
      ensures buffer.Keys <= old(buffer).Keys && Untouched(old(View()), View(), puts.Keys)
    {
      hide Good, Recorded, Covered, Puttable, IsBatch, Untouched;
      removed := 0;
      ghost var m, p := set n | n in moves, set n | n in pending;
      BatchSets(puts, pending, moves, m, p);
      ok := Commit(puts, pending, moves);
      ghost var placed := View();
      if ok {
        removed := UnlinkAll(pending);
        UntouchedTwice(old(View()), placed, View(), puts.Keys, p, puts.Keys);
      }
    }

    /**
     One checkpoint batch of a live writer: archives the oldest listed chunks up to
     `through`, within the batch limits, and strikes off those it could unlink.  A stuck one
     fails before it changes anything; on sound storage nothing else makes it fail.
     */
    method ArchiveBatch(through: nat) returns (more: bool, ok: bool)
      requires Valid()
      modifies this
      ensures Valid() && base == old(base) && old(trace) <= trace
      ensures Stuck(old(View()), through) ==> !ok && !more && View() == old(View())
      ensures sound ==> (ok <==> !Stuck(old(View()), through))
      ensures Jammed(old(View()), through) ==> Jammed(View(), through)
      ensures ok && Jammed(View(), through) ==> Jammed(old(View()), through)
      ensures more ==> exists n :: n in sealed && n <= through
      ensures ok && !more ==> forall n :: n in sealed ==> n > through
      ensures sealed.Keys <= old(sealed).Keys && (ok && more ==> sealed.Keys < old(sealed).Keys)
      ensures forall n ::
                n in old(sealed) && n !in sealed ==> n in rows && (rows[n].Blob? || n in archive) && n !in buffer
    {
      hide Good, Recorded, Covered, Puttable, IsBatch, Untouched, Stuck, IsGathered, Jammed;
      var puts, pending, moves, gathered := Gather(View(), through);
      if !gathered { return false, false; }
      GatheredPuttable(base, View(), through, puts, pending, moves);
      if pending == [] { return false, true; }
      var stored;
      stored, ok := ArchiveGathered(through, puts, pending, moves);
      more := stored && exists n :: n in sealed && n <= through;
    }

    /** Transfers a gathered batch and strikes off the chunks that left the buffer. */
    method ArchiveGathered(through: nat, puts: map<nat, Row>, pending: seq<nat>, moves: seq<nat>)
      returns (stored: bool, ok: bool)
      requires Valid() && Puttable(View(), puts) && IsGathered(View(), through, puts, pending, moves) && pending != []
      modifies this
      ensures Valid() && base == old(base) && old(trace) <= trace
      ensures (sound ==> ok) && (ok ==> stored)
      ensures Jammed(old(View()), through) ==> Jammed(View(), through)
      ensures ok && Jammed(View(), through) ==> Jammed(old(View()), through)
      ensures sealed.Keys <= old(sealed).Keys && (ok ==> sealed.Keys < old(sealed).Keys)
      ensures forall n ::
                n in old(sealed) && n !in sealed ==> n in rows && (rows[n].Blob? || n in archive) && n !in buffer
    {
      hide Good, Recorded, Covered, Puttable, IsBatch, Untouched, IsGathered, Jammed;
      ghost var t := View();
      GatheredIsBatch(t, through, puts, pending, moves);
      var removed;
      stored, removed := Transfer(puts, pending, moves);
      BatchBuffered(t, through, puts, pending, moves);
      JamHolds(t, View(), puts.Keys, {}, index, through);
      assert sealed - {} == sealed;
      if !stored { return false, false; }
      var gone := set n | n in pending[..removed];
      GoneSet(t, through, puts, pending, moves, removed, gone, buffer);
      ghost var placed := View();
      Unlist(gone);
      var written := WriteIndex();
      ok := written && removed == |pending|;
      JamHolds(t, placed, puts.Keys, gone, index, through);
      if ok { JamEnds(t, placed, index, gone, through); }
    }

    /**
     A checkpoint: batch after batch, until every chunk sealed at its start is archived.  It
     succeeds only if the file of each of them is still in the buffer, and on sound storage
     exactly then.
     */
    method ArchiveWriter(through: nat) returns (ok: bool)
      requires Valid()
      modifies this
      ensures Valid() && base == old(base) && old(trace) <= trace
      ensures ok ==> forall n :: n in sealed ==> n > through
      ensures Jammed(old(View()), through) ==> !ok && Jammed(View(), through)
      ensures sound ==> (ok <==> !Jammed(old(View()), through))
    {
      hide Good, Recorded, Covered;
      var more := true;
      while more
        invariant Valid() && base == old(base) && old(trace) <= trace
        invariant !more ==> forall n :: n in sealed ==> n > through
        invariant Jammed(View(), through) <==> Jammed(old(View()), through)
        decreases sealed.Keys, more
      {
        more, ok := ArchiveBatch(through);
        if !ok { return false; }
      }
      ok := true;
    }

    /** Flushes the sweep's batch; everything in it must also leave the buffer. */
    method Flush(puts: map<nat, Row>, pending: seq<nat>, moves: seq<nat>, ghost n: nat, ghost kept: set<nat>)
        returns (ok: bool)
      requires Valid() && Swept(View(), n, puts, kept) && IsBatch(puts, pending, moves)
      modifies this`rows, this`archive, this`buffer, this`trace
      ensures Valid() && old(trace) <= trace && buffer.Keys <= old(buffer).Keys
      ensures (ok ==> Swept(View(), n, map[], kept)) && (sound ==> ok)
      ensures ok ==> forall i :: 0 <= i < |pending| ==> pending[i] !in buffer
      ensures Untouched(old(View()), View(), puts.Keys)
    {
      hide Good, Recorded, Covered, Puttable, IsBatch, Untouched, Swept;
      UntouchedSelf(View(), puts.Keys);
      if pending == [] {
        EmptyBatch(puts, pending, moves);
        return true;
      }
      SweptPuttable(View(), n, puts, kept);
      var removed;
      ok, removed := Transfer(puts, pending, moves);
      if ok { SweptAfter(base, old(View()), View(), n, puts, kept); }
      ok := ok && removed == |pending|;
    }

    /** Copies a damaged chunk to the quarantine. */
    method Preserve(n: nat) returns (ok: bool)
      requires n in buffer
      modifies this`quarantine
      ensures quarantine == (if ok then old(quarantine)[n := buffer[n]] else old(quarantine)) && (sound ==> ok)
    {
      var failed := Fault();
      ok := !failed;
      if ok { quarantine := quarantine[n := buffer[n]]; }
    }

    /** Moves a chunk with no decodable frame to the quarantine. */
    method SetAside(n: nat) returns (ok: bool)
      requires Valid() && Safe(View(), n) && n in buffer
      modifies this`buffer, this`trace, this`quarantine
      ensures Valid() && old(trace) <= trace
      ensures buffer == if ok then old(buffer) - {n} else old(buffer)
      ensures quarantine == old(quarantine) || quarantine == old(quarantine)[n := old(buffer)[n]]
      ensures (ok ==> n in quarantine && quarantine[n] == old(buffer)[n]) && (sound ==> ok)
      ensures Untouched(old(View()), View(), {n})
    {
      hide Good, Recorded, Covered, Safe, Untouched;
      UntouchedSelf(View(), {n});
      ok := Preserve(n);
      if ok { ok := RemoveBuffer(n); }
    }

    /** Removes the whole buffer directory, or some of it. */
    method RemoveDir() returns (ok: bool)
      requires Valid() && forall n :: n in buffer ==> Safe(View(), n)
      modifies this`buffer, this`index, this`trace
      ensures Valid() && old(trace) <= trace
      ensures (ok ==> buffer == map[] && index == map[]) && (sound ==> ok)
    {
      hide Good, Recorded, Covered, Safe;
      var failed := Fault();
      ok := !failed;
      var left: set<nat> := *;
      var unindexed: bool := *;
      if ok { left, unindexed := {}, true; }
      var gone := buffer.Keys - left;
      RemoveDirGood(base, View(), gone, unindexed);
      buffer := buffer - gone;
      if unindexed { index := map[]; }
      Observe(old(View()));
    }

    /** Flushes the batch if it is full or, for a row that holds the bytes, could not take `need` more of them. */
    method MakeRoom(b: Batch, held: bool, need: nat, ghost n: nat, ghost kept: set<nat>) returns (c: Batch, ok: bool)
      requires Valid() && Swept(View(), n, b.puts, kept) && Ready(b, n) && n in buffer
      modifies this`rows, this`archive, this`buffer, this`trace
      ensures Valid() && old(trace) <= trace
      ensures buffer.Keys <= old(buffer).Keys && n in buffer && buffer[n] == old(buffer)[n]
      ensures (ok ==> Swept(View(), n, c.puts, kept) && Ready(c, n)) && (sound ==> ok)
      ensures Untouched(old(View()), View(), b.puts.Keys) && c.puts.Keys <= b.puts.Keys
      ensures if |b.pending| < BATCH_CHUNKS && (!held || b.pending == [] || b.size + need <= BATCH_BYTES)
              then ok && c == b && View() == old(View()) else c == EMPTY
    {
      hide Good, Recorded, Covered, Swept, Untouched, IsBatch;
      UntouchedSelf(View(), b.puts.Keys);
      if |b.pending| < BATCH_CHUNKS && (!held || b.pending == [] || b.size + need <= BATCH_BYTES) {
        return b, true;
      }
      ReadyPuts(b, n);
      ok := Flush(b.puts, b.pending, b.moves, n, kept);
      UntouchedFile(old(View()), View(), b.puts.Keys, n);
      c := EMPTY;
      ReadyEmpty(n);
    }

    /** The sweep stands before file n of the buffer it found. */
    ghost predicate Sweeping(was: map<nat, Stream>, b: Batch, n: nat, kept: set<nat>, clean: bool)
      reads this
    {
      && Valid() && Swept(View(), n, b.puts, kept) && Ready(b, n) && InLimits(b)
      && Ahead(was, buffer, n) && Preserved(was, View(), quarantine, b.puts.Keys, n, clean)
    }

    /** Puts buffer file n into the batch, salvages it, sets it aside, or keeps it as damaged. */
    method SweepFile(n: nat, b: Batch, ghost kept: set<nat>, ghost was: map<nat, Stream>, ghost clean: bool)
        returns (c: Batch, ghost damaged: set<nat>, failed: bool, ok: bool)
      requires Sweeping(was, b, n, kept, clean) && n in buffer
      modifies this`rows, this`archive, this`buffer, this`trace, this`quarantine
      ensures Valid() && old(trace) <= trace && buffer.Keys <= old(buffer).Keys
      ensures ok ==> Sweeping(was, c, n + 1, damaged, clean && !failed)
      ensures kept <= damaged && (!failed ==> damaged == kept) && (sound ==> ok && !failed)
      ensures Preserved(was, View(), quarantine, c.puts.Keys, 0, false)
    {
      hide Good, Recorded, Covered, Swept, Ready, TruthfulRow, Untouched, Safe, Ahead, Preserved;
      damaged, failed := kept, false;
      var file := buffer[n];
      var size := |file.bytes|;
      ghost var before := View();
      ReadyPuts(b, n);
      c, ok := MakeRoom(b, !(n in index && size >= FILE_CHUNK_MIN), size, n, kept);
      FlushPreserves(was, before, View(), quarantine, b.puts.Keys, c.puts.Keys, n, clean);
      PreservedStill(was, View(), quarantine, c.puts.Keys, n, clean);
      if !ok { return; }
      if n in index {
        var m := index[n];
        IndexedRow(base, View(), n, size);
        var row := if size >= FILE_CHUNK_MIN then File(m.first, m.last, m.raw, size)
        else Blob(m.first, m.last, m.raw, file);
        SidePreserves(was, View(), View(), quarantine, quarantine, c.puts.Keys, n, clean, false);
        c := AddRow(n, c, row, kept, was, clean);
      } else if file.frames == [] {
        failed := SweepEmpty(n, c, kept, was, clean);
      } else {
        c, damaged, failed, ok := SweepSalvaged(n, c, kept, was, clean);
      }
    }

    /** Adds a row to the batch; a broken chunk has been preserved before. */
    method AddRow(n: nat, b: Batch, row: Row, ghost kept: set<nat>, ghost was: map<nat, Stream>, ghost clean: bool)
        returns (c: Batch)
      requires Valid() && Swept(View(), n, b.puts, kept) && Ready(b, n) && n in buffer && TruthfulRow(View(), n, row)
      requires Ahead(was, buffer, n + 1) && Preserved(was, View(), quarantine, b.puts.Keys, n + 1, clean)
      requires n in was && Broken(index, n, was[n]) ==> n in quarantine && quarantine[n] == was[n]
      requires InLimits(b) && |b.pending| < BATCH_CHUNKS
      requires row.Blob? ==> b.pending == [] || b.size + |row.blob.bytes| <= BATCH_BYTES
      ensures Sweeping(was, c, n + 1, kept, clean) && Preserved(was, View(), quarantine, c.puts.Keys, 0, false)
    {
      hide Good, Recorded, Covered, Swept, Ready, TruthfulRow, Ahead, Preserved;
      ReadyPuts(b, n);
      var total := if row.Blob? then b.size + |row.blob.bytes| else b.size;
      SweptAdd(View(), b, n, row, total, kept);
      AddPreserves(was, View(), quarantine, b.puts.Keys, n, clean);
      c := Batch(b.puts[n := row], b.pending + [n], if row.File? then b.moves + [n] else b.moves, total);
      assert c.puts.Keys == b.puts.Keys + {n};
      PreservedStill(was, View(), quarantine, c.puts.Keys, n + 1, clean);
    }

    /** A chunk without a frame: left for the removal of the directory if it is empty, else set aside. */
    method SweepEmpty(n: nat, b: Batch, ghost kept: set<nat>, ghost was: map<nat, Stream>, ghost clean: bool)
        returns (failed: bool)
      requires Sweeping(was, b, n, kept, clean) && n in buffer && n !in index && buffer[n].frames == []
      modifies this`buffer, this`trace, this`quarantine
      ensures Sweeping(was, b, n + 1, kept, clean && !failed) && old(trace) <= trace && (sound ==> !failed)
      ensures buffer.Keys <= old(buffer).Keys && Preserved(was, View(), quarantine, b.puts.Keys, 0, false)
    {
      hide Good, Recorded, Covered, Swept, Ready, TruthfulRow, Untouched, Safe, Ahead, Preserved;
      failed := false;
      EmptyIsSafe(base, View(), n);
      if !buffer[n].end.Clean? {
        var aside := SetAside(n);
        failed := !aside;
        SweptElsewhere(base, old(View()), View(), n, b.puts, kept);
        EmptyIsSafe(base, View(), n);
      }
      SidePreserves(was, old(View()), View(), old(quarantine), quarantine, b.puts.Keys, n, clean, failed);
      PreservedStill(was, View(), quarantine, b.puts.Keys, n + 1, clean && !failed);
      SweptSkip(View(), b, n, kept, kept);
    }

    /** An unlisted chunk with frames: its readable prefix is encoded anew. */
    method SweepSalvaged(n: nat, b: Batch, ghost kept: set<nat>, ghost was: map<nat, Stream>, ghost clean: bool)
        returns (c: Batch, ghost damaged: set<nat>, failed: bool, ok: bool)
      requires Sweeping(was, b, n, kept, clean) && n in buffer && n !in index && buffer[n].frames != []
      modifies this`rows, this`archive, this`buffer, this`trace, this`quarantine
      ensures Valid() && old(trace) <= trace && buffer.Keys <= old(buffer).Keys
      ensures ok ==> Sweeping(was, c, n + 1, damaged, clean && !failed)
      ensures kept <= damaged && (!failed ==> damaged == kept) && (sound ==> ok && !failed)
      ensures Preserved(was, View(), quarantine, c.puts.Keys, 0, false)
    {
      hide Good, Recorded, Covered, Swept, Ready, TruthfulRow, Untouched, Safe, Ahead, Preserved;
      c, damaged, ok := b, kept, true;
      var file := buffer[n];
      var copied := true;
      if file.end.CorruptEnd? { copied := Preserve(n); } // it is archived only once its original is preserved
      failed := !copied;
      AheadAt(was, buffer, n);
      SidePreserves(was, View(), View(), old(quarantine), quarantine, b.puts.Keys, n, clean, failed);
      PreservedStill(was, View(), quarantine, b.puts.Keys, n + 1, clean && !failed);
      if failed {
        damaged := kept + {n};
        DamagedKept(base, View(), n);
        SweptSkip(View(), b, n, kept, damaged);
        return;
      }
      c, ok := AddSalvaged(n, b, kept, was, clean);
    }

    /** Adds the readable prefix of a chunk, encoded anew, to the batch. */
    method AddSalvaged(n: nat, b: Batch, ghost kept: set<nat>, ghost was: map<nat, Stream>, ghost clean: bool)
        returns (c: Batch, ok: bool)
      requires Valid() && Swept(View(), n, b.puts, kept) && Ready(b, n) && InLimits(b)
      requires n in buffer && n !in index && buffer[n].frames != []
      requires Ahead(was, buffer, n + 1) && Preserved(was, View(), quarantine, b.puts.Keys, n + 1, clean)
      requires n in was && Broken(index, n, was[n]) ==> n in quarantine && quarantine[n] == was[n]
      modifies this`rows, this`archive, this`buffer, this`trace
      ensures Valid() && old(trace) <= trace && buffer.Keys <= old(buffer).Keys && (sound ==> ok)
      ensures ok ==> Sweeping(was, c, n + 1, kept, clean)
      ensures Preserved(was, View(), quarantine, c.puts.Keys, 0, false)
    {
      hide Good, Recorded, Covered, Swept, Ready, TruthfulRow, Untouched, Safe, Ahead, Preserved, Broken;
      var file := buffer[n];
      var bytes := EncodeFrames(file.frames);
      var raw := Bytes(file.frames, |file.frames|);
      ReadyPuts(b, n);
      c, ok := MakeRoom(b, true, |bytes|, n, kept);
      FlushPreserves(was, old(View()), View(), quarantine, b.puts.Keys, c.puts.Keys, n + 1, clean);
      PreservedStill(was, View(), quarantine, c.puts.Keys, n + 1, clean);
      if !ok { return; }
      SalvagedRow(base, View(), n, raw, bytes);
      var row := Blob(file.frames[0].sequence, file.frames[|file.frames| - 1].sequence, raw,
                      Stream(bytes, file.frames, Clean));
      c := AddRow(n, c, row, kept, was, clean);
    }

    /**
     The orphan sweep of a run without a writer.  When it succeeds the buffer is gone
     and the run reads exactly as before, from the archive alone.  On sound storage only an
     invalid index makes it fail.  A broken chunk never leaves the buffer before its bytes
     are in the quarantine.
     */
    method ArchiveOrphan(hi: nat, valid: bool) returns (ok: bool)
      requires Valid() && Below(View(), hi)
      modifies this
      ensures Valid() && base == old(base) && old(trace) <= trace
      ensures ok ==> buffer == map[] && index == map[]
      ensures !valid ==> !ok && View() == old(View()) && quarantine == old(quarantine)
      ensures sound && valid ==> ok
      ensures forall n :: n in old(buffer) && Broken(old(index), n, old(buffer)[n]) ==>
                || (n in quarantine && quarantine[n] == old(buffer)[n])
                || (n in buffer && buffer[n] == old(buffer)[n])
    {
      hide Good, Recorded, Covered, Swept, Ready, Safe, IsBatch, Broken, Preserved;
      if !valid { return false; } // an unreadable or invalid index
      var b, failed;
      ghost var kept;
      b, kept, failed, ok := SweepFiles(hi);
      PreservedMeans(old(buffer), View(), quarantine, b.puts.Keys, hi, ok && !failed);
      if !ok { return; }
      ReadyPuts(b, hi);
      ghost var before := View();
      ok := Flush(b.puts, b.pending, b.moves, hi, kept);
      FlushPreserves(old(buffer), before, View(), quarantine, b.puts.Keys, {}, hi, !failed);
      PreservedMeans(old(buffer), View(), quarantine, {}, hi, !failed);
      if !ok || failed { return false; }
      SweptAll(View(), hi, kept);
      ok := RemoveDir();
    }

    /** Goes through the buffer files in order, flushing full batches. */
    method SweepFiles(hi: nat) returns (b: Batch, ghost kept: set<nat>, failed: bool, ok: bool)
      requires Valid()
      modifies this`rows, this`archive, this`buffer, this`trace, this`quarantine
      ensures Valid() && old(trace) <= trace && buffer.Keys <= old(buffer).Keys
      ensures ok ==> Swept(View(), hi, b.puts, kept) && Ready(b, hi) && (!failed ==> kept == {})
      ensures (sound ==> ok && !failed) && (ok ==> Ahead(old(buffer), buffer, hi))
      ensures Preserved(old(buffer), View(), quarantine, b.puts.Keys, hi, ok && !failed)
    {
      hide Good, Recorded, Covered, Swept, Ready, Safe, Ahead, Preserved;
      b, kept, failed, ok := EMPTY, {}, false, true;
      SweptNone(View());
      ReadyEmpty(0);
      NonePreserved(View(), quarantine);
      assert b.puts.Keys == {};
      for n := 0 to hi
        invariant Sweeping(old(buffer), b, n, kept, !failed)
        invariant old(trace) <= trace && buffer.Keys <= old(buffer).Keys && ok
        invariant (!failed ==> kept == {}) && (sound ==> !failed)
      {
        if n in buffer {
          var bad;
          b, kept, bad, ok := SweepFile(n, b, kept, old(buffer), !failed);
          if !ok {
            PreservedStill(old(buffer), View(), quarantine, b.puts.Keys, 0, false);
            return;
          }
          failed := failed || bad;
        } else {
          SweptSkip(View(), b, n, kept, kept);
          SkipPreserves(old(buffer), View(), quarantine, b.puts.Keys, n, !failed);
        }
      }
    }
  }

  // ---------------------------------------------------------------- nothing unreadable is thrown away

  /** A chunk that is not listed and does not decode to its end, beyond what a crash leaves behind. */
  predicate Broken(index: map<nat, Meta>, n: nat, file: Stream) {
    n !in index && (file.end.CorruptEnd? || (file.frames == [] && !file.end.Clean?))
  }

  /**
   Each broken chunk of the buffer as it was is in the quarantine, or still in the buffer and
   not about to leave; once n chunks went by without a failure, those are in the quarantine.
   */
  ghost predicate Preserved(was: map<nat, Stream>, t: Tiers, q: map<nat, Stream>, puts: set<nat>, n: nat, clean: bool) {
    forall m :: m in was && Broken(t.index, m, was[m]) ==>
      || (m in q && q[m] == was[m])
      || (m in t.buffer && t.buffer[m] == was[m] && m !in puts && (clean ==> m >= n))
  }

  /** The sweep has not changed the buffer from chunk n on. */
  ghost predicate Ahead(was: map<nat, Stream>, buffer: map<nat, Stream>, n: nat) {
    forall m: nat :: m >= n ==> (m in buffer <==> m in was) && (m in was ==> buffer[m] == was[m])
  }

  lemma {:induction false} NonePreserved(t: Tiers, q: map<nat, Stream>)
    ensures Ahead(t.buffer, t.buffer, 0) && Preserved(t.buffer, t, q, {}, 0, true)
  {
  }

  lemma {:induction false} AheadAt(was: map<nat, Stream>, buffer: map<nat, Stream>, n: nat)
    requires Ahead(was, buffer, n)
    ensures n in buffer <==> n in was
    ensures n in was ==> buffer[n] == was[n]
  {
  }

  lemma {:induction false} PreservedStill(was: map<nat, Stream>, t: Tiers, q: map<nat, Stream>, puts: set<nat>,
        n: nat, clean: bool)
    requires Preserved(was, t, q, puts, n, clean)
    ensures forall k: nat :: Preserved(was, t, q, puts, k, false)
  {
  }

  lemma {:induction false} PreservedMeans(was: map<nat, Stream>, t: Tiers, q: map<nat, Stream>, puts: set<nat>,
        n: nat, clean: bool)
    requires Preserved(was, t, q, puts, n, clean)
    ensures forall m :: m in was && Broken(t.index, m, was[m]) ==>
              || (m in q && q[m] == was[m])
              || (m in t.buffer && t.buffer[m] == was[m] && (clean ==> m >= n))
  {
  }

  lemma {:induction false} FlushPreserves(was: map<nat, Stream>, t: Tiers, u: Tiers, q: map<nat, Stream>,
        puts: set<nat>, left: set<nat>,
                       n: nat, clean: bool)
    requires Preserved(was, t, q, puts, n, clean) && Untouched(t, u, puts) && u.index == t.index && left <= puts
    requires Ahead(was, t.buffer, n) && forall m :: m in puts ==> m < n
    ensures Preserved(was, u, q, left, n, clean) && Ahead(was, u.buffer, n)
  {
  }

  lemma {:induction false} SkipPreserves(was: map<nat, Stream>, t: Tiers, q: map<nat, Stream>, puts: set<nat>, n: nat,
        clean: bool)
    requires Preserved(was, t, q, puts, n, clean) && Ahead(was, t.buffer, n) && n !in t.buffer
    ensures Preserved(was, t, q, puts, n + 1, clean) && Ahead(was, t.buffer, n + 1)
  {
  }

  lemma {:induction false} SidePreserves(was: map<nat, Stream>, t: Tiers, u: Tiers, q: map<nat, Stream>, r: map<nat,
        Stream>,
                      puts: set<nat>, n: nat, clean: bool, failed: bool)
    requires Preserved(was, t, q, puts, n, clean) && Ahead(was, t.buffer, n) && n in t.buffer && u.index == t.index
    requires u.buffer == t.buffer || (u.buffer == t.buffer - {n} && n in r && r[n] == t.buffer[n])
    requires r == q || r == q[n := t.buffer[n]]
    requires !failed && Broken(t.index, n, t.buffer[n]) ==> n in r && r[n] == t.buffer[n]
    ensures Preserved(was, u, r, puts, n + 1, clean && !failed) && Ahead(was, u.buffer, n + 1)
  {
  }

  lemma {:induction false} AddPreserves(was: map<nat, Stream>, t: Tiers, q: map<nat, Stream>, puts: set<nat>, n: nat,
        clean: bool)
    requires Preserved(was, t, q, puts, n + 1, clean)
    requires n in was && Broken(t.index, n, was[n]) ==> n in q && q[n] == was[n]
    ensures Preserved(was, t, q, puts + {n}, n + 1, clean)
  {
  }

  /** Chunks waiting for one archive transaction: their rows, in order, and their accounted bytes. */
  datatype Batch = Batch(puts: map<nat, Row>, pending: seq<nat>, moves: seq<nat>, size: nat)

  const EMPTY := Batch(map[], [], [], 0)

  /** At most a batch of chunks; of bytes no more than the limit, unless the first chunk alone has more. */
  predicate InLimits(b: Batch) {
    && |b.pending| <= BATCH_CHUNKS && (b.pending == [] ==> b.size == 0)
    && (|| b.size <= BATCH_BYTES
        || (&& b.pending != [] && b.pending[0] in b.puts && b.puts[b.pending[0]].Blob?
            && b.size == |b.puts[b.pending[0]].blob.bytes|))
  }

  ghost predicate Ready(b: Batch, n: nat) {
    && IsBatch(b.puts, b.pending, b.moves)
    && (forall i :: 0 <= i < |b.pending| ==> b.pending[i] < n)
    && (forall i :: 0 <= i < |b.moves| ==> b.moves[i] < n)
  }

  lemma {:induction false} ReadyEmpty(n: nat)
    ensures Ready(EMPTY, n)
  {
  }

  lemma {:induction false} ReadyPuts(b: Batch, n: nat)
    requires Ready(b, n)
    ensures IsBatch(b.puts, b.pending, b.moves) && forall m :: m in b.puts ==> m < n
  {
    forall m | m in b.puts ensures m < n { assert m in b.pending; }
  }

  lemma {:induction false} UntouchedFile(t: Tiers, u: Tiers, s: set<nat>, n: nat)
    requires Untouched(t, u, s) && n !in s && n in t.buffer
    ensures n in u.buffer && u.buffer[n] == t.buffer[n]
  {
  }

  lemma {:induction false} SweptNone(t: Tiers)
    ensures Swept(t, 0, map[], {})
  {
  }

  lemma {:induction false} SweptAll(t: Tiers, hi: nat, kept: set<nat>)
    requires Swept(t, hi, map[], kept) && kept == {}
    requires forall n :: n in t.buffer ==> n < hi
    ensures forall n :: n in t.buffer ==> Safe(t, n)
  {
  }

  lemma {:induction false} SweptSkip(t: Tiers, b: Batch, n: nat, kept: set<nat>, damaged: set<nat>)
    requires Swept(t, n, b.puts, kept) && Ready(b, n) && kept <= damaged
    requires n in t.buffer ==> Safe(t, n) || (n in damaged && !Intact(t, n))
    ensures Swept(t, n + 1, b.puts, damaged) && Ready(b, n + 1)
  {
  }

  lemma {:induction false} SweptAdd(t: Tiers, b: Batch, n: nat, row: Row, size: nat, kept: set<nat>)
    requires Swept(t, n, b.puts, kept) && Ready(b, n) && TruthfulRow(t, n, row)
    ensures Swept(t, n + 1, b.puts[n := row], kept)
    ensures Ready(Batch(b.puts[n := row], b.pending + [n], if row.File? then b.moves + [n] else b.moves, size), n + 1)
  {
    hide TruthfulRow, Safe;
    AddToBatch(b.puts, b.pending, b.moves, n, row);
    hide IsBatch;
  }

  /** Setting file n aside leaves what the sweep knows about the others. */
  lemma {:induction false} SweptElsewhere(base: Tiers, t: Tiers, u: Tiers, n: nat, puts: map<nat, Row>, kept: set<nat>)
    requires Good(base, t) && Good(base, u) && Swept(t, n, puts, kept) && Untouched(t, u, {n})
    requires u.index == t.index && u.sealed == t.sealed
    ensures Swept(u, n, puts, kept)
  {
    hide Inv, AllFaithful, Same;
    forall m | m in puts ensures TruthfulRow(u, m, puts[m]) { RowElsewhere(t, u, n, m, puts[m]); }
    hide TruthfulRow;
    forall m | m in u.buffer && m < n && m !in puts ensures Safe(u, m) || (m in kept && !Intact(u, m)) {
      assert Stored(u, m) == Stored(t, m);
    }
  }

  lemma {:induction false} RowElsewhere(t: Tiers, u: Tiers, n: nat, m: nat, row: Row)
    requires TruthfulRow(t, m, row) && Untouched(t, u, {n}) && m != n && u.index == t.index && u.sealed == t.sealed
    ensures TruthfulRow(u, m, row)
  {
    hide UpTo, Faithful;
    assert (m in u.rows <==> m in t.rows) && m in u.buffer;
    assert Content(u, m) == Content(t, m);
    assert Mark(u, m, row.last) == Mark(t, m, row.last);
  }

  lemma {:induction false} EmptyIsSafe(base: Tiers, t: Tiers, n: nat)
    requires Good(base, t)
    ensures n in t.buffer && t.buffer[n].frames == [] ==> Safe(t, n)
  {
    Parts(t);
    hide Inv, Ordered, Bounded, RowsFirst, AllFaithful, Same;
  }

  lemma {:induction false} DamagedKept(base: Tiers, t: Tiers, n: nat)
    requires Good(base, t) && n in t.buffer && t.buffer[n].end.CorruptEnd?
    ensures Safe(t, n) || !Intact(t, n)
  {
  }

  lemma {:induction false} IndexedRow(base: Tiers, t: Tiers, n: nat, size: nat)
    requires Good(base, t) && n in t.buffer && n in t.index
    ensures var m := t.index[n];
            TruthfulRow(t, n, File(m.first, m.last, m.raw, size))
                && TruthfulRow(t, n, Blob(m.first, m.last, m.raw, t.buffer[n]))
  {
    Parts(t);
    hide Inv, Ordered, RowsFirst, Same, Faithful;
  }

  /** A chunk the index does not list is archived as its re-encoded intact frames. */
  lemma {:induction false} SalvagedRow(base: Tiers, t: Tiers, n: nat, raw: nat, bytes: seq<byte>)
    requires Good(base, t) && n in t.buffer && t.buffer[n].frames != [] && bytes == EncodeAll(t.buffer[n].frames)
    ensures var fs := t.buffer[n].frames;
            TruthfulRow(t, n, Blob(fs[0].sequence, fs[|fs| - 1].sequence, raw, Stream(bytes, fs, Clean)))
  {
    hide Inv, AllFaithful, Same, Salvage, EncodeAll;
    var fs := t.buffer[n].frames;
    SalvagedContent(t, n);
    Reencode(t.buffer[n].bytes);
    hide Content;
  }

  lemma {:induction false} SalvagedContent(t: Tiers, n: nat)
    requires Inv(t) && AllFaithful(t) && n in t.buffer && t.buffer[n].frames != []
    ensures var fs := t.buffer[n].frames;
            && Content(t, n) == fs && Faithful(t.buffer[n])
            && Mark(t, n, fs[|fs| - 1].sequence) && UpTo(fs, fs[|fs| - 1].sequence)
  {
    hide Ordered, Bounded, RowsFirst, Salvage;
    var fs := t.buffer[n].frames;
    assert Content(t, n) == fs && Increasing(Content(t, n));
    assert fs[|fs| - 1].sequence == Content(t, n)[|fs| - 1].sequence;
  }

  /**
   The sweep has looked at every buffer file below n.  Those it did not put in the
   batch are archived, empty, or damaged chunks it had to keep.
   */
  ghost predicate Swept(t: Tiers, n: nat, puts: map<nat, Row>, kept: set<nat>) {
    && (forall m :: m in puts ==> m < n && TruthfulRow(t, m, puts[m]))
    && (forall m :: m in t.buffer && m < n && m !in puts ==> Safe(t, m) || (m in kept && !Intact(t, m)))
  }

  ghost predicate TruthfulRow(t: Tiers, n: nat, row: Row) {
    && n in t.buffer && Mark(t, n, row.last) && UpTo(Content(t, n), row.last)
    && (row.Blob? ==> row.blob.frames == Content(t, n) && Faithful(row.blob))
  }

  lemma {:induction false} SweptPuttable(t: Tiers, n: nat, puts: map<nat, Row>, kept: set<nat>)
    requires Swept(t, n, puts, kept)
    ensures Puttable(t, puts)
  {
  }

  lemma {:induction false} EmptyBatch(puts: map<nat, Row>, pending: seq<nat>, moves: seq<nat>)
    requires IsBatch(puts, pending, moves) && pending == []
    ensures puts == map[]
  {
    assert forall n :: n in puts ==> n in pending;
  }

  lemma {:induction false} SweptAfter(base: Tiers, t: Tiers, u: Tiers, n: nat, puts: map<nat, Row>, kept: set<nat>)
    requires Good(base, t) && Good(base, u) && Swept(t, n, puts, kept) && Untouched(t, u, puts.Keys)
    requires u.buffer.Keys <= t.buffer.Keys
    requires forall m :: m in puts ==> m in u.rows && (u.rows[m].Blob? || m in u.archive)
    ensures Swept(u, n, map[], kept)
  {
    hide Inv, AllFaithful, Mark, UpTo;
    forall m | m in u.buffer && m < n ensures Safe(u, m) || (m in kept && !Intact(u, m)) {
      assert Content(base, m) == Content(t, m) && Content(base, m) == Content(u, m);
      if m !in puts { assert Stored(u, m) == Stored(t, m); }
    }
  }

  lemma {:induction false} RemoveDirGood(base: Tiers, t: Tiers, gone: set<nat>, unindexed: bool)
    requires Good(base, t) && Covered(t) && forall n :: n in t.buffer ==> Safe(t, n)
    ensures var u := t.(buffer := t.buffer - gone, index := if unindexed then map[] else t.index);
            Good(base, u) && Covered(u)
  {
    hide Good, Covered, Safe;
    DropGood(base, t, gone, if unindexed then map[] else t.index, t.sealed);
  }

  /** How many chunks are listed below n, and the bytes to copy of the small ones among them. */
  function ListedBelow(t: Tiers, n: nat): nat {
    if n == 0 then 0 else ListedBelow(t, n - 1) + (if n - 1 in t.sealed then 1 else 0)
  }

  function CopiedBelow(t: Tiers, n: nat): nat {
    if n == 0 then 0
    else
      var copied := n - 1 in t.sealed && t.sealed[n - 1].bytes < FILE_CHUNK_MIN && n - 1 in t.buffer;
      CopiedBelow(t, n - 1) + (if copied then |t.buffer[n - 1].bytes| else 0)
  }

  /** A batch that took every listed chunk below n has room for n. */
  predicate HasRoom(t: Tiers, n: nat)
    requires n in t.sealed
  {
    && ListedBelow(t, n) < BATCH_CHUNKS
    && (|| t.sealed[n].bytes >= FILE_CHUNK_MIN
        || ListedBelow(t, n) == 0
        || CopiedBelow(t, n) + t.sealed[n].bytes <= BATCH_BYTES)
  }

  /** The next batch gets as far as chunk n. */
  ghost predicate WithinLimits(t: Tiers, n: nat) { forall k :: k in t.sealed && k <= n ==> HasRoom(t, k) }

  /** The file of some chunk listed up to the checkpoint is gone from the buffer. */
  ghost predicate Jammed(t: Tiers, through: nat) { exists n :: n in t.sealed && n <= through && n !in t.buffer }

  /** The next batch gets as far as the first such chunk. */
  ghost predicate Stuck(t: Tiers, through: nat) {
    exists n :: && n in t.sealed && n <= through && n !in t.buffer && WithinLimits(t, n)
                && forall k :: k in t.sealed && k < n ==> k in t.buffer
  }

  /** The row the list entry of a buffered chunk asks for. */
  function RowFor(t: Tiers, n: nat): (row: Row)
    requires n in t.sealed && n in t.buffer
    ensures row.last == t.sealed[n].last && (row.Blob? ==> row.blob == t.buffer[n])
  {
    var m := t.sealed[n];
    if m.bytes >= FILE_CHUNK_MIN then File(m.first, m.last, m.raw, m.bytes)
    else Blob(m.first, m.last, m.raw, t.buffer[n])
  }

  /** The batch holds every listed chunk below `bound` and nothing else, as the list describes it. */
  ghost predicate Gathered(t: Tiers, bound: nat, puts: map<nat, Row>) {
    && (forall n :: n in puts ==> n < bound && n in t.sealed && n in t.buffer && puts[n] == RowFor(t, n))
    && (forall n :: n in t.sealed && n < bound ==> n in puts)
  }

  /** The gathered batch holds exactly the chunks within the limits, and only an empty list makes it empty. */
  ghost predicate IsGathered(t: Tiers, through: nat, puts: map<nat, Row>, pending: seq<nat>, moves: seq<nat>) {
    && IsBatch(puts, pending, moves)
    && (exists bound ::
          0 <= bound <= through + 1 && Gathered(t, bound, puts) && (pending == [] ==> bound == through + 1))
    && (forall n :: n in puts <==> n in t.sealed && n <= through && WithinLimits(t, n))
  }

  lemma {:induction false} AddToBatch(puts: map<nat, Row>, pending: seq<nat>, moves: seq<nat>, n: nat, row: Row)
    requires IsBatch(puts, pending, moves)
    requires (forall i :: 0 <= i < |pending| ==> pending[i] < n) && (forall i :: 0 <= i < |moves| ==> moves[i] < n)
    ensures IsBatch(puts[n := row], pending + [n], if row.File? then moves + [n] else moves)
  {
    assert n !in pending && n !in moves;
  }

  lemma {:induction false} GatheredStep(t: Tiers, n: nat, puts: map<nat, Row>, row: Row)
    requires Gathered(t, n, puts) && n in t.sealed && n in t.buffer && row == RowFor(t, n)
    ensures Gathered(t, n + 1, puts[n := row])
  {
  }

  lemma {:induction false} GatheredSkip(t: Tiers, n: nat, puts: map<nat, Row>)
    requires Gathered(t, n, puts) && n !in t.sealed
    ensures Gathered(t, n + 1, puts)
  {
  }

  /** The batch took everything listed below n, and the limits allowed it. */
  ghost predicate Filled(t: Tiers, n: nat, b: Batch) {
    && |b.pending| == ListedBelow(t, n) && b.size == CopiedBelow(t, n)
    && forall k :: k in t.sealed && k < n ==> k in t.buffer && HasRoom(t, k)
  }

  /**
   Collects the oldest listed chunks up to the batch limits: large ones to move, small ones to
   copy.  It fails exactly if the first of them whose file is gone lies within the limits.
   */
  method Gather(t: Tiers, through: nat) returns (puts: map<nat, Row>, pending: seq<nat>, moves: seq<nat>, ok: bool)
    ensures ok ==> IsGathered(t, through, puts, pending, moves)
    ensures !ok <==> Stuck(t, through)
  {
    hide Ready, Gathered, IsGathered, IsBatch, RowFor, Filled, Stuck, HasRoom;
    var b, n := EMPTY, 0;
    ReadyEmpty(0);
    NoneGathered(t);
    while n <= through
      invariant n <= through + 1 && Ready(b, n) && Gathered(t, n, b.puts) && Filled(t, n, b)
    {
      if n in t.sealed {
        var room := |b.pending| < BATCH_CHUNKS;
        if t.sealed[n].bytes < FILE_CHUNK_MIN && b.pending != [] && b.size + t.sealed[n].bytes > BATCH_BYTES {
          room := false;
        }
        RoomIs(t, n, b);
        if !room { break; }
        if n !in t.buffer {
          StuckAt(t, through, n, b);
          return b.puts, b.pending, b.moves, false;
        }
        var row := RowFor(t, n);
        var size := if row.Blob? then b.size + |row.blob.bytes| else b.size;
        GatheredAdd(t, n, b, row, size);
        FilledAdd(t, n, b, row, size);
        b := Batch(b.puts[n := row], b.pending + [n], if row.File? then b.moves + [n] else b.moves, size);
      } else {
        GatheredSkip(t, n, b.puts);
        ReadyLater(b, n);
        FilledSkip(t, n, b);
      }
      n := n + 1;
    }
    GatheredSoFar(t, through, n, b);
    return b.puts, b.pending, b.moves, true;
  }

  lemma {:induction false} NoneGathered(t: Tiers)
    ensures Gathered(t, 0, EMPTY.puts) && Filled(t, 0, EMPTY)
  {
    hide HasRoom, RowFor;
  }

  lemma {:induction false} RoomIs(t: Tiers, n: nat, b: Batch)
    requires n in t.sealed && Filled(t, n, b)
    ensures HasRoom(t, n) <==>
            && |b.pending| < BATCH_CHUNKS
            && !(t.sealed[n].bytes < FILE_CHUNK_MIN && b.pending != [] && b.size + t.sealed[n].bytes > BATCH_BYTES)
  {
    hide ListedBelow, CopiedBelow;
  }

  lemma {:induction false} StuckAt(t: Tiers, through: nat, n: nat, b: Batch)
    requires n in t.sealed && n <= through && n !in t.buffer && Filled(t, n, b) && HasRoom(t, n)
    ensures Stuck(t, through)
  {
    hide HasRoom, ListedBelow, CopiedBelow;
    assert WithinLimits(t, n);
  }

  lemma {:induction false} FilledAdd(t: Tiers, n: nat, b: Batch, row: Row, size: nat)
    requires n in t.sealed && n in t.buffer && Filled(t, n, b) && HasRoom(t, n) && row == RowFor(t, n)
    requires size == if row.Blob? then b.size + |row.blob.bytes| else b.size
    ensures var moves := if row.File? then b.moves + [n] else b.moves;
            Filled(t, n + 1, Batch(b.puts[n := row], b.pending + [n], moves, size))
  {
    hide HasRoom;
  }

  lemma {:induction false} FilledSkip(t: Tiers, n: nat, b: Batch)
    requires n !in t.sealed && Filled(t, n, b)
    ensures Filled(t, n + 1, b)
  {
    hide HasRoom;
  }

  lemma {:induction false} GatheredAdd(t: Tiers, n: nat, b: Batch, row: Row, size: nat)
    requires Ready(b, n) && Gathered(t, n, b.puts) && n in t.sealed && n in t.buffer && row == RowFor(t, n)
    ensures Gathered(t, n + 1, b.puts[n := row])
    ensures Ready(Batch(b.puts[n := row], b.pending + [n], if row.File? then b.moves + [n] else b.moves, size), n + 1)
  {
    hide Gathered;
    GatheredStep(t, n, b.puts, row);
    AddToBatch(b.puts, b.pending, b.moves, n, row);
    hide IsBatch;
  }

  lemma {:induction false} ReadyLater(b: Batch, n: nat)
    requires Ready(b, n)
    ensures Ready(b, n + 1)
  {
    hide IsBatch;
  }

  lemma {:induction false} GatheredSoFar(t: Tiers, through: nat, n: nat, b: Batch)
    requires n <= through + 1 && Ready(b, n) && Gathered(t, n, b.puts) && Filled(t, n, b)
    requires n == through + 1 || (n in t.sealed && !HasRoom(t, n))
    ensures IsGathered(t, through, b.puts, b.pending, b.moves) && !Stuck(t, through)
  {
    hide IsBatch, HasRoom, ListedBelow, CopiedBelow;
    assert n <= through ==> !WithinLimits(t, n) && forall k :: k >= n ==> !WithinLimits(t, k);
    if n <= through && b.pending == [] { FirstHasRoom(t, n, b); }
    forall k ensures k in b.puts <==> k in t.sealed && k <= through && WithinLimits(t, k) {
      if k in t.sealed && k < n { assert WithinLimits(t, k); }
    }
    hide WithinLimits;
    assert Gathered(t, n, b.puts);
    hide Gathered;
  }

  /** The first chunk of a batch always has room. */
  lemma {:induction false} FirstHasRoom(t: Tiers, n: nat, b: Batch)
    requires n in t.sealed && Filled(t, n, b) && b.pending == []
    ensures HasRoom(t, n)
  {
  }

  /** u lists no more than t, and holds no other files. */
  ghost predicate Less(t: Tiers, u: Tiers) {
    && (forall n :: n in u.sealed ==> n in t.sealed && u.sealed[n] == t.sealed[n])
    && (forall n :: n in u.buffer ==> n in t.buffer && u.buffer[n] == t.buffer[n])
  }

  lemma {:induction false} LessBelow(t: Tiers, u: Tiers, n: nat)
    requires Less(t, u)
    ensures ListedBelow(u, n) <= ListedBelow(t, n) && CopiedBelow(u, n) <= CopiedBelow(t, n)
  {
    if n > 0 { LessBelow(t, u, n - 1); }
  }

  lemma {:induction false} MoreRoom(t: Tiers, u: Tiers, k: nat)
    requires k in t.sealed && k in u.sealed && u.sealed[k] == t.sealed[k] && HasRoom(t, k)
    requires ListedBelow(u, k) <= ListedBelow(t, k) && CopiedBelow(u, k) <= CopiedBelow(t, k)
    ensures HasRoom(u, k)
  {
    hide ListedBelow, CopiedBelow;
  }

  /**
   Whatever part of a batch was done: if some chunk of it left the buffer and was not struck off
   the list, as when its file was moved and an earlier file could not be removed, the next
   batch is stuck.
   */
  lemma {:induction false} FailedRemovalSticks(t: Tiers, u: Tiers, through: nat, puts: map<nat, Row>,
        pending: seq<nat>, moves: seq<nat>,
                            n: nat)
    requires IsGathered(t, through, puts, pending, moves) && Less(t, u)
    requires n in puts && n in u.sealed && n !in u.buffer
    ensures Stuck(u, through)
  {
    hide WithinLimits, IsBatch, Gathered, Less;
    assert WithinLimits(t, n) && n <= through;
    hide IsGathered;
    var gone := set k | k in u.sealed && k <= n && k !in u.buffer;
    assert n in gone;
    var g := Least(gone);
    LimitsLess(t, u, n, g);
    forall k | k in u.sealed && k < g ensures k in u.buffer { assert k !in gone; }
  }

  lemma {:induction false} LimitsLess(t: Tiers, u: Tiers, n: nat, g: nat)
    requires Less(t, u) && WithinLimits(t, n) && g <= n
    ensures WithinLimits(u, g)
  {
    hide HasRoom;
    forall k | k in u.sealed && k <= g ensures HasRoom(u, k) {
      LessBelow(t, u, k);
      MoreRoom(t, u, k);
    }
  }

  lemma {:induction false} Least(s: set<nat>) returns (n: nat)
    requires s != {}
    ensures n in s && forall k :: k in s ==> n <= k
  {
    n :| n in s;
    var rest := s - {n};
    while rest != {}
      invariant n in s && rest <= s && forall k :: k in s && k !in rest ==> n <= k
      decreases rest
    {
      var k :| k in rest;
      rest := rest - {k};
      if k < n { n := k; }
    }
  }

  lemma {:induction false} GatheredIsBatch(t: Tiers, through: nat, puts: map<nat, Row>, pending: seq<nat>,
        moves: seq<nat>)
    requires IsGathered(t, through, puts, pending, moves)
    ensures IsBatch(puts, pending, moves)
  {
    hide IsBatch, Gathered, WithinLimits;
  }

  lemma {:induction false} BatchBuffered(t: Tiers, through: nat, puts: map<nat, Row>, pending: seq<nat>,
        moves: seq<nat>)
    requires IsGathered(t, through, puts, pending, moves)
    ensures puts.Keys <= t.buffer.Keys
  {
    hide IsBatch, WithinLimits;
  }

  /** A batch deals with chunks whose files are there, so one whose file is gone stays listed. */
  lemma {:induction false} JamHolds(t: Tiers, u: Tiers, touched: set<nat>, gone: set<nat>, index: map<nat, Meta>,
        through: nat)
    requires Untouched(t, u, touched) && gone <= touched <= t.buffer.Keys && u.sealed == t.sealed
    ensures Jammed(t, through) ==> Jammed(u.(sealed := t.sealed - gone, index := index), through)
  {
    if Jammed(t, through) {
      var n :| n in t.sealed && n <= through && n !in t.buffer;
      var v := u.(sealed := t.sealed - gone, index := index);
      assert n in v.sealed && n !in v.buffer;
    }
  }

  /** A batch that struck off all it took leaves no other chunk without its file. */
  lemma {:induction false} JamEnds(t: Tiers, u: Tiers, index: map<nat, Meta>, gone: set<nat>, through: nat)
    requires Untouched(t, u, gone) && u.sealed == t.sealed
    ensures Jammed(u.(sealed := t.sealed - gone, index := index), through) ==> Jammed(t, through)
  {
  }

  lemma {:induction false} GatheredPuttable(base: Tiers, t: Tiers, through: nat, puts: map<nat, Row>,
        pending: seq<nat>, moves: seq<nat>)
    requires Good(base, t) && Covered(t) && IsGathered(t, through, puts, pending, moves)
    ensures Puttable(t, puts) && IsBatch(puts, pending, moves)
    ensures pending == [] ==> forall n :: n in t.sealed ==> n > through
  {
    Parts(t);
    hide Inv, Ordered, Same;
    var bound :| 0 <= bound <= through + 1 && Gathered(t, bound, puts) && (pending == [] ==> bound == through + 1);
    BatchPuttable(t, bound, puts);
    if pending == [] {
      assert forall n :: n in puts ==> n in pending;
    }
  }

  lemma {:induction false} BatchPuttable(t: Tiers, bound: nat, puts: map<nat, Row>)
    requires Bounded(t) && Agree(t) && RowsFirst(t) && AllFaithful(t) && Covered(t) && Gathered(t, bound, puts)
    ensures Puttable(t, puts)
  {
    forall n | n in puts ensures n in t.buffer && Mark(t, n, puts[n].last) && UpTo(Content(t, n), puts[n].last) { }
  }

  lemma {:induction false} GoneSet(t: Tiers, through: nat, puts: map<nat, Row>, pending: seq<nat>, moves: seq<nat>,
        removed: nat,
                gone: set<nat>, left: map<nat, Stream>)
    requires IsGathered(t, through, puts, pending, moves) && removed <= |pending|
    requires gone == (set n | n in pending[..removed])
    requires forall i :: 0 <= i < removed ==> pending[i] !in left
    ensures gone <= puts.Keys && gone <= t.sealed.Keys && gone <= t.buffer.Keys && (removed > 0 ==> gone != {})
    ensures removed == |pending| ==> gone == puts.Keys
    ensures forall n :: n in gone ==> n !in left
  {
    hide WithinLimits;
    var bound :| 0 <= bound <= through + 1 && Gathered(t, bound, puts);
    if removed > 0 { assert pending[0] in pending[..removed]; assert pending[0] in gone; }
    if removed == |pending| { assert pending[..removed] == pending; }
  }

  /** Chunks outside `touched` are stored exactly as before. */
  ghost predicate Untouched(t: Tiers, u: Tiers, touched: set<nat>) {
    forall n: nat :: n !in touched ==>
      && (n in u.rows <==> n in t.rows) && (n in t.rows ==> u.rows[n] == t.rows[n])
      && (n in u.archive <==> n in t.archive) && (n in t.archive ==> u.archive[n] == t.archive[n])
      && (n in u.buffer <==> n in t.buffer) && (n in t.buffer ==> u.buffer[n] == t.buffer[n])
  }

  lemma {:induction false} UntouchedSelf(t: Tiers, s: set<nat>)
    ensures Untouched(t, t, s)
  {
  }

  /** Blobs were stored with their rows, and the other chunks of the batch were placed. */
  lemma {:induction false} AllPlaced(t: Tiers, u: Tiers, puts: map<nat, Row>, pending: seq<nat>, moves: seq<nat>,
        m: set<nat>)
    requires IsBatch(puts, pending, moves) && Untouched(t, u, m) && m == set n | n in moves
    requires forall n :: n in puts ==> n in t.rows && t.rows[n] == puts[n]
    requires forall n :: n in moves ==> n in u.rows && (u.rows[n].Blob? || n in u.archive)
    ensures forall n :: n in puts ==> n in u.rows && (u.rows[n].Blob? || n in u.archive)
  {
  }

  lemma {:induction false} UntouchedTwice(a: Tiers, b: Tiers, c: Tiers, s: set<nat>, t: set<nat>, u: set<nat>)
    requires Untouched(a, b, s) && Untouched(b, c, t) && s <= u && t <= u
    ensures Untouched(a, c, u)
  {
  }

  /** The batch lists each chunk once, in order; file chunks are exactly the moves. */
  ghost predicate IsBatch(puts: map<nat, Row>, pending: seq<nat>, moves: seq<nat>) {
    && (forall n :: n in puts <==> n in pending)
    && (forall n :: n in moves <==> n in puts && puts[n].File?)
    && (forall i, j :: 0 <= i < j < |pending| ==> pending[i] < pending[j])
    && (forall i, j :: 0 <= i < j < |moves| ==> moves[i] < moves[j])
  }

  lemma {:induction false} BatchSets(puts: map<nat, Row>, pending: seq<nat>, moves: seq<nat>, m: set<nat>, p: set<nat>)
    requires IsBatch(puts, pending, moves) && m == (set n | n in moves) && p == (set n | n in pending)
    ensures m <= puts.Keys && p <= puts.Keys && forall n :: n in pending ==> n in puts
  {
  }

  lemma {:induction false} BatchMoves(t: Tiers, puts: map<nat, Row>, pending: seq<nat>, moves: seq<nat>)
    requires Puttable(t, puts) && IsBatch(puts, pending, moves)
    ensures forall i :: 0 <= i < |moves| ==> moves[i] in t.buffer && moves[i] in puts && puts[moves[i]].File?
    ensures forall i, j :: 0 <= i < j < |moves| ==> moves[i] != moves[j]
    ensures forall n :: n in puts && puts[n].File? ==> n in moves
  {
  }

  lemma {:induction false} RemoveGood(base: Tiers, t: Tiers, n: nat)
    requires Good(base, t) && Covered(t) && Safe(t, n)
    ensures Good(base, t.(buffer := t.buffer - {n})) && Covered(t.(buffer := t.buffer - {n}))
  {
    hide Good, Covered, Safe;
    DropGood(base, t, {n}, t.index, t.sealed);
  }

  lemma {:induction false} IndexGood(base: Tiers, t: Tiers)
    requires Good(base, t) && Covered(t)
    ensures Good(base, t.(index := t.sealed)) && Covered(t.(index := t.sealed))
  {
    hide Good, Covered;
    assert t.buffer - {} == t.buffer;
    DropGood(base, t, {}, t.sealed, t.sealed);
  }

  lemma {:induction false} UnlistGood(base: Tiers, t: Tiers, gone: set<nat>)
    requires Good(base, t) && Covered(t) && forall n :: n in gone ==> n in t.rows
    ensures Good(base, t.(sealed := t.sealed - gone)) && Covered(t.(sealed := t.sealed - gone))
  {
    hide Good, Covered;
    assert t.buffer - {} == t.buffer;
    DropGood(base, t, {}, t.index, t.sealed - gone);
  }

  /** Storing an already committed file chunk as a blob instead is a legal upsert. */
  lemma {:induction false} BlobsPuttable(base: Tiers, t: Tiers, blobs: map<nat, Row>)
    requires Good(base, t)
    requires forall n :: n in blobs ==> n in t.buffer && n in t.rows
    requires forall n :: n in blobs ==> blobs[n] == Blob(t.rows[n].first, t.rows[n].last, t.rows[n].raw, t.buffer[n])
    ensures Puttable(t, blobs)
  {
    Parts(t);
    hide Inv, Ordered, Same;
  }

  // ---------------------------------------------------------------- crashes

  /** A daemon crash forgets the writer's list and nothing else. */
  function Crash(t: Tiers): Tiers {
    t.(sealed := map[])
  }

  lemma {:induction false} CrashGood(base: Tiers, t: Tiers)
    requires Good(base, t)
    ensures Good(base, Crash(t)) && Covered(Crash(t))
  {
    hide Inv, AllFaithful;
    forall m: nat ensures Content(Crash(t), m) == Content(t, m) { }
    assert Same(t, Crash(t)) && Moved(t, Crash(t));
    hide Same, Moved;
    MoveKeeps(t, Crash(t));
    SameTrans(base, t, Crash(t));
  }

  /** A bound above every chunk number of a layout. */
  method Bound(t: Tiers) returns (hi: nat)
    ensures Below(t, hi)
  {
    hi := 0;
    var todo := t.rows.Keys + t.buffer.Keys;
    while todo != {}
      invariant forall n :: n in t.rows && n !in todo ==> n < hi
      invariant forall n :: n in t.buffer && n !in todo ==> n < hi
    {
      var n :| n in todo;
      if n >= hi { hi := n + 1; }
      todo := todo - {n};
    }
  }

  /**
   A daemon that crashed with the run in any layout archival passes through, and that
   sweeps it after restarting, serves the same frames; if the sweep succeeds, from the
   archive alone.
   */
  method Recover(t: Tiers, ghost base: Tiers, sound: bool, valid: bool) returns (r: RunStore, ok: bool)
    requires Good(base, t)
    ensures r.Valid() && Inv(r.View())
    ensures (ok ==> r.buffer == map[] && r.index == map[]) && (sound && valid ==> ok)
    ensures forall hi: nat :: Logical(r.View(), hi) == Logical(base, hi)
  {
    CrashGood(base, t);
    hide Inv, AllFaithful, Same, Covered;
    r := new RunStore(Crash(t), sound);
    var hi := Bound(Crash(t));
    ok := r.ArchiveOrphan(hi, valid);
    SameTrans(base, Crash(t), r.View());
    forall k: nat ensures Logical(r.View(), k) == Logical(base, k) { SameLogical(base, r.View(), k); }
  }

  /**
   A reader that pages through the run while the archiver works, finding any layout the
   archiver passes through at each page, gets the frames of the run once and in order.
   */
  method ReadWhileArchiving(s: RunStore, layouts: nat -> Tiers, hi: nat, limit: int, budget: nat)
      returns (out: seq<Frame>)
    requires s.Valid() && forall i :: layouts(i) in s.trace && Below(layouts(i), hi) && Readable(layouts(i))
    ensures out == After(Logical(s.base, hi), 0) && Increasing(out)
  {
    hide Inv, AllFaithful, Logical, Readable, Below, Sound, RecordsReach, Same;
    forall i
      ensures Sound(layouts(i)) && RecordsReach(layouts(i)) && AllFaithful(layouts(i))
      ensures Logical(layouts(i), hi) == Logical(s.base, hi)
    {
      SeenIsGood(s, layouts(i));
      InvReaches(layouts(i));
      SameLogical(s.base, layouts(i), hi);
    }
    LogicalIncreasing(layouts(0), hi);
    out := ReadAll(layouts, hi, Logical(s.base, hi), limit, budget);
    AfterSubset(Logical(s.base, hi), 0);
  }

  lemma {:induction false} SeenIsGood(s: RunStore, t: Tiers)
    requires s.Valid() && t in s.trace
    ensures Good(s.base, t)
  {
    hide Good;
  }
}
