/**
 The per-run log writer: numbering frames, rotating and sealing chunks, evicting under
 a byte cap, degrading when storage fails and recovering on a fresh chunk.  A fault of
 the file system is a value chosen freely at the point where the call could fail.
 */
module Writer {
  import opened Codec

  const CHUNK_LIMIT: nat := 0x10_0000
  const BATCH_CHUNKS: nat := 64

  /** The stream of the daemon's own lines. */
  const SYSTEM: byte := 3

  /** One accepted frame. */
  datatype Line = Line(sequence: nat, stream: byte, cut: bool, payload: seq<byte>)

  /** What a caller hands over: the frame before numbering and truncation. */
  datatype Output = Output(stream: byte, payload: seq<byte>)

  /** A sealed chunk as the writer's list records it, with the frames it holds. */
  datatype Chunk = Chunk(number: nat, first: nat, last: nat, raw: nat, lines: seq<Line>)

  function Cost(payload: seq<byte>): nat { HEADER + |payload| }

  function Raw(ls: seq<Line>): nat {
    if ls == [] then 0 else Cost(ls[0].payload) + Raw(ls[1..])
  }

  function Total(cs: seq<Chunk>): nat {
    if cs == [] then 0 else cs[0].raw + Total(cs[1..])
  }

  function Lines(cs: seq<Chunk>): seq<Line> {
    if cs == [] then [] else cs[0].lines + Lines(cs[1..])
  }

  function Outputs(ls: seq<Line>): seq<Output> {
    seq(|ls|, i requires 0 <= i < |ls| => Output(ls[i].stream, ls[i].payload))
  }

  lemma {:induction false} RawAppend(a: seq<Line>, b: seq<Line>)
    ensures Raw(a + b) == Raw(a) + Raw(b)
  {
    if a == [] {
      assert a + b == b;
    } else {
      assert (a + b)[1..] == a[1..] + b;
      RawAppend(a[1..], b);
    }
  }

  lemma {:induction false} TotalAppend(a: seq<Chunk>, c: Chunk)
    ensures Total(a + [c]) == Total(a) + c.raw && Lines(a + [c]) == Lines(a) + c.lines
  {
    if a == [] {
      assert a + [c] == [c];
    } else {
      assert (a + [c])[1..] == a[1..] + [c];
      TotalAppend(a[1..], c);
    }
  }

  lemma {:induction false} LinesCost(cs: seq<Chunk>)
    requires forall i :: 0 <= i < |cs| ==> cs[i].raw == Raw(cs[i].lines)
    ensures Raw(Lines(cs)) == Total(cs)
  {
    if cs != [] {
      LinesCost(cs[1..]);
      RawAppend(cs[0].lines, Lines(cs[1..]));
    }
  }

  lemma {:induction false} OutputsAppend(a: seq<Line>, l: Line)
    ensures Outputs(a + [l]) == Outputs(a) + [Output(l.stream, l.payload)]
  {
  }

  /** Sequence numbers rise strictly from first to last. */
  predicate Rising(ls: seq<Line>, first: nat, last: nat) {
    && (forall i :: 0 <= i < |ls| ==> first <= ls[i].sequence <= last)
    && (forall i, j :: 0 <= i < j < |ls| ==> ls[i].sequence < ls[j].sequence)
  }

  predicate Sealed(c: Chunk) {
    c.lines != [] && Rising(c.lines, c.first, c.last) && c.lines[|c.lines| - 1].sequence == c.last
        && c.raw == Raw(c.lines)
  }

  /** Numbers and sequence ranges of the listed chunks are increasing and disjoint. */
  predicate Disjoint(cs: seq<Chunk>) {
    && (forall i :: 0 <= i < |cs| ==> Sealed(cs[i]))
    && (forall i, j :: 0 <= i < j < |cs| ==> cs[i].number < cs[j].number && cs[i].last < cs[j].first)
  }

  /** Every listed chunk is at most chunk number n and ends at or before sequence s. */
  predicate Within(cs: seq<Chunk>, n: nat, s: nat) {
    forall i :: 0 <= i < |cs| ==> cs[i].number <= n && cs[i].last <= s
  }

  predicate Before(cs: seq<Chunk>, first: nat) {
    forall i :: 0 <= i < |cs| ==> cs[i].last < first
  }

  predicate Listed(cs: seq<Chunk>, n: nat) {
    cs != [] && cs[|cs| - 1].number == n
  }

  /**
   The chunk the writer is filling and its list of sealed ones.  hot holds the accepted
   frames of the current chunk that the list does not have yet.
   */
  datatype Files = Files(
    chunk: nat, chunkRaw: nat, chunkFirst: nat, seqno: nat, lastStored: nat, chunks: seq<Chunk>, hot: seq<Line>,
    hasFile: bool, hasEncoder: bool, encoderFailed: bool, chunkFailed: bool, indexOnly: bool)

  /** The state of degraded capture. */
  datatype Capture = Capture(
    degraded: bool, truncated: bool, closed: bool,
    droppedFrames: nat, droppedBytes: nat, episodeFrames: nat, episodeBytes: nat)

  /** Every frame accepted, those that left the buffer, those of them evicted, and what callers were told is logged. */
  datatype History = History(accepted: seq<Line>, left: seq<Line>, evicted: seq<Line>, promised: seq<Output>)

  /** The accounting: each byte counter is the size of the frames it stands for. */
  ghost predicate Accounted(f: Files, maxBytes: nat, total: int, buffered: int, h: History) {
    && buffered == Total(f.chunks) + Raw(f.hot)
    && (maxBytes > 0 ==> buffered <= maxBytes)
    && h.accepted == h.left + Lines(f.chunks) + f.hot
    && total == Raw(h.left) - Raw(h.evicted) + buffered
  }

  /** Numbers and sequence ranges rise from chunk to chunk and into the hot chunk. */
  ghost predicate Numbered(f: Files) {
    && Disjoint(f.chunks) && Within(f.chunks, f.chunk, f.seqno) && f.lastStored <= f.seqno
    && (f.hasFile ==> f.hasEncoder && !f.chunkFailed)
    && (if Listed(f.chunks, f.chunk) then f.hot == [] && !f.hasFile else HotNumbered(f))
  }

  ghost predicate HotNumbered(f: Files) {
    && f.chunkRaw == Raw(f.hot)
    && (f.hasEncoder ==> 0 < f.chunkFirst <= f.seqno + 1 && Before(f.chunks, f.chunkFirst))
    && (f.hot != [] ==>
          f.hasEncoder && Rising(f.hot, f.chunkFirst, f.lastStored) && f.hot[|f.hot| - 1].sequence == f.lastStored)
    && (f.hot == [] && f.hasEncoder ==> f.lastStored < f.chunkFirst)
    && (f.hasFile && !f.encoderFailed ==> f.seqno == if f.hot == [] then f.chunkFirst - 1 else f.lastStored)
  }

  /** Between calls, an unlisted chunk without a file is one whose finalization failed. */
  ghost predicate Settled(f: Files) {
    Numbered(f) && (f.hot != [] ==> f.hasFile || f.chunkFailed)
  }

  /** The promise behind the truncated flag: every line was stored whole and none was evicted. */
  ghost predicate Kept(c: Capture, h: History) {
    !c.truncated ==> h.evicted == [] && Outputs(h.accepted) == h.promised && c.droppedFrames == 0 && !c.degraded
  }

  /** Moves the hot frames onto the list. */
  function Enlist(f: Files): Files {
    f.(chunks := f.chunks + [Chunk(f.chunk, f.chunkFirst, f.lastStored, f.chunkRaw, f.hot)], hot := [])
  }

  /** The list is the same, or has the hot frames as its newest chunk. */
  predicate Grown(f: Files, g: Files) {
    || g.chunks == f.chunks
    || (&& |g.chunks| == |f.chunks| + 1 && g.chunks[..|f.chunks|] == f.chunks
        && g.chunks[|f.chunks|].lines == f.hot)
  }

  /** A chunk of the buffer: listed, or the hot one. */
  predicate Buffered(f: Files, c: Chunk) { c in f.chunks || c.lines == f.hot }

  /** The frames evicted since g end with a chunk of f that had to go, because only this much room is left. */
  ghost predicate Sparing(f: Files, g: History, h: History, room: int) {
    || h.evicted == g.evicted
    || exists c: Chunk ::
         && Buffered(f, c) && c.raw == Raw(c.lines) > room && |g.evicted| + |c.lines| <= |h.evicted|
         && h.evicted[|h.evicted| - |c.lines|..] == c.lines
  }

  /** The buffered frames are the same, in the same order. */
  predicate SameLines(f: Files, g: Files) {
    && g.seqno == f.seqno && g.lastStored == f.lastStored && g.chunk >= f.chunk
    && Lines(g.chunks) + g.hot == Lines(f.chunks) + f.hot
    && Total(g.chunks) + Raw(g.hot) == Total(f.chunks) + Raw(f.hot)
  }

  lemma {:induction false} SameAccounts(f: Files, g: Files, maxBytes: nat, total: int, buffered: int, h: History)
    requires Accounted(f, maxBytes, total, buffered, h) && SameLines(f, g)
    ensures Accounted(g, maxBytes, total, buffered, h)
  {
    hide Total, Raw, Lines;
    Associative(h.left, Lines(f.chunks), f.hot);
    Associative(h.left, Lines(g.chunks), g.hot);
  }

  lemma {:induction false} EnlistKeeps(f: Files)
    requires Numbered(f) && !Listed(f.chunks, f.chunk) && f.hot != [] && !f.hasFile
    ensures Settled(Enlist(f)) && SameLines(f, Enlist(f))
  {
    var c := Chunk(f.chunk, f.chunkFirst, f.lastStored, f.chunkRaw, f.hot);
    EnlistNumbers(f, c);
    TotalAppend(f.chunks, c);
    EmptyRight(Lines(f.chunks) + f.hot);
    assert Raw([]) == 0;
    hide Disjoint, Within, Total, Lines, Raw;
  }

  lemma {:induction false} EnlistNumbers(f: Files, c: Chunk)
    requires Numbered(f) && !Listed(f.chunks, f.chunk) && f.hot != []
    requires c == Chunk(f.chunk, f.chunkFirst, f.lastStored, f.chunkRaw, f.hot)
    ensures Disjoint(f.chunks + [c]) && Within(f.chunks + [c], f.chunk, f.seqno) && Listed(f.chunks + [c], f.chunk)
  {
    hide Raw, Rising;
    assert Sealed(c);
    Earlier(f);
  }

  lemma {:induction false} Earlier(f: Files)
    requires Numbered(f) && !Listed(f.chunks, f.chunk)
    ensures forall i :: 0 <= i < |f.chunks| ==> f.chunks[i].number < f.chunk
  {
    hide HotNumbered, Sealed;
    forall i | 0 <= i < |f.chunks| ensures f.chunks[i].number < f.chunk {
      if i < |f.chunks| - 1 {
        assert f.chunks[i].number < f.chunks[|f.chunks| - 1].number;
      }
    }
  }

  /** A chunk without frames has counted no bytes, and the other way round. */
  lemma {:induction false} NoHot(f: Files)
    requires Numbered(f)
    ensures (!f.hasEncoder || f.chunkRaw == 0 || f.lastStored < f.chunkFirst) ==> f.hot == []
    ensures f.chunkRaw > 0 && !Listed(f.chunks, f.chunk) ==> f.hot != []
    ensures Listed(f.chunks, f.chunk) ==> f.hot == []
  {
    hide Disjoint, Within, Before;
    assert f.hot != [] ==> Raw(f.hot) > 0;
  }

  /** Only the flags that describe the hot chunk's file change. */
  lemma {:induction false} FlagsKeep(f: Files, file: bool, failed: bool, indexOnly: bool)
    requires Numbered(f) && (file ==> f.hasFile && !failed)
    ensures Numbered(f.(hasFile := file, chunkFailed := failed, indexOnly := indexOnly))
  {
    hide Disjoint, Within, Before, Rising, Raw;
  }

  function NextChunk(f: Files): Files {
    f.(chunk := f.chunk + 1, chunkRaw := 0, chunkFirst := f.seqno + 1, hasFile := true, hasEncoder := true,
        encoderFailed := false)
  }

  lemma {:induction false} NextKeeps(f: Files)
    requires Settled(f) && f.hot == [] && !f.chunkFailed
    ensures Settled(NextChunk(f)) && SameLines(f, NextChunk(f))
  {
    hide Disjoint, Lines;
    assert Raw([]) == 0;
    hide Raw, Total;
  }

  /** The list without its oldest chunk. */
  function WithoutOldest(f: Files): Files
    requires f.chunks != []
  {
    f.(chunks := f.chunks[1..])
  }

  lemma {:induction false} OldestLeaves(f: Files)
    requires Settled(f) && f.chunks != [] && f.chunks[0].number < f.chunk
    ensures Settled(WithoutOldest(f))
  {
    hide Raw, Rising, Sealed;
    assert Listed(f.chunks, f.chunk) ==> |f.chunks| > 1;
  }

  lemma {:induction false} OldestAccounts(f: Files, total: int, maxBytes: nat, buffered: int, h: History)
    requires Accounted(f, maxBytes, total, buffered, h) && Disjoint(f.chunks) && f.chunks != []
    ensures var c := f.chunks[0];
            var g := History(h.accepted, h.left + c.lines, h.evicted + c.lines, h.promised);
            Accounted(WithoutOldest(f), maxBytes, total, buffered - c.raw, g.(evicted := h.evicted)) &&
            Accounted(WithoutOldest(f), maxBytes, total - c.raw, buffered - c.raw, g)
  {
    var c := f.chunks[0];
    RawAppend(h.left, c.lines);
    RawAppend(h.evicted, c.lines);
    Associative(h.left, c.lines, Lines(f.chunks[1..]));
    hide Raw;
  }

  /** The frame is appended to the hot chunk. */
  function Append(f: Files, l: Line): Files {
    f.(seqno := l.sequence, lastStored := l.sequence, chunkRaw := f.chunkRaw + Cost(l.payload), hot := f.hot + [l])
  }

  lemma {:induction false} AppendKeeps(f: Files, l: Line)
    requires Settled(f) && f.hasFile && !f.encoderFailed && l.sequence == f.seqno + 1
    ensures Settled(Append(f, l))
  {
    RawAppend(f.hot, [l]);
    hide Disjoint;
    assert Raw([l]) == Cost(l.payload);
    hide Raw;
  }

  lemma {:induction false} AppendAccounts(f: Files, l: Line, maxBytes: nat, total: int, buffered: int, h: History,
        out: Output)
    requires Accounted(f, maxBytes, total, buffered, h)
    requires maxBytes > 0 ==> buffered + Cost(l.payload) <= maxBytes
    ensures Accounted(Append(f, l), maxBytes, total + Cost(l.payload), buffered + Cost(l.payload),
                      h.(accepted := h.accepted + [l], promised := h.promised + [out]))
  {
    RawAppend(f.hot, [l]);
    Associative(h.left + Lines(f.chunks), f.hot, [l]);
    assert Raw([l]) == Cost(l.payload);
    hide Raw, Total, Lines;
  }

  lemma {:induction false} EncodeFails(f: Files)
    requires Settled(f)
    ensures Settled(f.(seqno := f.seqno + 1, encoderFailed := true))
  {
    hide Raw, Disjoint, Before, Rising;
  }

  /** An open chunk with a healthy encoder has frames exactly when its sequence range is not empty. */
  lemma {:induction false} SealReady(f: Files)
    requires Settled(f) && f.hasFile
    ensures !Listed(f.chunks, f.chunk) && f.hasEncoder && !f.chunkFailed
    ensures !f.encoderFailed ==> (f.hot != [] <==> f.seqno >= f.chunkFirst) && (f.hot != [] ==> f.seqno == f.lastStored)
  {
    hide Disjoint, Within, Before, Raw;
  }

  lemma {:induction false} SameSelf(f: Files, file: bool, failed: bool, indexOnly: bool)
    ensures SameLines(f, f.(hasFile := file, chunkFailed := failed, indexOnly := indexOnly))
  {
  }

  lemma {:induction false} SameTrans(f: Files, g: Files, k: Files)
    requires SameLines(f, g) && SameLines(g, k)
    ensures SameLines(f, k)
  {
    hide Lines, Total, Raw;
  }

  function Shorten(payload: seq<byte>, maxLine: nat): seq<byte> {
    if |payload| > maxLine > 0 then payload[..maxLine] else payload
  }

  lemma {:induction false} EmptyRight<T>(a: seq<T>)
    ensures a + [] == a
  {
  }

  const START := Files(0, 0, 0, 0, 0, [], [], false, false, false, false, false)

  /** A chunk is open and nothing about it has failed. */
  predicate Healthy(f: Files) { f.hasFile && f.hasEncoder && !f.chunkFailed && !f.encoderFailed }

  class Writer {
    const maxBytes: nat
    const maxLine: nat
    const dropNew: bool
    /** Storage does not fail; between calls this may change. */
    var sound: bool
    var f: Files
    var total: int
    var buffered: int
    var c: Capture
    ghost var h: History

    ghost predicate Valid()
      reads this
    {
      Settled(f) && Accounted(f, maxBytes, total, buffered, h) && Kept(c, h)
    }

    /** A writer before its first chunk is open. */
    constructor (maxBytes: nat, maxLine: nat, dropNew: bool, sound: bool)
      ensures Valid() && f == START && total == buffered == 0 && h == History([], [], [], [])
      ensures c == Capture(false, false, false, 0, 0, 0, 0)
      ensures this.maxBytes == maxBytes && this.maxLine == maxLine && this.dropNew == dropNew && this.sound == sound
    {
      hide Settled, Accounted, Outputs;
      this.maxBytes, this.maxLine, this.dropNew, this.sound := maxBytes, maxLine, dropNew, sound;
      f, total, buffered := START, 0, 0;
      c, h := Capture(false, false, false, 0, 0, 0, 0), History([], [], [], []);
      StartKeeps(maxBytes);
    }

    /** Whether a call into storage fails. */
    method Fault() returns (bad: bool)
      ensures sound ==> !bad
    {
      bad := *;
      if sound { bad := false; }
    }

    /** Seals the hot chunk.  A failure after the list was extended concerns the index file only. */
    method FinishChunk() returns (ok: bool)
      requires Settled(f)
      modifies this`f
      ensures Settled(f) && SameLines(old(f), f) && f.chunk == old(f).chunk
      ensures !f.hasFile && ok == !f.chunkFailed && (ok ==> f.hot == [])
      ensures (sound && Healthy(old(f)) ==> ok) && (sound && !old(f).hasFile ==> f == old(f))
      ensures Grown(old(f), f)
    {
      hide Numbered, SameLines;
      SameSelf(f, false, f.chunkFailed, f.indexOnly);
      if !f.hasFile {
        if !f.chunkFailed && f.hasEncoder {
          var failed := Fault();
          FlagsKeep(f, false, true, true);
          SameSelf(f, false, true, true);
          if failed { f := f.(chunkFailed := true, indexOnly := true); }
        }
        return !f.chunkFailed;
      }
      SealReady(f);
      FlagsKeep(f, false, f.chunkFailed, f.indexOnly);
      FlagsKeep(f, false, true, false);
      SameSelf(f, false, true, false);
      f := f.(hasFile := false);
      var failed := Fault(); // encoder close, sync, stat and file close
      if f.encoderFailed || failed {
        f := f.(chunkFailed := true, indexOnly := false);
        return false;
      }
      if f.seqno >= f.chunkFirst {
        EnlistKeeps(f);
        SameTrans(old(f), f, Enlist(f));
        f := f.(chunks := f.chunks + [Chunk(f.chunk, f.chunkFirst, f.seqno, f.chunkRaw, f.hot)], hot := []);
      }
      failed := Fault();
      if failed {
        FlagsKeep(f, false, true, true);
        SameSelf(f, false, true, true);
        SameTrans(old(f), f, f.(chunkFailed := true, indexOnly := true));
        f := f.(chunkFailed := true, indexOnly := true);
      }
      ok := !f.chunkFailed;
    }

    /** Opens the next chunk, sealing the current one if it is still open. */
    method Rotate() returns (ok: bool)
      requires Settled(f)
      modifies this`f
      ensures Settled(f) && SameLines(old(f), f) && f.chunk >= old(f).chunk
      ensures ok ==> f.chunk == old(f).chunk + 1 && f.hasFile && f.hot == [] && f.chunkRaw == 0 && !f.encoderFailed
      ensures ok ==> Healthy(f)
      ensures sound && !old(f).chunkFailed && (old(f).hasFile ==> !old(f).encoderFailed) ==> ok
      ensures Grown(old(f), f)
    {
      hide Numbered, SameLines;
      SameSelf(f, f.hasFile, f.chunkFailed, f.indexOnly);
      if f.chunkFailed { return false; }
      var failed := Fault(); // a conflicting path or a full disk leaves the current chunk usable
      if failed { return false; }
      FileHasEncoder(f);
      if f.hasEncoder && f.hasFile {
        ok := FinishChunk();
        if !ok { return; }
      }
      NextKeeps(f);
      SameTrans(old(f), f, NextChunk(f));
      f := NextChunk(f);
      ok := true;
    }

    /** Lists a chunk abandoned after a storage failure with the frames known to be intact. */
    method IndexAbandonedChunk()
      requires Numbered(f) && !f.hasFile
      modifies this`f
      ensures Settled(f) && f.hot == [] && SameLines(old(f), f) && (old(f).hot != [] ==> f.chunkRaw == 0)
      ensures f.chunk == old(f).chunk && !f.hasFile && f.chunkFailed == old(f).chunkFailed
    {
      hide Numbered, SameLines;
      SameSelf(f, f.hasFile, f.chunkFailed, f.indexOnly);
      NoHot(f);
      if !f.hasEncoder || f.chunkRaw == 0 || f.lastStored < f.chunkFirst { return; }
      if Listed(f.chunks, f.chunk) { return; }
      EnlistKeeps(f);
      ZeroRaw(old(f), Enlist(f));
      f := f.(chunks := f.chunks + [Chunk(f.chunk, f.chunkFirst, f.lastStored, f.chunkRaw, f.hot)], hot := []);
      f := f.(chunkRaw := 0);
    }

    /** Leaves the current chunk behind and starts a new one; no accepted frame is forgotten. */
    method ReopenChunk() returns (ok: bool)
      requires Settled(f)
      modifies this`f
      ensures Settled(f) && SameLines(old(f), f) && f.chunk >= old(f).chunk
      ensures ok ==> f.chunk == old(f).chunk + 1 && f.hasFile && f.hot == [] && f.chunkRaw == 0 && !f.encoderFailed
      ensures (ok ==> Healthy(f)) && (sound ==> ok)
    {
      hide Numbered, SameLines;
      SameSelf(f, f.hasFile, f.chunkFailed, f.indexOnly);
      if f.chunkFailed {
        var failed := Fault();
        if f.indexOnly && failed { return false; }
      }
      FlagsKeep(f, false, false, false);
      SameSelf(f, false, false, false);
      f := f.(chunkFailed := false, indexOnly := false, hasFile := false);
      ghost var g := f;
      IndexAbandonedChunk();
      SameTrans(old(f), g, f);
      g := f;
      var failed := Fault(); // the run directory of a writer opened degraded
      if failed { return false; }
      ok := Rotate();
      SameTrans(old(f), g, f);
    }

    /** Evicts the oldest sealed chunk. */
    method DropOldest()
      requires Valid() && f.hasFile && f.chunks != [] && c.truncated
      modifies this`f, this`total, this`buffered, this`h
      ensures Valid() && f == old(f).(chunks := old(f).chunks[1..]) && buffered == old(buffered) - old(f).chunks[0].raw
      ensures h.evicted == old(h).evicted + old(f).chunks[0].lines && old(f).chunks[0].raw >= 0
      ensures h.accepted == old(h).accepted && h.promised == old(h).promised
    {
      hide Settled, Accounted, Lines;
      var oldest := f.chunks[0];
      OpenIsNewest(f);
      OldestLeaves(f);
      OldestAccounts(f, total, maxBytes, buffered, h);
      f, total, buffered := WithoutOldest(f), total - oldest.raw, buffered - oldest.raw;
      h := History(h.accepted, h.left + oldest.lines, h.evicted + oldest.lines, h.promised);
    }

    /** Drops whole sealed chunks, oldest first, until the frame fits, and none once it does. */
    method Evict(need: nat) returns (ok: bool)
      requires Valid() && f.hasFile && f.hot == [] && c.truncated && 0 < maxBytes && need <= maxBytes
      modifies this`f, this`total, this`buffered, this`h
      ensures Valid() && f == old(f).(chunks := f.chunks) && (ok ==> buffered + need <= maxBytes)
      ensures h.accepted == old(h).accepted && h.promised == old(h).promised
      ensures sound ==> ok
      ensures |f.chunks| <= |old(f).chunks| && buffered <= old(buffered)
      ensures Gone(old(f).chunks, |old(f).chunks| - |f.chunks|, f.chunks, old(h).evicted, h.evicted,
                   maxBytes - need - buffered)
    {
      hide Settled, Accounted, Gone;
      ghost var gone := 0;
      NoneGone(f.chunks, h.evicted, maxBytes - need - buffered);
      while f.chunks != [] && buffered + need > maxBytes
        invariant Valid() && f == old(f).(chunks := f.chunks)
        invariant h.accepted == old(h).accepted && h.promised == old(h).promised && buffered <= old(buffered)
        invariant gone == |old(f).chunks| - |f.chunks|
        invariant Gone(old(f).chunks, gone, f.chunks, old(h).evicted, h.evicted, maxBytes - need - buffered)
        decreases |f.chunks|
      {
        var failed := Fault();
        if failed { return false; }
        MoreGone(old(f).chunks, gone, f.chunks, old(h).evicted, h.evicted, maxBytes - need - buffered);
        DropOldest();
        gone := gone + 1;
      }
      NothingLeft(f, maxBytes, total, buffered, h);
      ok := true;
    }

    /** Makes the current chunk evictable and drops old ones; the run is marked truncated. */
    method MakeRoom(need: nat) returns (ok: bool)
      requires Valid() && f.hasFile && 0 < maxBytes && need <= maxBytes
      modifies this`f, this`total, this`buffered, this`c, this`h
      ensures Valid() && f.chunk >= old(f).chunk && c == old(c).(truncated := c.truncated)
              && (old(c).truncated ==> c.truncated)
      ensures ok ==> f.hasFile && c.truncated && buffered + need <= maxBytes
      ensures h.accepted == old(h).accepted && h.promised == old(h).promised
      ensures old(h).evicted <= h.evicted && (ok ==> Sparing(old(f), old(h), h, maxBytes - need - buffered))
      ensures sound && Healthy(old(f)) ==> ok && Healthy(f)
      ensures buffered <= old(buffered)
    {
      hide Settled, Accounted, SameLines, Outputs, Sparing, Gone, Grown;
      GrownSelf(f);
      if f.chunkRaw > 0 {
        ok := Rotate();
        SameAccounts(old(f), f, maxBytes, total, buffered, h);
        if !ok { return; }
      }
      Idle(f);
      c := c.(truncated := true);
      ghost var g := f;
      ok := Evict(need);
      LastNeeded(old(f), g, f, old(h), h, maxBytes - need - buffered);
    }

    /**
     Appends one frame.  Success means the frame was stored, whole unless the run is
     marked truncated, or refused for its size with the run marked truncated.
     */
    method WriteLocked(stream: byte, given: seq<byte>, cut: bool) returns (ok: bool)
      requires Valid()
      modifies this`f, this`total, this`buffered, this`c, this`h
      ensures Valid() && f.chunk >= old(f).chunk && c == old(c).(truncated := c.truncated)
      ensures ok && (cut || |given| > maxLine > 0) ==> c.truncated
      ensures h.promised == if ok then old(h).promised + [Output(stream, given)] else old(h).promised
      ensures h.accepted == old(h).accepted ||
              (ok && h.accepted == old(h).accepted
                                   + [Line(f.seqno, stream, cut || |given| > maxLine > 0, Shorten(given, maxLine))])
      ensures ok && !c.truncated ==> h.accepted != old(h).accepted
      ensures old(c).truncated ==> c.truncated
      ensures buffered <= old(buffered) + Cost(Shorten(given, maxLine))
      ensures old(h).evicted <= h.evicted
      ensures h.evicted != old(h).evicted ==>
                !dropNew && Over(old(buffered), given) && Cost(Shorten(given, maxLine)) <= maxBytes
      ensures ok && maxBytes > 0 ==> Sparing(old(f), old(h), h, maxBytes - buffered)
      ensures ok ==> !c.closed
      ensures dropNew && h.accepted != old(h).accepted ==> buffered == old(buffered) + Cost(Shorten(given, maxLine))
      ensures ok && h.accepted == old(h).accepted ==> buffered == old(buffered)
      ensures !ok && c.closed ==> buffered == old(buffered) && c == old(c)
      ensures sound && Healthy(old(f)) && !c.closed ==>
                && ok && Healthy(f)
                && (c.truncated <==> old(c).truncated || cut || |given| > maxLine > 0 || Over(old(buffered), given))
                && (h.accepted != old(h).accepted <==> Admits(old(buffered), given))
    {
      hide Settled, Accounted, SameLines, Cost, Outputs, Sparing;
      NothingEvicted(f, h, h, maxBytes - buffered);
      if c.closed || f.chunkFailed || !f.hasFile || !f.hasEncoder { return false; }
      var payload, flagged := Shorten(given, maxLine), cut || |given| > maxLine > 0;
      c := c.(truncated := c.truncated || flagged);
      if maxBytes > 0 && buffered + Cost(payload) > maxBytes {
        if dropNew || Cost(payload) > maxBytes {
          c := c.(truncated := true);
          h := h.(promised := h.promised + [Output(stream, given)]);
          Promised(f, maxBytes, total, buffered, h, old(h));
          NothingEvicted(old(f), old(h), h, maxBytes - buffered);
          return true;
        }
        ok := MakeRoom(Cost(payload));
        if !ok { return; }
      }
      ghost var g, room := h, maxBytes - Cost(payload) - buffered;
      if g.evicted == old(h).evicted { NothingEvicted(old(f), old(h), g, room); }
      ok := StoreInChunk(stream, payload, flagged, Output(stream, given));
      if ok { SparingStays(old(f), old(h), g, h, room); }
    }

    /** Stores a frame, in a fresh chunk when it would make the current one too long. */
    method StoreInChunk(stream: byte, payload: seq<byte>, flagged: bool, ghost out: Output) returns (ok: bool)
      requires Valid() && f.hasFile && (maxBytes > 0 ==> buffered + Cost(payload) <= maxBytes)
      requires c.truncated || out == Output(stream, payload)
      modifies this`f, this`total, this`buffered, this`h
      ensures Valid() && f.chunk >= old(f).chunk
      ensures sound && Healthy(old(f)) ==> ok && Healthy(f)
      ensures buffered == if ok then old(buffered) + Cost(payload) else old(buffered)
      ensures h == if ok then old(h).(accepted := old(h).accepted + [Line(f.seqno, stream, flagged, payload)],
              promised := old(h).promised + [out])
                   else old(h)
      ensures ok ==> (f.chunk > old(f).chunk <==> old(f).chunkRaw > 0 && old(f).chunkRaw + Cost(payload) > CHUNK_LIMIT)
    {
      hide Settled, Accounted, SameLines, Cost, Outputs, Grown;
      if f.chunkRaw + Cost(payload) > CHUNK_LIMIT && f.chunkRaw > 0 {
        ok := Rotate();
        SameAccounts(old(f), f, maxBytes, total, buffered, h);
        if !ok { return; }
      }
      ok := Store(stream, payload, flagged, out);
    }

    /** The overflow policy: a frame that does not fit is stored only by evicting old ones, if it can fit at all. */
    predicate Admits(buffered: int, given: seq<byte>) {
      !Over(buffered, given) || (!dropNew && Cost(Shorten(given, maxLine)) <= maxBytes)
    }

    /** The frame does not fit under the cap as things are. */
    predicate Over(buffered: int, given: seq<byte>) {
      maxBytes > 0 && buffered + Cost(Shorten(given, maxLine)) > maxBytes
    }

    /** Numbers a frame and appends it to the current chunk. */
    method Store(stream: byte, payload: seq<byte>, flagged: bool, ghost out: Output) returns (ok: bool)
      requires Valid() && f.hasFile && (maxBytes > 0 ==> buffered + Cost(payload) <= maxBytes)
      requires c.truncated || out == Output(stream, payload)
      modifies this`f, this`total, this`buffered, this`h
      ensures Valid() && f.chunk == old(f).chunk && f.seqno == old(f).seqno + 1
      ensures sound && Healthy(old(f)) ==> ok && Healthy(f)
      ensures buffered == if ok then old(buffered) + Cost(payload) else old(buffered)
      ensures h == if ok then old(h).(accepted := old(h).accepted + [Line(f.seqno, stream, flagged, payload)],
              promised := old(h).promised + [out])
                   else old(h)
    {
      hide Settled, Accounted, Cost, Outputs;
      var l := Line(f.seqno + 1, stream, flagged, payload);
      var failed := Fault(); // the encoder and its flush to the chunk file
      if f.encoderFailed || failed {
        EncodeFails(f);
        FailAccounts(f, maxBytes, total, buffered, h);
        f := f.(seqno := f.seqno + 1, encoderFailed := true);
        return false;
      }
      AppendKeeps(f, l);
      AppendAccounts(f, l, maxBytes, total, buffered, h, out);
      OutputsAppend(h.accepted, l);
      f, total, buffered := Append(f, l), total + Cost(payload), buffered + Cost(payload);
      h := h.(accepted := h.accepted + [l], promised := h.promised + [out]);
      ok := true;
    }

    /** Counts output that could not be stored. */
    method Discard(stream: byte, payload: seq<byte>)
      requires Valid()
      modifies this`c, this`h
      ensures Valid() && h == old(h).(promised := old(h).promised + [Output(stream, payload)])
      ensures c == old(c).(truncated := true,
                           droppedFrames := old(c).droppedFrames + 1,
                           droppedBytes := old(c).droppedBytes + Cost(payload),
                           episodeFrames := old(c).episodeFrames + 1,
                           episodeBytes := old(c).episodeBytes + Cost(payload))
    {
      hide Settled, Accounted;
      c := c.(droppedFrames := c.droppedFrames + 1, droppedBytes := c.droppedBytes + Cost(payload),
              episodeFrames := c.episodeFrames + 1, episodeBytes := c.episodeBytes + Cost(payload), truncated := true);
      h := h.(promised := h.promised + [Output(stream, payload)]);
      Promised(f, maxBytes, total, buffered, h, old(h));
    }

    /** Resumes capture on a fresh chunk and logs how much output was lost. */
    method RecoverLocked(summary: seq<byte>) returns (ok: bool)
      requires Valid() && c.degraded
      modifies this`f, this`total, this`buffered, this`c, this`h
      ensures Valid() && f.chunk >= old(f).chunk && c.truncated && c.degraded == !ok && c.closed == old(c).closed
      ensures h.accepted == old(h).accepted
              || h.accepted == old(h).accepted + [Line(f.seqno, SYSTEM, true, Shorten(summary, maxLine))]
      ensures h.promised == old(h).promised + if ok then [Output(SYSTEM, summary)] else []
      ensures sound && !c.closed ==> ok && Healthy(f)
      ensures old(h).evicted <= h.evicted && (dropNew ==> h.evicted == old(h).evicted)
      ensures c.droppedFrames == old(c).droppedFrames && c.droppedBytes == old(c).droppedBytes
      ensures if ok then c.episodeFrames == c.episodeBytes == 0
              else c.episodeFrames == old(c).episodeFrames && c.episodeBytes == old(c).episodeBytes
    {
      hide Settled, Accounted, SameLines, Outputs, Sparing;
      EmptyRight(h.promised);
      ok := ReopenChunk();
      SameAccounts(old(f), f, maxBytes, total, buffered, h);
      if !ok { return; }
      ok := WriteLocked(SYSTEM, summary, true);
      if !ok { return; }
      c := c.(degraded := false, episodeFrames := 0, episodeBytes := 0);
    }

    /**
     Stores one line of child output.  Only a closed writer is an error.  Otherwise the
     line is stored as given, or the run is marked truncated.
     */
    method CaptureLocked(stream: byte, payload: seq<byte>, cut: bool, summary: seq<byte>, due: bool) returns (ok: bool)
      requires Valid()
      modifies this`f, this`total, this`buffered, this`c, this`h
      ensures Valid() && f.chunk >= old(f).chunk && ok == !old(c).closed && c.closed == old(c).closed
      ensures old(h).accepted <= h.accepted && old(h).promised <= h.promised
      ensures !ok ==> h == old(h) && c == old(c) && buffered == old(buffered)
      ensures old(h).evicted <= h.evicted && (dropNew ==> h.evicted == old(h).evicted)
      ensures ok ==> || h.promised == old(h).promised + [Output(stream, payload)]
                     || (&& old(c).degraded
                         && h.promised == old(h).promised + [Output(SYSTEM, summary), Output(stream, payload)])
      ensures ok && !c.truncated ==> h.accepted == old(h).accepted + [Line(f.seqno, stream, false, payload)]
      ensures c.droppedFrames == old(c).droppedFrames || (c.degraded && c.droppedFrames == old(c).droppedFrames + 1)
      ensures sound && ok && (if old(c).degraded then due else Healthy(old(f))) ==>
                !c.degraded && Healthy(f) && c.droppedFrames == old(c).droppedFrames
      ensures ok && !c.truncated ==> h.promised == old(h).promised + [Output(stream, payload)] && !old(c).truncated
      ensures sound && Healthy(old(f)) && !c.closed && !old(c).degraded ==>
                && Healthy(f) && !c.degraded && buffered <= old(buffered) + Cost(Shorten(payload, maxLine))
                && (c.truncated <==> old(c).truncated || cut || |payload| > maxLine > 0 || Over(old(buffered), payload))
                && if Admits(old(buffered), payload) then
                    && h.accepted == old(h).accepted
                         + [Line(f.seqno, stream, cut || |payload| > maxLine > 0, Shorten(payload, maxLine))]
                    && (dropNew ==> buffered == old(buffered) + Cost(Shorten(payload, maxLine)))
                  else h.accepted == old(h).accepted && buffered == old(buffered)
    {
      hide Settled, Accounted, SameLines, Outputs, Sparing;
      if c.closed { return false; }
      if c.degraded {
        var recovered := false;
        if due { recovered := RecoverLocked(summary); } // the time of the next retry has come
        if !recovered {
          Discard(stream, payload);
          return true;
        }
      }
      var stored := WriteLocked(stream, payload, cut);
      if !stored {
        c := c.(degraded := true, truncated := true);
        Discard(stream, payload);
      }
      ok := true;
    }

    /** Seals the current chunk for archival; the result never names the chunk being written. */
    method SealForArchive() returns (through: int, ok: bool)
      requires Valid()
      modifies this`f
      ensures Valid() && SameLines(old(f), f) && f.chunk >= old(f).chunk && (ok ==> through < f.chunk)
      ensures ok && !c.closed ==> through == f.chunk - 1 && f.hot == []
      ensures sound && Healthy(old(f)) ==> ok && Healthy(f)
    {
      hide Settled, Accounted, SameLines;
      SameSelf(f, f.hasFile, f.chunkFailed, f.indexOnly);
      if c.closed { return -1, true; }
      if f.chunkRaw > 0 {
        ok := Rotate();
        SameAccounts(old(f), f, maxBytes, total, buffered, h);
        if !ok { return -1, false; }
      }
      Idle(f);
      through, ok := f.chunk - 1, true;
    }

    /**
     Archives the oldest sealed chunks up to a number that was sealed earlier.  Every
     chunk removed from the list was committed, and nothing counts as evicted.
     */
    method ArchiveBatch(through: int) returns (more: bool, ok: bool)
      requires Valid() && through < f.chunk
      modifies this`f, this`buffered, this`h
      ensures Valid() && f == old(f).(chunks := f.chunks) && h == old(h).(left := h.left)
      ensures h.left + Lines(f.chunks) == old(h).left + Lines(old(f).chunks)
      ensures ok && more ==> f.chunks != [] && f.chunks[0].number <= through && |f.chunks| < |old(f).chunks|
      ensures ok && !more ==> f.chunks == [] || f.chunks[0].number > through
      ensures buffered <= old(buffered)
      ensures |f.chunks| <= |old(f).chunks| <= |f.chunks| + BATCH_CHUNKS && (sound ==> ok)
      ensures ok && old(f).chunks != [] && old(f).chunks[0].number <= through ==> |f.chunks| < |old(f).chunks|
    {
      hide Settled, Accounted, Lines;
      var pending := 0;
      while pending < |f.chunks| && f.chunks[pending].number <= through && pending < BATCH_CHUNKS
        invariant pending <= |f.chunks| && pending <= BATCH_CHUNKS
        invariant pending == 0 || f.chunks[pending - 1].number <= through
      {
        var full: bool := *; // the next blob would exceed the batch's bytes
        if pending > 0 && full { break; }
        pending := pending + 1;
      }
      if pending == 0 { return false, true; }
      var failed := Fault(); // blobs read, files synced, rows committed, files placed
      if failed { return false, false; }
      ok := RemoveArchived(pending, through);
      more := f.chunks != [] && f.chunks[0].number <= through;
    }

    /** Takes the oldest chunk, which has been archived, off the list. */
    method RemoveOldest()
      requires Valid() && f.chunks != [] && f.chunks[0].number < f.chunk
      modifies this`f, this`buffered, this`h
      ensures Valid() && f == old(f).(chunks := old(f).chunks[1..]) && h == old(h).(left := h.left)
      ensures h.left + Lines(f.chunks) == old(h).left + Lines(old(f).chunks) && buffered <= old(buffered)
    {
      hide Settled, Accounted, Lines;
      Numbers(f, 0);
      OldestLeaves(f);
      OldestAccounts(f, total, maxBytes, buffered, h);
      LinesStep(h.left, f.chunks);
      var oldest := f.chunks[0];
      f, buffered := WithoutOldest(f), buffered - oldest.raw;
      h := h.(left := h.left + oldest.lines);
    }

    method RemoveArchived(pending: nat, through: int) returns (ok: bool)
      requires Valid() && 0 < pending <= |f.chunks| && f.chunks[pending - 1].number <= through < f.chunk
      modifies this`f, this`buffered, this`h
      ensures Valid() && f == old(f).(chunks := f.chunks) && h == old(h).(left := h.left)
      ensures h.left + Lines(f.chunks) == old(h).left + Lines(old(f).chunks)
      ensures |old(f).chunks| - pending <= |f.chunks| <= |old(f).chunks|
      ensures (ok ==> |f.chunks| == |old(f).chunks| - pending) && (sound ==> ok)
      ensures buffered <= old(buffered)
    {
      hide Settled, Accounted, Lines;
      var removed := 0;
      while removed < pending
        invariant removed <= pending
        invariant Valid() && f == old(f).(chunks := old(f).chunks[removed..]) && h == old(h).(left := h.left)
        invariant h.left + Lines(f.chunks) == old(h).left + Lines(old(f).chunks) && buffered <= old(buffered)
      {
        var failed := Fault();
        if failed { return false; }
        Numbers(f, pending - removed - 1);
        RemoveOldest();
        removed := removed + 1;
      }
      var failed := Fault(); // the index
      ok := !failed;
    }

    /** Ends the run's log: one last recovery attempt, then the final seal. */
    method Close(summary: seq<byte>) returns (ok: bool)
      requires Valid()
      modifies this`f, this`total, this`buffered, this`c, this`h
      ensures Valid() && c.closed && old(h).accepted <= h.accepted && f.chunk >= old(f).chunk
      ensures !old(c).degraded ==> h == old(h) && c == old(c).(closed := true) && buffered == old(buffered)
      ensures old(h).evicted <= h.evicted && (dropNew ==> h.evicted == old(h).evicted)
      ensures !c.truncated ==> h == old(h) && !old(c).truncated
      ensures ok && f.hot != [] ==> old(c).closed
    {
      hide Settled, Accounted, SameLines, Outputs;
      if c.closed { return !f.chunkFailed; }
      if c.degraded {
        var recovered := RecoverLocked(summary);
      }
      c := c.(closed := true);
      ghost var g := f;
      ok := FinishChunk();
      SameAccounts(g, f, maxBytes, total, buffered, h);
    }
  }

  lemma {:induction false} Numbers(f: Files, k: nat)
    requires Settled(f) && k < |f.chunks| && f.chunks[k].number < f.chunk
    ensures f.chunks[0].number < f.chunk && Disjoint(f.chunks)
  {
    hide Sealed, HotNumbered, Within;
  }

  /** The k oldest chunks of cs have been evicted, the last of them because there was only this much room. */
  ghost predicate Gone(cs: seq<Chunk>, k: nat, rest: seq<Chunk>, was: seq<Line>, evicted: seq<Line>, room: int) {
    && k <= |cs| && rest == cs[k..] && evicted == was + Lines(cs[..k])
    && (k > 0 ==> cs[k - 1].raw > room)
  }

  lemma {:induction false} NoneGone(cs: seq<Chunk>, was: seq<Line>, room: int)
    ensures Gone(cs, 0, cs, was, was, room)
  {
    assert cs[..0] == [];
    EmptyRight(was);
  }

  lemma {:induction false} MoreGone(cs: seq<Chunk>, k: nat, rest: seq<Chunk>, was: seq<Line>, evicted: seq<Line>,
        room: int)
    requires Gone(cs, k, rest, was, evicted, room) && rest != [] && room < 0
    ensures Gone(cs, k + 1, rest[1..], was, evicted + rest[0].lines, room + rest[0].raw)
  {
    TotalAppend(cs[..k], cs[k]);
    assert cs[..k + 1] == cs[..k] + [cs[k]];
    Associative(was, Lines(cs[..k]), cs[k].lines);
  }

  lemma {:induction false} GrownSelf(f: Files)
    ensures Grown(f, f)
  {
  }

  lemma {:induction false} NothingEvicted(f: Files, g: History, h: History, room: int)
    requires h.evicted == g.evicted
    ensures Sparing(f, g, h, room)
  {
  }

  lemma {:induction false} SparingStays(f: Files, g: History, h: History, k: History, room: int)
    requires Sparing(f, g, h, room) && k.evicted == h.evicted
    ensures Sparing(f, g, k, room)
  {
  }

  /** The chunk evicted last was in the buffer before, and had to go. */
  lemma {:induction false} LastNeeded(f: Files, g: Files, k: Files, was: History, h: History, room: int)
    requires Grown(f, g) && Settled(g) && |k.chunks| <= |g.chunks|
    requires Gone(g.chunks, |g.chunks| - |k.chunks|, k.chunks, was.evicted, h.evicted, room)
    ensures was.evicted <= h.evicted && Sparing(f, was, h, room)
  {
    hide Settled, Grown, Lines, Raw;
    var gone := |g.chunks| - |k.chunks|;
    if gone == 0 {
      assert g.chunks[..0] == [];
      NoLines();
      EmptyRight(was.evicted);
    } else {
      var c := g.chunks[gone - 1];
      InBuffer(f, g, gone - 1);
      TotalAppend(g.chunks[..gone - 1], c);
      assert g.chunks[..gone] == g.chunks[..gone - 1] + [c];
      Associative(was.evicted, Lines(g.chunks[..gone - 1]), c.lines);
    }
  }

  lemma {:induction false} InBuffer(f: Files, g: Files, i: nat)
    requires Grown(f, g) && Settled(g) && i < |g.chunks|
    ensures Buffered(f, g.chunks[i]) && g.chunks[i].raw == Raw(g.chunks[i].lines)
  {
    assert Sealed(g.chunks[i]);
    if i < |f.chunks| { assert g.chunks[i] == f.chunks[i]; }
  }

  lemma {:induction false} LinesStep(left: seq<Line>, cs: seq<Chunk>)
    requires cs != []
    ensures left + cs[0].lines + Lines(cs[1..]) == left + Lines(cs)
  {
    Associative(left, cs[0].lines, Lines(cs[1..]));
  }

  lemma {:induction false} StartKeeps(maxBytes: nat)
    ensures Settled(START)
    ensures Accounted(START, maxBytes, 0, 0, History([], [], [], []))
    ensures Outputs([]) == []
  {
    hide Raw, Total, Lines, Outputs;
    NoLines();
  }

  lemma NoLines()
    ensures Raw([]) == 0 && Total([]) == 0 && Lines([]) == [] && Outputs([]) == []
  {
  }

  lemma {:induction false} FileHasEncoder(f: Files)
    requires Settled(f)
    ensures f.hasFile ==> f.hasEncoder
  {
  }

  lemma {:induction false} Idle(f: Files)
    requires Settled(f) && f.chunkRaw == 0
    ensures f.hot == []
  {
    NoHot(f);
  }

  lemma {:induction false} ZeroRaw(f: Files, g: Files)
    requires Settled(g) && Listed(g.chunks, g.chunk) && SameLines(f, g)
    ensures Settled(g.(chunkRaw := 0)) && SameLines(f, g.(chunkRaw := 0))
  {
    hide Raw, Disjoint, Within, Total, Lines;
  }

  lemma {:induction false} OpenIsNewest(f: Files)
    requires Settled(f) && f.hasFile && f.chunks != []
    ensures f.chunks[0].number < f.chunk && Disjoint(f.chunks)
  {
    Earlier(f);
  }

  lemma {:induction false} NothingLeft(f: Files, maxBytes: nat, total: int, buffered: int, h: History)
    requires Accounted(f, maxBytes, total, buffered, h) && f.hot == []
    ensures f.chunks == [] ==> buffered == 0
  {
  }

  lemma {:induction false} Promised(f: Files, maxBytes: nat, total: int, buffered: int, h: History, g: History)
    requires Accounted(f, maxBytes, total, buffered, g) && h == g.(promised := h.promised)
    ensures Accounted(f, maxBytes, total, buffered, h)
  {
  }

  lemma {:induction false} FailAccounts(f: Files, maxBytes: nat, total: int, buffered: int, h: History)
    requires Accounted(f, maxBytes, total, buffered, h)
    ensures Accounted(f.(seqno := f.seqno + 1, encoderFailed := true), maxBytes, total, buffered, h)
  {
  }

  datatype Call =
    | CaptureLine(stream: byte, payload: seq<byte>, cut: bool, summary: seq<byte>, due: bool)
    | WriteLine(stream: byte, payload: seq<byte>, cut: bool)
    | Seal
    | Archive
    | Finish(summary: seq<byte>)

  /** Opens a run's log; if the first chunk cannot be created the writer starts in degraded capture. */
  method Open(maxBytes: nat, maxLine: nat, dropNew: bool, sound: bool) returns (w: Writer)
    ensures fresh(w) && w.Valid() && !w.c.closed && w.buffered == 0 && w.h == History([], [], [], [])
    ensures w.maxBytes == maxBytes && w.maxLine == maxLine && w.dropNew == dropNew && w.sound == sound
    ensures w.c.degraded == w.c.truncated && (if w.c.degraded then w.f == START && !sound else Healthy(w.f))
  {
    hide Settled, Accounted, SameLines, Outputs, Healthy;
    w := new Writer(maxBytes, maxLine, dropNew, sound);
    ghost var g := w.f;
    var ok := w.Rotate();
    SameAccounts(g, w.f, maxBytes, w.total, w.buffered, w.h);
    if !ok {
      w := new Writer(maxBytes, maxLine, dropNew, sound);
      w.c := w.c.(degraded := true, truncated := true);
    }
  }

  /** The lines handed over by the first k calls. */
  function Given(calls: seq<Call>, k: nat): seq<Output>
    requires k <= |calls|
  {
    if k == 0 then []
    else Given(calls, k - 1) + match calls[k - 1]
      case CaptureLine(stream, payload, _, _, _) => [Output(stream, payload)]
      case WriteLine(stream, payload, _) => [Output(stream, payload)]
      case _ => []
  }

  function GivenCost(calls: seq<Call>, k: nat): nat
    requires k <= |calls|
  {
    if k == 0 then 0
    else GivenCost(calls, k - 1) + match calls[k - 1]
      case CaptureLine(_, payload, _, _, _) => Cost(payload)
      case WriteLine(_, payload, _) => Cost(payload)
      case _ => 0
  }

  /** Lines that were not cut and are not over-long, seals and archive batches. */
  predicate Plain(call: Call, maxLine: nat) {
    match call
    case CaptureLine(_, payload, cut, _, _) => !cut && (maxLine == 0 || |payload| <= maxLine)
    case WriteLine(_, payload, cut) => !cut && (maxLine == 0 || |payload| <= maxLine)
    case Finish(_) => false
    case _ => true
  }

  /** Calls that leave no reason to mark the run truncated. */
  predicate Unhindered(calls: seq<Call>, maxBytes: nat, maxLine: nat) {
    && (forall i :: 0 <= i < |calls| ==> Plain(calls[i], maxLine))
    && (maxBytes == 0 || GivenCost(calls, |calls|) <= maxBytes)
  }

  lemma {:induction false} CostGrows(calls: seq<Call>, i: nat, j: nat)
    requires i <= j <= |calls|
    ensures GivenCost(calls, i) <= GivenCost(calls, j)
  {
    if i < j { CostGrows(calls, i, j - 1); }
  }

  predicate IsLine(call: Call) { call.CaptureLine? || call.WriteLine? }

  /** The frame a line is stored as. */
  function Stored(call: Call, seqno: nat, maxLine: nat): Line
    requires IsLine(call)
  {
    Line(seqno, call.stream, call.cut || |call.payload| > maxLine > 0, Shorten(call.payload, maxLine))
  }

  /** A writer on sound storage between calls. */
  predicate Steady(f: Files, c: Capture) { !c.degraded && (c.closed || Healthy(f)) }

  datatype State = State(f: Files, c: Capture, h: History, buffered: int)

  /** What a call does on sound storage. */
  ghost predicate Reacts(w: Writer, call: Call, s: State, t: State, told: seq<Output>) {
    Steady(s.f, s.c) ==>
      && Steady(t.f, t.c) && (t.c.closed <==> s.c.closed || call.Finish?)
      && if IsLine(call) && !s.c.closed then
          && told == [Output(call.stream, call.payload)]
          && t.buffered <= s.buffered + Cost(Shorten(call.payload, w.maxLine))
          && (t.c.truncated <==> s.c.truncated || call.cut || |call.payload| > w.maxLine > 0
                                 || w.Over(s.buffered, call.payload))
          && if w.Admits(s.buffered, call.payload) then
              && t.h.accepted == s.h.accepted + [Stored(call, t.f.seqno, w.maxLine)]
              && (w.dropNew ==> t.buffered == s.buffered + Cost(Shorten(call.payload, w.maxLine)))
            else t.h.accepted == s.h.accepted && t.buffered == s.buffered
        else
          && told == [] && t.c.truncated == s.c.truncated && t.h.accepted == s.h.accepted
          && t.buffered <= s.buffered && (!call.Archive? ==> t.buffered == s.buffered)
  }

  /** One call; what it told the caller, and the newest chunk sealed for archival. */
  method Perform(w: Writer, call: Call, through: int) returns (told: seq<Output>, sealed: int)
    requires w.Valid() && through < w.f.chunk
    modifies w
    ensures w.Valid() && sealed < w.f.chunk && w.sound == old(w.sound)
    ensures !w.c.truncated ==> !old(w.c.truncated) && w.h.promised == old(w.h.promised) + told
    ensures w.dropNew ==> w.h.evicted == old(w.h.evicted)
    ensures w.sound ==> Reacts(w, call, State(old(w.f), old(w.c), old(w.h), old(w.buffered)),
                               State(w.f, w.c, w.h, w.buffered), told)
  {
    hide Settled, Accounted, SameLines, Outputs, Sparing, Cost, Shorten;
    told, sealed := [], through;
    EmptyRight(w.h.promised);
    EmptyRight(w.h.accepted);
    match call
    case CaptureLine(stream, payload, cut, summary, due) =>
      var ok := w.CaptureLocked(stream, payload, cut, summary, due);
      if ok { told := [Output(stream, payload)]; }
    case WriteLine(stream, payload, cut) =>
      var ok := w.WriteLocked(stream, payload, cut);
      if ok { told := [Output(stream, payload)]; }
    case Seal =>
      var newest, ok := w.SealForArchive();
      if ok { sealed := newest; }
    case Archive =>
      var more, ok := w.ArchiveBatch(through);
    case Finish(summary) =>
      var ok := w.Close(summary);
  }

  /** What storing these lines takes. */
  function Size(outs: seq<Output>): nat {
    if outs == [] then 0 else Size(outs[..|outs| - 1]) + Cost(outs[|outs| - 1].payload)
  }

  predicate Finished(calls: seq<Call>, k: nat)
    requires k <= |calls|
  {
    exists i :: 0 <= i < k && calls[i].Finish?
  }

  /**
   The lines the overflow policy stores, with nothing archived meanwhile: under drop_new
   a line that fits beside the ones before it, otherwise a line that fits alone.
   */
  function Policy(calls: seq<Call>, k: nat, maxBytes: nat, maxLine: nat, dropNew: bool): seq<Output>
    requires k <= |calls|
  {
    if k == 0 then []
    else
      var before := Policy(calls, k - 1, maxBytes, maxLine, dropNew);
      if Finished(calls, k - 1) then before
      else match calls[k - 1]
        case CaptureLine(stream, payload, _, _, _) => before + Room(before, stream, payload, maxBytes, maxLine, dropNew)
        case WriteLine(stream, payload, _) => before + Room(before, stream, payload, maxBytes, maxLine, dropNew)
        case _ => before
  }

  function Room(before: seq<Output>, stream: byte, given: seq<byte>, maxBytes: nat, maxLine: nat, dropNew: bool)
      : seq<Output>
  {
    var payload := Shorten(given, maxLine);
    if maxBytes > 0 && (if dropNew then Size(before) else 0) + Cost(payload) > maxBytes then []
    else [Output(stream, payload)]
  }

  /** Nothing leaves the buffer for the archive, or the policy does not look at what is buffered. */
  predicate Unemptied(calls: seq<Call>, dropNew: bool) {
    dropNew ==> forall i :: 0 <= i < |calls| ==> !calls[i].Archive?
  }

  /** What holds before call i of a run on sound storage while nothing hinders it. */
  ghost predicate Smooth(s: State, calls: seq<Call>, i: nat, told: seq<Output>)
    requires i <= |calls|
  {
    && Steady(s.f, s.c) && !s.c.truncated && !s.c.closed
    && told == Given(calls, i) && s.buffered <= GivenCost(calls, i)
  }

  lemma {:induction false} SmoothStep(w: Writer, calls: seq<Call>, i: nat, s: State, t: State, told: seq<Output>,
        more: seq<Output>)
    requires i < |calls| && Smooth(s, calls, i, told) && Reacts(w, calls[i], s, t, more)
    requires Unhindered(calls, w.maxBytes, w.maxLine)
    ensures Smooth(t, calls, i + 1, told + more)
  {
    CostGrows(calls, i + 1, |calls|);
    assert Plain(calls[i], w.maxLine);
  }

  /** What holds before call i of a run on sound storage: the lines stored are those of the policy. */
  ghost predicate Policed(w: Writer, s: State, calls: seq<Call>, i: nat)
    requires i <= |calls|
  {
    && Steady(s.f, s.c) && (s.c.closed <==> Finished(calls, i))
    && Outputs(s.h.accepted) == Policy(calls, i, w.maxBytes, w.maxLine, w.dropNew)
    && (w.dropNew ==> s.buffered == Size(Policy(calls, i, w.maxBytes, w.maxLine, w.dropNew)))
  }

  lemma {:induction false} PolicedStep(w: Writer, calls: seq<Call>, i: nat, s: State, t: State, more: seq<Output>)
    requires i < |calls| && Policed(w, s, calls, i) && Reacts(w, calls[i], s, t, more) && s.buffered >= 0
    requires Unemptied(calls, w.dropNew)
    ensures Policed(w, t, calls, i + 1)
  {
    hide Outputs, Policy, Finished, Size, Cost, Shorten, Room;
    PolicyStep(calls, i, w.maxBytes, w.maxLine, w.dropNew);
    if IsLine(calls[i]) && !Finished(calls, i) {
      LinePolicy(calls, i, s.h.accepted, Stored(calls[i], t.f.seqno, w.maxLine), w.maxBytes, w.maxLine, w.dropNew);
    }
  }

  /**
   Any mix of calls under any faults: the counters match the frames, the cap holds, the
   chunks are numbered apart, and an unset truncated flag means that what is archived
   and buffered is exactly what callers were told is logged, in order.  On storage that
   does not fail, calls that give no reason for truncation do leave the flag unset, with
   every line stored; and whatever the calls, the lines stored are those the overflow
   policy picks.  Under drop_new nothing is ever evicted.
   */
  method Run(calls: seq<Call>, maxBytes: nat, maxLine: nat, dropNew: bool, sound: bool)
      returns (w: Writer, told: seq<Output>)
    ensures w.buffered == Total(w.f.chunks) + Raw(w.f.hot) && (maxBytes > 0 ==> w.buffered <= maxBytes)
    ensures w.total == Raw(w.h.left) - Raw(w.h.evicted) + w.buffered
    ensures Disjoint(w.f.chunks) && Within(w.f.chunks, w.f.chunk, w.f.seqno)
    ensures !w.c.truncated ==> w.h.evicted == [] && Outputs(w.h.left + Lines(w.f.chunks) + w.f.hot) == told
    ensures sound && Unhindered(calls, maxBytes, maxLine) ==> !w.c.truncated && told == Given(calls, |calls|)
    ensures w.h.accepted == w.h.left + Lines(w.f.chunks) + w.f.hot && (dropNew ==> w.h.evicted == [])
    ensures sound && Unemptied(calls, dropNew) ==>
              Outputs(w.h.accepted) == Policy(calls, |calls|, maxBytes, maxLine, dropNew)
  {
    hide Settled, Accounted, SameLines, Outputs, Total, Raw, Lines, Disjoint, Within, Unhindered, Sparing, Reacts;
    w := Open(maxBytes, maxLine, dropNew, sound);
    told := [];
    var through := -1;
    NoCalls(calls, maxBytes, maxLine, dropNew);
    for i := 0 to |calls|
      invariant w.Valid() && through < w.f.chunk && w.maxBytes == maxBytes && w.maxLine == maxLine && w.sound == sound
                && fresh(w) && w.dropNew == dropNew && (dropNew ==> w.h.evicted == [])
      invariant !w.c.truncated ==> w.h.promised == told
      invariant sound && Unhindered(calls, maxBytes, maxLine) ==>
                  Smooth(State(w.f, w.c, w.h, w.buffered), calls, i, told)
      invariant sound && Unemptied(calls, dropNew) ==> Policed(w, State(w.f, w.c, w.h, w.buffered), calls, i)
    {
      Meaning(w.f, maxBytes, w.total, w.buffered, w.h);
      ghost var s, before := State(w.f, w.c, w.h, w.buffered), told;
      var more;
      more, through := Perform(w, calls[i], through);
      told := told + more;
      ghost var t := State(w.f, w.c, w.h, w.buffered);
      if sound && Unhindered(calls, maxBytes, maxLine) { SmoothStep(w, calls, i, s, t, before, more); }
      if sound && Unemptied(calls, dropNew) { PolicedStep(w, calls, i, s, t, more); }
    }
    Meaning(w.f, maxBytes, w.total, w.buffered, w.h);
  }

  lemma {:induction false} NoCalls(calls: seq<Call>, maxBytes: nat, maxLine: nat, dropNew: bool)
    ensures !Finished(calls, 0) && Policy(calls, 0, maxBytes, maxLine, dropNew) == []
    ensures Size([]) == 0 && Outputs([]) == []
  {
  }

  /** One more call, and what the policy makes of it. */
  lemma {:induction false} PolicyStep(calls: seq<Call>, i: nat, maxBytes: nat, maxLine: nat, dropNew: bool)
    requires i < |calls|
    ensures Finished(calls, i + 1) <==> Finished(calls, i) || calls[i].Finish?
    ensures Finished(calls, i) || !IsLine(calls[i]) ==>
              Policy(calls, i + 1, maxBytes, maxLine, dropNew) == Policy(calls, i, maxBytes, maxLine, dropNew)
  {
    if calls[i].Finish? { assert Finished(calls, i + 1); }
    hide Room;
  }

  lemma {:induction false} LinePolicy(calls: seq<Call>, i: nat, accepted: seq<Line>, l: Line, maxBytes: nat,
        maxLine: nat, dropNew: bool)
    requires i < |calls| && IsLine(calls[i]) && !Finished(calls, i)
    requires Outputs(accepted) == Policy(calls, i, maxBytes, maxLine, dropNew)
    requires l.stream == calls[i].stream && l.payload == Shorten(calls[i].payload, maxLine)
    ensures
      var before := Policy(calls, i, maxBytes, maxLine, dropNew);
      var after := Policy(calls, i + 1, maxBytes, maxLine, dropNew);
      if maxBytes > 0 && (if dropNew then Size(before) else 0) + Cost(l.payload) > maxBytes then after == before
      else Outputs(accepted + [l]) == after && Size(after) == Size(before) + Cost(l.payload)
  {
    hide Finished, Outputs, Shorten, Cost;
    OutputsAppend(accepted, l);
    var before := Policy(calls, i, maxBytes, maxLine, dropNew);
    assert (before + [Output(l.stream, l.payload)])[..|before|] == before;
    EmptyRight(before);
  }

  lemma {:induction false} Meaning(f: Files, maxBytes: nat, total: int, buffered: int, h: History)
    requires Settled(f) && Accounted(f, maxBytes, total, buffered, h)
    ensures buffered == Total(f.chunks) + Raw(f.hot) && (maxBytes > 0 ==> buffered <= maxBytes)
    ensures total == Raw(h.left) - Raw(h.evicted) + buffered && h.accepted == h.left + Lines(f.chunks) + f.hot
    ensures Disjoint(f.chunks) && Within(f.chunks, f.chunk, f.seqno)
  {
    hide Raw, Total, Lines, Disjoint, Within;
  }
}
