/**
 How a live writer changes the layout of a run: opening a chunk, appending a frame,
 leaving a torn one behind, listing a sealed chunk and evicting the oldest.  Each step
 keeps the invariant that the reader and the archiver rely on.
 */
module Growth {
  import opened Codec
  import opened LogReader
  import opened Archive

  const NO_CHUNKS := Tiers(map[], map[], map[], map[], map[])

  /** Chunk n is the one being written: no record mentions it and nothing is newer. */
  ghost predicate Current(t: Tiers, n: nat) {
    && n !in t.rows && n !in t.index && n !in t.sealed
    && (forall m :: m in t.rows ==> m < n) && (forall m :: m in t.index ==> m < n)
    && (forall m :: m in t.sealed ==> m < n) && (forall m :: m in t.buffer ==> m <= n)
  }

  /** Sequence number s was not used before chunk n. */
  ghost predicate Unused(t: Tiers, n: nat, s: nat) {
    forall m: nat, x: nat :: m < n && Mark(t, m, x) ==> x < s
  }

  /** The current chunk's file now holds st. */
  function Write(t: Tiers, n: nat, st: Stream): Tiers {
    t.(buffer := t.buffer[n := st])
  }

  lemma StartsWell()
    ensures Inv(NO_CHUNKS) && AllFaithful(NO_CHUNKS) && Covered(NO_CHUNKS)
  {
  }

  lemma {:induction false} SalvageAppend(s: seq<byte>, e: seq<byte>)
    requires Salvage(s).end.Clean?
    ensures Salvage(s + e) == Salvaged(Frames(s) + Frames(e), Salvage(e).end)
    decreases |s|
  {
    var d := Decode(s);
    if d.Got? {
      DecodeAppend(s, e);
      SalvageAppend(d.rest, e);
      Associative([d.frame], Frames(d.rest), Frames(e));
    } else {
      assert s == [];
      assert s + e == e;
    }
  }

  lemma {:induction false} LeftoverAppend(s: seq<byte>, e: seq<byte>)
    requires Salvage(s).end.Clean?
    ensures Leftover(s + e) == Leftover(e)
    decreases |s|
  {
    var d := Decode(s);
    if d.Got? {
      DecodeAppend(s, e);
      LeftoverAppend(d.rest, e);
    } else {
      assert s == [];
      assert s + e == e;
    }
  }

  /** A frame cut within its payload leaves its whole header behind. */
  lemma {:induction false} LeftoverCut(f: Frame, k: nat)
    requires Valid(f) && HEADER <= k < |Encode(f)|
    ensures Leftover(Encode(f)[..k]) == Encode(f)[..k]
    ensures DecodeHeader(Encode(f)[..k]) == Header(Micros(f).(payload := []), |f.payload|)
  {
    EncodedHeader(f);
    assert Encode(f)[..k][..HEADER] == EncodeHeader(f) == EncodeHeader(f)[..HEADER];
    HeaderIsLocal(Encode(f)[..k], EncodeHeader(f));
  }

  lemma {:induction false} DecodeAppend(s: seq<byte>, e: seq<byte>)
    requires Decode(s).Got?
    ensures Decode(s + e) == Got(Decode(s).frame, Decode(s).rest + e)
  {
    assert (s + e)[..HEADER] == s[..HEADER];
    HeaderIsLocal(s + e, s);
    var size := DecodeHeader(s).size;
    assert (s + e)[HEADER..HEADER + size] == s[HEADER..HEADER + size];
    assert (s + e)[HEADER + size..] == s[HEADER + size..] + e;
  }

  lemma {:induction false} WriteMarks(t: Tiers, n: nat, st: Stream)
    requires Agree(t) && Current(t, n)
    ensures var u := Write(t, n, st);
            && Stored(u, n) == st
            && (forall m: nat :: m != n ==> Stored(u, m) == Stored(t, m))
            && (forall m: nat, x: nat :: m != n ==> Mark(u, m, x) == Mark(t, m, x))
            && (forall m: nat, x: nat :: m > n ==> !Mark(u, m, x))
            && (forall x: nat :: Mark(u, n, x) ==> exists i :: 0 <= i < |st.frames| && st.frames[i].sequence == x)
  {
    var u := Write(t, n, st);
    assert Stored(u, n) == st;
    forall m: nat | m != n ensures Stored(u, m) == Stored(t, m) { }
    forall m: nat, x: nat | m != n ensures Mark(u, m, x) == Mark(t, m, x) {
      assert Content(u, m) == Content(t, m);
    }
  }

  /** Chunk n got these frames at its end, and no other chunk changed. */
  ghost predicate Grew(t: Tiers, u: Tiers, n: nat, more: seq<Frame>) {
    Content(u, n) == Content(t, n) + more && forall m: nat :: m != n ==> Content(u, m) == Content(t, m)
  }

  /** Any well-formed content for the current chunk keeps the layout sound. */
  lemma {:induction false} WriteKeeps(t: Tiers, n: nat, st: Stream, more: seq<Frame>)
    requires Sound(t) && AllFaithful(t) && Current(t, n) && Faithful(st) && Increasing(st.frames)
    requires st.frames == Content(t, n) + more
    requires forall i :: 0 <= i < |st.frames| ==> Unused(t, n, st.frames[i].sequence)
    ensures var u := Write(t, n, st); Sound(u) && AllFaithful(u) && Grew(t, u, n, more) && (Inv(t) ==> Inv(u))
  {
    hide Inv, Sound, Ordered, Agree, Increasing, Mark, Unused, Faithful, Bounded, RowsFirst, Current;
    var u := Write(t, n, st);
    SoundParts(t, n);
    WriteMarks(t, n, st);
    WriteOrdered(t, n, st);
    WriteRecords(t, n, st);
    forall m: nat ensures Increasing(Content(u, m)) { SoundParts(t, m); }
    assert AllFaithful(u) && Grew(t, u, n, more);
    InvIsSound(t);
    InvIsSound(u);
    Assemble(u);
  }

  lemma {:induction false} Assemble(u: Tiers)
    requires (forall n: nat :: Increasing(Content(u, n))) && Ordered(u) && Agree(u)
    ensures Sound(u)
  {
    hide Ordered, Agree, Increasing, Content;
  }

  lemma {:induction false} WriteOrdered(t: Tiers, n: nat, st: Stream)
    requires Ordered(t) && Agree(t) && Current(t, n)
    requires forall i :: 0 <= i < |st.frames| ==> Unused(t, n, st.frames[i].sequence)
    ensures Ordered(Write(t, n, st))
  {
    var u := Write(t, n, st);
    WriteMarks(t, n, st);
    hide Stored, Agree, Mark, Current;
    forall k: nat, m: nat, x: nat, y: nat | k < m && Mark(u, k, x) && Mark(u, m, y) ensures x < y {
      if m == n {
        var i :| 0 <= i < |st.frames| && st.frames[i].sequence == y;
        assert Unused(t, n, st.frames[i].sequence);
      }
    }
  }

  lemma {:induction false} WriteRecords(t: Tiers, n: nat, st: Stream)
    requires Agree(t) && Current(t, n)
    ensures var u := Write(t, n, st); Agree(u) && (Bounded(t) ==> Bounded(u)) && (RowsFirst(t) ==> RowsFirst(u))
  {
    WriteMarks(t, n, st);
    var u := Write(t, n, st);
    hide Mark, UpTo;
    assert forall m: nat :: m != n ==> Content(u, m) == Content(t, m);
    assert Bounded(t) ==> Bounded(u) by { hide Stored, Agree, RowsFirst; }
    assert Agree(u) by { hide Stored, Bounded, RowsFirst; }
    assert RowsFirst(t) ==> RowsFirst(u) by { hide Bounded, Agree; }
  }

  lemma {:induction false} LogicalGrows(t: Tiers, u: Tiers, n: nat, more: seq<Frame>, hi: nat)
    requires Grew(t, u, n, more) && forall m: nat :: m > n ==> Content(t, m) == []
    ensures Logical(u, hi) == if hi > n then Logical(t, hi) + more else Logical(t, hi)
  {
    hide Content;
    if hi > 0 {
      LogicalGrows(t, u, n, more, hi - 1);
      Associative(Logical(t, hi - 1), Content(t, hi - 1), more);
    }
  }

  lemma {:induction false} NothingNewer(t: Tiers, n: nat)
    requires Current(t, n)
    ensures forall m: nat :: m > n ==> Content(t, m) == []
  {
  }

  /** Every older chunk with frames that is not archived is on the list. */
  ghost predicate OthersListed(t: Tiers, n: nat) {
    forall m :: m in t.buffer && m != n && m !in t.rows && Content(t, m) != [] ==> m in t.sealed
  }

  /** What the writer and the archiver rely on while chunk n is written. */
  lemma {:induction false} RewriteStays(t: Tiers, n: nat, st: Stream)
    requires Agree(t) && Current(t, n)
    ensures var u := Write(t, n, st);
            Current(u, n) && (OthersListed(t, n) ==> OthersListed(u, n) && Covered(u))
  {
    var u := Write(t, n, st);
    WriteMarks(t, n, st);
    hide Mark, Stored, Agree;
    assert forall m: nat :: m != n ==> Content(u, m) == Content(t, m);
    hide Content;
  }

  /** The current chunk got these frames, and the layout is as good as before. */
  ghost predicate Kept(t: Tiers, u: Tiers, n: nat, more: seq<Frame>, hi: nat) {
    && Sound(u) && AllFaithful(u) && Grew(t, u, n, more) && (Inv(t) ==> Inv(u))
    && Logical(u, hi) == Logical(t, hi) + more
    && Current(u, n) && (OthersListed(t, n) ==> OthersListed(u, n) && Covered(u))
  }

  lemma {:induction false} WriteKept(t: Tiers, n: nat, st: Stream, more: seq<Frame>, hi: nat)
    requires Sound(t) && AllFaithful(t) && Current(t, n) && Faithful(st) && Increasing(st.frames) && hi > n
    requires st.frames == Content(t, n) + more
    requires forall i :: 0 <= i < |st.frames| ==> Unused(t, n, st.frames[i].sequence)
    ensures Kept(t, Write(t, n, st), n, more, hi)
  {
    hide Inv, Sound, AllFaithful, Faithful, Increasing, Unused, Logical, Content, Current, OthersListed, Covered, Write;
    WriteKeeps(t, n, st, more);
    SoundParts(t, n);
    RewriteStays(t, n, st);
    NothingNewer(t, n);
    LogicalGrows(t, Write(t, n, st), n, more, hi);
  }

  /** An accepted frame becomes the last frame of the run. */
  lemma {:induction false} AppendKeeps(t: Tiers, n: nat, f: Frame, hi: nat)
    requires Sound(t) && AllFaithful(t) && Current(t, n) && n in t.buffer && t.buffer[n].end.Clean?
    requires Valid(f) && hi > n && (forall m: nat, x: nat :: Mark(t, m, x) ==> x < f.sequence)
    ensures var s := t.buffer[n];
            var u := Write(t, n, Stream(s.bytes + Encode(f), s.frames + [Micros(f)], Clean));
            Kept(t, u, n, [Micros(f)], hi)
  {
    hide Sound, Current, Mark, Content, Increasing, Unused, Kept, Encode, Valid;
    var s := t.buffer[n];
    AppendFaithful(s, f);
    AppendOrder(t, n, f);
    WriteKept(t, n, Stream(s.bytes + Encode(f), s.frames + [Micros(f)], Clean), [Micros(f)], hi);
  }

  lemma {:induction false} AppendFaithful(s: Stream, f: Frame)
    requires Faithful(s) && s.end.Clean? && Valid(f)
    ensures Faithful(Stream(s.bytes + Encode(f), s.frames + [Micros(f)], Clean))
  {
    hide Salvage, Encode;
    SalvageAppend(s.bytes, Encode(f));
    SalvageOne(f, []);
    SalvageNone();
    EmptyTail(Encode(f));
    EmptyTail([Micros(f)]);
  }

  lemma SalvageNone()
    ensures Salvage([]) == Salvaged([], Clean)
  {
  }

  lemma {:induction false} EmptyTail<T>(a: seq<T>)
    ensures a + [] == a
  {
  }

  /** The frames of the current chunk and a later one are in order. */
  lemma {:induction false} AppendOrder(t: Tiers, n: nat, f: Frame)
    requires Sound(t) && Current(t, n) && n in t.buffer && (forall m: nat, x: nat :: Mark(t, m, x) ==> x < f.sequence)
    ensures var fs := t.buffer[n].frames + [Micros(f)];
            && Content(t, n) == t.buffer[n].frames && Increasing(fs)
            && (forall i :: 0 <= i < |fs| ==> Unused(t, n, fs[i].sequence))
  {
    hide Sound, Stored;
    var fs := t.buffer[n].frames + [Micros(f)];
    CurrentFrames(t, n);
    forall i | 0 <= i < |fs| - 1 ensures Mark(t, n, fs[i].sequence) {
      assert Content(t, n)[i] == fs[i];
    }
    hide Mark;
  }

  /** The file after a write of which k bytes reached it. */
  function Partly(s: Stream, f: Frame, k: nat): Stream
    requires k <= |Encode(f)|
  {
    if k == 0 then s
    else if k < |Encode(f)| then Stream(s.bytes + Encode(f)[..k], s.frames, TornEnd)
    else Stream(s.bytes + Encode(f), s.frames + [Micros(f)], Clean)
  }

  /** A failed write adds its frame if all of it reached the file, and none otherwise. */
  lemma {:induction false} TornKeeps(t: Tiers, n: nat, f: Frame, k: nat, hi: nat)
    requires Sound(t) && AllFaithful(t) && Current(t, n) && n in t.buffer && t.buffer[n].end.Clean?
    requires Valid(f) && hi > n && k <= |Encode(f)| && (forall m: nat, x: nat :: Mark(t, m, x) ==> x < f.sequence)
    ensures Kept(t, Write(t, n, Partly(t.buffer[n], f, k)), n, if k == |Encode(f)| then [Micros(f)] else [], hi)
  {
    hide Sound, Current, Mark, Content, Increasing, Unused, Kept, Encode, Valid, Faithful;
    var s := t.buffer[n];
    EncodeSize(f);
    if k == |Encode(f)| {
      AppendKeeps(t, n, f, hi);
    } else {
      CurrentFrames(t, n);
      EmptyTail(s.frames);
      if k > 0 { TornFaithful(s, f, k); }
      assert Faithful(Partly(s, f, k));
      WriteKept(t, n, Partly(s, f, k), [], hi);
    }
  }

  lemma {:induction false} EncodeSize(f: Frame)
    ensures |Encode(f)| > 0
  {
  }

  lemma {:induction false} TornFaithful(s: Stream, f: Frame, k: nat)
    requires Faithful(s) && s.end.Clean? && Valid(f) && 0 < k < |Encode(f)|
    ensures Faithful(Stream(s.bytes + Encode(f)[..k], s.frames, TornEnd))
  {
    SalvageAppend(s.bytes, Encode(f)[..k]);
    DecodeCut(f, k);
    hide Encode, Decode;
    assert s.frames + [] == s.frames;
  }

  lemma {:induction false} CurrentFrames(t: Tiers, n: nat)
    requires Sound(t) && Current(t, n) && n in t.buffer
    ensures Content(t, n) == t.buffer[n].frames && Increasing(t.buffer[n].frames)
    ensures forall i :: 0 <= i < |t.buffer[n].frames| ==> Unused(t, n, t.buffer[n].frames[i].sequence)
  {
    hide Sound;
    SoundParts(t, n);
    var fs := t.buffer[n].frames;
    assert Content(t, n) == fs;
    forall i | 0 <= i < |fs| ensures Mark(t, n, fs[i].sequence) {
      assert Content(t, n)[i] == fs[i];
    }
    hide Mark, Agree;
  }

  /** A new chunk file is empty. */
  lemma {:induction false} OpenKeeps(t: Tiers, n: nat, hi: nat)
    requires Sound(t) && AllFaithful(t) && Current(t, n) && n !in t.buffer && hi > n
    ensures Kept(t, Write(t, n, NOTHING), n, [], hi)
  {
    assert Content(t, n) == [];
    assert Faithful(NOTHING) && Increasing(NOTHING.frames);
    hide Sound, Current, Kept, Increasing, Faithful, Content;
    WriteKept(t, n, NOTHING, [], hi);
  }

  /** The record of a closed chunk joins the list, and index.json becomes the list unless it cannot be installed. */
  function List(t: Tiers, m: Meta, indexed: bool): Tiers {
    var list := t.sealed[m.number := m];
    t.(sealed := list, index := if indexed then list else t.index)
  }

  /** Listing a chunk under a number of its own keeps the layout sound, and good if that number ends the chunk. */
  lemma {:induction false} ListKeeps(t: Tiers, m: Meta, indexed: bool)
    requires Sound(t) && AllFaithful(t) && Current(t, m.number) && Mark(t, m.number, m.last)
    ensures var u := List(t, m, indexed);
            && Sound(u) && AllFaithful(u) && Same(t, u) && MarksStay(t, u)
            && (Inv(t) && UpTo(Content(t, m.number), m.last) ==> Inv(u))
            && (OthersListed(t, m.number) ==> Covered(u))
  {
    hide Inv, Sound, Ordered, Agree, Mark, UpTo, Bounded, RowsFirst, Covered, OthersListed, Current, MarksStay;
    var u := List(t, m, indexed);
    SoundParts(t, m.number);
    ListSame(t, u);
    ListMarks(t, u, m);
    ListAgree(t, u);
    SoundStays(t, u);
    ListBounded(t, u, m);
    ListCovered(t, u, m);
    InvIsSound(t);
    InvIsSound(u);
  }

  lemma {:induction false} ListSame(t: Tiers, u: Tiers)
    requires u == t.(sealed := u.sealed, index := u.index) && AllFaithful(t)
    ensures Same(t, u) && AllFaithful(u)
  {
    hide Faithful;
    forall n: nat ensures Stored(u, n) == Stored(t, n) { }
  }

  lemma {:induction false} ListMarks(t: Tiers, u: Tiers, m: Meta)
    requires Same(t, u) && Mark(t, m.number, m.last) && u.rows == t.rows && u.sealed == t.sealed[m.number := m]
    requires u.index == t.index || u.index == u.sealed
    ensures MarksStay(t, u)
  {
    hide Stored;
    forall n: nat, x: nat | Mark(u, n, x) ensures Mark(t, n, x) {
      assert Content(u, n) == Content(t, n);
    }
  }

  lemma {:induction false} ListAgree(t: Tiers, u: Tiers)
    requires u == t.(sealed := u.sealed, index := u.index)
    ensures Agree(t) ==> Agree(u)
    ensures RowsFirst(t) ==> RowsFirst(u)
  {
    assert forall n: nat :: Stored(u, n) == Stored(t, n);
    hide Stored;
  }

  lemma {:induction false} ListBounded(t: Tiers, u: Tiers, m: Meta)
    requires Same(t, u) && u.rows == t.rows && u.sealed == t.sealed[m.number := m]
    requires u.index == t.index || u.index == u.sealed
    ensures Bounded(t) && UpTo(Content(t, m.number), m.last) ==> Bounded(u)
  {
    hide Stored, UpTo;
    assert forall k: nat :: Content(u, k) == Content(t, k);
  }

  lemma {:induction false} ListCovered(t: Tiers, u: Tiers, m: Meta)
    requires Same(t, u) && u.rows == t.rows && u.buffer == t.buffer && u.sealed == t.sealed[m.number := m]
    ensures OthersListed(t, m.number) ==> Covered(u)
  {
    assert forall k: nat :: Content(u, k) == Content(t, k);
    hide Content;
  }

  /** The chunk's frames are in the archive. */
  predicate Archived(t: Tiers, n: nat) { n in t.rows && (t.rows[n].Blob? || n in t.archive) }

  /** Eviction unlinks the file and strikes the chunk off the list; index.json is not rewritten. */
  function Evict(t: Tiers, n: nat): Tiers {
    t.(buffer := t.buffer - {n}, sealed := t.sealed - {n})
  }

  /** Evicting a listed chunk removes its frames unless they are archived, and no others. */
  lemma {:induction false} EvictKeeps(t: Tiers, n: nat)
    requires Sound(t) && AllFaithful(t) && n in t.sealed
    ensures var u := Evict(t, n);
            && Sound(u) && AllFaithful(u) && (Inv(t) ==> Inv(u)) && (Covered(t) ==> Covered(u))
            && Content(u, n) == (if Archived(t, n) then Content(t, n) else [])
            && (forall m: nat :: m != n ==> Content(u, m) == Content(t, m))
            && MarksStay(t, u)
  {
    hide Inv, Sound, Ordered, Agree, Mark, Bounded, RowsFirst, Covered, Stored, Increasing;
    var u := Evict(t, n);
    SoundParts(t, n);
    EvictStored(t, u, n);
    EvictMarks(t, u, n);
    EvictAgree(t, u, n);
    EvictGood(t, u, n);
    forall m: nat ensures Increasing(Content(u, m)) {
      SoundParts(t, m);
      NoFrames();
    }
    OrderedStays(t, u);
    Assemble(u);
    InvIsSound(t);
    InvIsSound(u);
  }

  lemma {:induction false} EvictStored(t: Tiers, u: Tiers, n: nat)
    requires Agree(t) && AllFaithful(t) && u == Evict(t, n)
    ensures Stored(u, n) == (if Archived(t, n) then Stored(t, n) else NOTHING) && AllFaithful(u)
    ensures n in t.archive ==> Archived(t, n)
    ensures forall m: nat :: m != n ==> Stored(u, m) == Stored(t, m)
  {
    hide Faithful;
  }

  /** What is left of the evicted chunk: all its frames or none. */
  ghost predicate LeftOf(t: Tiers, u: Tiers, n: nat) {
    && (Content(u, n) == Content(t, n) || Content(u, n) == [])
    && forall m: nat :: m != n ==> Stored(u, m) == Stored(t, m)
  }

  lemma {:induction false} EvictMarks(t: Tiers, u: Tiers, n: nat)
    requires u == Evict(t, n) && LeftOf(t, u, n)
    ensures MarksStay(t, u)
  {
    hide Stored;
    forall m: nat, x: nat | Mark(u, m, x) ensures Mark(t, m, x) {
      assert m != n ==> Content(u, m) == Content(t, m);
    }
  }

  lemma {:induction false} OrderedStays(t: Tiers, u: Tiers)
    requires Ordered(t) && MarksStay(t, u)
    ensures Ordered(u)
  {
    hide Mark;
  }

  lemma {:induction false} EvictAgree(t: Tiers, u: Tiers, n: nat)
    requires Agree(t) && u == Evict(t, n) && LeftOf(t, u, n)
    requires n in t.archive ==> Stored(u, n) == Stored(t, n)
    ensures Agree(u)
  {
    hide Stored;
  }

  lemma {:induction false} EvictGood(t: Tiers, u: Tiers, n: nat)
    requires u == Evict(t, n) && LeftOf(t, u, n)
    ensures (Bounded(t) ==> Bounded(u)) && (RowsFirst(t) ==> RowsFirst(u)) && (Covered(t) ==> Covered(u))
  {
    hide Stored;
    assert Bounded(t) ==> Bounded(u) by { hide RowsFirst, Covered; }
    assert RowsFirst(t) ==> RowsFirst(u) by { hide Bounded, Covered, UpTo; }
    assert Covered(t) ==> Covered(u) by { hide Bounded, RowsFirst, UpTo; }
  }
}
