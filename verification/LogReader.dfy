/**
 The paged reader over a run's storage tiers: archived rows (blobs, or files in the
 archive directory) and chunk files in the buffer directory.

 The reference is one sequence of frames in increasing order, Logical.  The reader
 never sees it: it walks rows by last sequence, then buffer files by number, and
 drops whatever it has already passed.
 */
module LogReader {
  import opened Codec

  /** Index metadata of a sealed chunk. */
  datatype Meta = Meta(number: nat, first: nat, last: nat, bytes: nat, raw: nat)

  /** A stored chunk: its bytes, what decoding them yields, and how the decoding ends. */
  datatype Stream = Stream(bytes: seq<byte>, frames: seq<Frame>, end: End)

  const NOTHING := Stream([], [], Clean)

  predicate Faithful(s: Stream) {
    Salvage(s.bytes) == Salvaged(s.frames, s.end)
  }

  /** An archived chunk: its bytes in the row, or in a file next to the database. */
  datatype Row =
    | Blob(first: nat, last: nat, raw: nat, blob: Stream)
    | File(first: nat, last: nat, raw: nat, fileBytes: nat)

  /**
   Where one run's chunks live, by chunk number.  `index` is index.json in the buffer
   directory; `sealed` is the chunk list the writer holds in memory.
   */
  datatype Tiers = Tiers(
    rows: map<nat, Row>,
    archive: map<nat, Stream>,
    buffer: map<nat, Stream>,
    index: map<nat, Meta>,
    sealed: map<nat, Meta>)

  // ---------------------------------------------------------------- the reference

  /** The bytes a reader finds for chunk n: the row's, else the archive file's, else the buffer's. */
  function Stored(t: Tiers, n: nat): Stream {
    if n in t.rows && t.rows[n].Blob? then t.rows[n].blob
    else if n in t.rows && n in t.archive then t.archive[n]
    else if n in t.buffer then t.buffer[n]
    else NOTHING
  }

  function Content(t: Tiers, n: nat): seq<Frame> {
    Stored(t, n).frames
  }

  /** Every retained frame of the chunks numbered below hi, in chunk order. */
  function Logical(t: Tiers, hi: nat): seq<Frame> {
    if hi == 0 then [] else Logical(t, hi - 1) + Content(t, hi - 1)
  }

  predicate Increasing(fs: seq<Frame>) {
    forall i, j :: 0 <= i < j < |fs| ==> fs[i].sequence < fs[j].sequence
  }

  predicate UpTo(fs: seq<Frame>, last: nat) {
    forall i :: 0 <= i < |fs| ==> fs[i].sequence <= last
  }

  predicate Beyond(fs: seq<Frame>, last: nat) {
    forall i :: 0 <= i < |fs| ==> fs[i].sequence > last
  }

  /** The frames with a sequence above the cursor. */
  function After(fs: seq<Frame>, cursor: nat): seq<Frame> {
    if fs == [] then []
    else (if fs[0].sequence > cursor then [fs[0]] else []) + After(fs[1..], cursor)
  }

  /** x is a sequence number that chunk n holds, or that some record of n ends at. */
  predicate Mark(t: Tiers, n: nat, x: nat) {
    || (n in t.rows && t.rows[n].last == x)
    || (n in t.index && t.index[n].last == x)
    || (n in t.sealed && t.sealed[n].last == x)
    || exists i :: 0 <= i < |Content(t, n)| && Content(t, n)[i].sequence == x
  }

  /** Chunks are numbered in write order: everything about n precedes everything about m. */
  ghost predicate Ordered(t: Tiers) {
    forall n: nat, m: nat, x: nat, y: nat :: n < m && Mark(t, n, x) && Mark(t, m, y) ==> x < y
  }

  /** No record of a chunk ends before the frames the chunk holds. */
  ghost predicate Bounded(t: Tiers) {
    && (forall n :: n in t.rows ==> UpTo(Content(t, n), t.rows[n].last))
    && (forall n :: n in t.index ==> UpTo(Content(t, n), t.index[n].last))
    && (forall n :: n in t.sealed ==> UpTo(Content(t, n), t.sealed[n].last))
  }

  /** Copies left behind by an interrupted move hold the same frames. */
  ghost predicate Agree(t: Tiers) {
    && (forall n :: n in t.buffer && n in t.rows ==> t.buffer[n].frames == Content(t, n))
    && (forall n :: n in t.archive ==> n in t.rows && t.archive[n].frames == Content(t, n))
  }

  predicate Intact(t: Tiers, n: nat) {
    !Stored(t, n).end.CorruptEnd?
  }

  /** Archived chunks precede every chunk that only the buffer has. */
  ghost predicate RowsFirst(t: Tiers) {
    forall n, m :: n in t.rows && m in t.buffer && m !in t.rows && Content(t, m) != [] && Intact(t, m) ==> n < m
  }

  ghost predicate Inv(t: Tiers) {
    && (forall n: nat {:trigger Content(t, n)} :: Increasing(Content(t, n)))
    && Ordered(t) && Bounded(t) && Agree(t) && RowsFirst(t)
  }

  /** Every stored stream decodes to what is recorded for it. */
  ghost predicate AllFaithful(t: Tiers) {
    && (forall n :: n in t.rows && t.rows[n].Blob? ==> Faithful(t.rows[n].blob))
    && (forall n :: n in t.archive ==> Faithful(t.archive[n]))
    && (forall n :: n in t.buffer ==> Faithful(t.buffer[n]))
  }

  ghost predicate Below(t: Tiers, hi: nat) {
    && (forall n :: n in t.rows ==> n < hi)
    && (forall n :: n in t.buffer ==> n < hi)
  }

  /** No chunk a reader would open is damaged inside. */
  ghost predicate Readable(t: Tiers) {
    && (forall n :: n in t.rows ==> Intact(t, n))
    && (forall n :: n in t.buffer ==> !t.buffer[n].end.CorruptEnd?)
  }

  // ---------------------------------------------------------------- sequences of frames

  lemma {:induction false} EmptyRight<T>(a: seq<T>)
    ensures a + [] == a
  {
  }

  lemma {:induction false} AfterConcat(a: seq<Frame>, b: seq<Frame>, c: nat)
    ensures After(a + b, c) == After(a, c) + After(b, c)
  {
    if a == [] {
      assert a + b == b;
    } else {
      assert (a + b)[1..] == a[1..] + b;
      AfterConcat(a[1..], b, c);
    }
  }

  lemma {:induction false} AfterAll(fs: seq<Frame>, c: nat)
    requires Beyond(fs, c)
    ensures After(fs, c) == fs
  {
    if fs != [] { AfterAll(fs[1..], c); }
  }

  lemma {:induction false} AfterNone(fs: seq<Frame>, c: nat)
    requires UpTo(fs, c)
    ensures After(fs, c) == []
  {
    if fs != [] { AfterNone(fs[1..], c); }
  }

  /** Raising the cursor over frames that are all above both changes nothing. */
  lemma {:induction false} AfterBetween(fs: seq<Frame>, c: nat, d: nat)
    requires c <= d
    requires forall i :: 0 <= i < |fs| && fs[i].sequence > c ==> fs[i].sequence > d
    ensures After(fs, d) == After(fs, c)
  {
    if fs != [] { AfterBetween(fs[1..], c, d); }
  }

  lemma {:induction false} AfterMember(fs: seq<Frame>, c: nat, i: nat)
    requires i < |fs| && fs[i].sequence > c
    ensures fs[i] in After(fs, c)
  {
    if i > 0 { AfterMember(fs[1..], c, i - 1); }
  }

  lemma {:induction false} AfterSubset(fs: seq<Frame>, c: nat)
    ensures Beyond(After(fs, c), c)
    ensures forall f :: f in After(fs, c) ==> f in fs
    ensures Increasing(fs) ==> Increasing(After(fs, c))
  {
    if fs != [] {
      AfterSubset(fs[1..], c);
      assert fs == [fs[0]] + fs[1..];
      if Increasing(fs) {
        forall j | 0 <= j < |After(fs[1..], c)| ensures fs[0].sequence < After(fs[1..], c)[j].sequence {
          assert After(fs[1..], c)[j] in fs[1..];
        }
      }
    }
  }

  /** A prefix of the frames after c, taken off, leaves the frames after its last sequence. */
  lemma {:induction false} AfterPage(fs: seq<Frame>, c: nat, page: seq<Frame>)
    requires Increasing(fs)
    requires page <= After(fs, c) && page != []
    ensures page[|page| - 1].sequence > c
    ensures After(fs, c) == page + After(fs, page[|page| - 1].sequence)
  {
    var last := page[|page| - 1].sequence;
    AfterSubset(fs, c);
    var all := After(fs, c);
    assert all[|page| - 1].sequence == last;
    AfterTwice(fs, c, last);
    AfterCut(all, |page|);
    assert all[..|page|] == page;
  }

  lemma {:induction false} AfterSplit(a: seq<Frame>, b: seq<Frame>, c: nat)
    requires UpTo(a, c) && Beyond(b, c)
    ensures After(a + b, c) == b
  {
    AfterConcat(a, b, c);
    AfterNone(a, c);
    AfterAll(b, c);
    assert [] + b == b;
  }

  lemma {:induction false} IncreasingCut(all: seq<Frame>, k: nat)
    requires Increasing(all) && 0 < k <= |all|
    ensures UpTo(all[..k], all[k - 1].sequence) && Beyond(all[k..], all[k - 1].sequence)
  {
  }

  lemma {:induction false} AfterCut(all: seq<Frame>, k: nat)
    requires Increasing(all) && 0 < k <= |all|
    ensures all == all[..k] + After(all, all[k - 1].sequence)
  {
    hide *;
    var a, b := all[..k], all[k..];
    assert all == a + b;
    IncreasingCut(all, k);
    AfterSplit(a, b, all[k - 1].sequence);
  }

  lemma {:induction false} AfterTwice(fs: seq<Frame>, c: nat, d: nat)
    requires c <= d
    ensures After(After(fs, c), d) == After(fs, d)
  {
    if fs != [] {
      AfterTwice(fs[1..], c, d);
      AfterConcat(if fs[0].sequence > c then [fs[0]] else [], After(fs[1..], c), d);
    }
  }

  // ---------------------------------------------------------------- one page

  function Size(f: Frame): nat {
    HEADER + |f.payload|
  }

  /** The encoded size of the first k frames. */
  function Bytes(fs: seq<Frame>, k: nat): nat
    requires k <= |fs|
  {
    if k == 0 then 0 else Bytes(fs, k - 1) + Size(fs[k - 1])
  }

  lemma {:induction false} BytesPrefix(fs: seq<Frame>, f: Frame, k: nat)
    requires k <= |fs|
    ensures Bytes(fs + [f], k) == Bytes(fs, k)
  {
    if k > 0 { BytesPrefix(fs, f, k - 1); }
  }

  datatype Page = Page(out: seq<Frame>, last: nat, bytes: nat, more: bool)

  /** The page respects its limits; only a single frame may exceed the byte budget. */
  predicate Fits(p: Page, limit: nat, budget: nat) {
    && |p.out| <= limit
    && p.bytes == Bytes(p.out, |p.out|)
    && (|p.out| > 1 ==> p.bytes <= budget)
    && (p.more ==> |p.out| < limit && (p.out != [] ==> p.bytes < budget))
    && (p.out != [] ==> p.last == p.out[|p.out| - 1].sequence)
  }

  /**
   q continues p over a source whose unread frames are `unseen`: it took a prefix of
   them, and all of them unless it stopped with something on the page.
   */
  predicate Continues(p: Page, q: Page, unseen: seq<Frame>) {
    && p.out <= q.out <= p.out + unseen
    && (if q.more then q.out == p.out + unseen else q.out != [])
    && (q.out == p.out ==> q.last == p.last)
  }

  /** A whole header at the end of a stream, of a frame beyond the cursor that would not fit the page. */
  predicate Barred(tail: seq<byte>, last: nat, bytes: nat, budget: nat) {
    var h := DecodeHeader(tail);
    h.Header? && h.frame.sequence > last && bytes + HEADER + h.size > budget
  }

  /** The page cannot take the next of these frames, or any. */
  predicate Tight(out: seq<Frame>, all: seq<Frame>, limit: nat, budget: nat) {
    && out != []
    && (|| |out| == limit
        || Bytes(out, |out|) >= budget
        || (|out| < |all| && Bytes(out, |out|) + Size(all[|out|]) > budget))
  }

  /** Reading one source stopped because the page is full, or at a torn frame announced as too large for it. */
  ghost predicate Halts(p: Page, q: Page, unseen: seq<Frame>, tail: seq<byte>, limit: nat, budget: nat) {
    if q.more then q.out != [] ==> !Barred(tail, q.last, q.bytes, budget)
    else
      || Tight(q.out, p.out + unseen, limit, budget)
      || (q.out == p.out + unseen && q.out != [] && Barred(tail, q.last, q.bytes, budget))
  }

  /** What one decoded header says about the frames still to come. */
  lemma {:induction false} NextFrame(s: seq<byte>, left: seq<Frame>, end: End)
    requires Salvage(s) == Salvaged(left, end)
    ensures var h := DecodeHeader(s);
            && (h.Damaged? ==> end.CorruptEnd?)
            && (!h.Header? || |s| < HEADER + h.size ==> left == [] && Leftover(s) == s)
            && (h.Header? && |s| >= HEADER + h.size ==>
                  && left != [] && left[0] == h.frame.(payload := s[HEADER..HEADER + h.size])
                  && Salvage(s[HEADER + h.size..]) == Salvaged(left[1..], end)
                  && Leftover(s) == Leftover(s[HEADER + h.size..]))
  {
  }

  function Append(p: Page, f: Frame, limit: nat, budget: nat): Page {
    var out, bytes := p.out + [f], p.bytes + Size(f);
    Page(out, f.sequence, bytes, |out| < limit && bytes < budget)
  }

  lemma {:induction false} AppendFits(p: Page, f: Frame, limit: nat, budget: nat)
    requires p.more && Fits(p, limit, budget) && (p.out == [] || p.bytes + Size(f) <= budget)
    ensures Fits(Append(p, f, limit, budget), limit, budget)
  {
    BytesPrefix(p.out, f, |p.out|);
  }

  /** Partway through a source: `done` has been decoded and `left` is still to come. */
  ghost predicate Midway(done: seq<Frame>, left: seq<Frame>, p: Page, q: Page) {
    && q.more
    && q.out == p.out + After(done, p.last)
    && q.last >= p.last
    && (q.last == p.last || Beyond(left, q.last))
    && (q.out == p.out ==> q.last == p.last)
  }

  lemma {:induction false} MidwayEnd(done: seq<Frame>, left: seq<Frame>, p: Page, q: Page, limit: nat, budget: nat)
    requires Midway(done, left, p, q) && Fits(q, limit, budget)
    ensures Fits(q.(more := false), limit, budget)
    ensures left == [] ==> Continues(p, q, After(done + left, p.last))
    ensures q.out != [] ==> Continues(p, q.(more := false), After(done + left, p.last))
    ensures p.out + After(done + left, p.last) == q.out + After(left, p.last)
    ensures left != [] && left[0].sequence > q.last ==> After(left, p.last) != [] && After(left, p.last)[0] == left[0]
  {
    AfterConcat(done, left, p.last);
    Associative(p.out, After(done, p.last), After(left, p.last));
    assert left == [] ==> After(done, p.last) + [] == After(done, p.last);
  }

  /** A page that ends before a frame that does not fit, or at a torn one that would not. */
  lemma {:induction false} FullHalts(done: seq<Frame>, left: seq<Frame>, p: Page, q: Page, tail: seq<byte>,
        limit: nat, budget: nat)
    requires Midway(done, left, p, q) && Fits(q, limit, budget) && q.out != []
    requires if left == [] then Barred(tail, q.last, q.bytes, budget)
             else left[0].sequence > q.last && q.bytes + Size(left[0]) > budget
    ensures Halts(p, q.(more := false), After(done + left, p.last), tail, limit, budget)
  {
    MidwayEnd(done, left, p, q, limit, budget);
    hide Midway, After;
    if left == [] { EmptyRight(q.out); }
  }

  lemma {:induction false} TightHalts(p: Page, q: Page, unseen: seq<Frame>, tail: seq<byte>, limit: nat, budget: nat)
    requires !q.more && Tight(q.out, p.out + unseen, limit, budget)
    ensures Halts(p, q, unseen, tail, limit, budget)
  {
  }

  lemma {:induction false} EndHalts(done: seq<Frame>, left: seq<Frame>, p: Page, q: Page, tail: seq<byte>, limit: nat,
        budget: nat)
    requires q.more && (q.out != [] ==> !Barred(tail, q.last, q.bytes, budget))
    ensures Halts(p, q, After(done + left, p.last), tail, limit, budget)
  {
  }

  lemma {:induction false} MidwaySkip(done: seq<Frame>, f: Frame, left: seq<Frame>, p: Page, q: Page)
    requires Midway(done, [f] + left, p, q) && f.sequence <= q.last
    ensures Midway(done + [f], left, p, q)
  {
    assert ([f] + left)[0] == f;
    AfterConcat(done, [f], p.last);
    assert After(done, p.last) + [] == After(done, p.last);
  }

  lemma {:induction false} MidwayTake(done: seq<Frame>, f: Frame, left: seq<Frame>, p: Page, q: Page, limit: nat,
        budget: nat)
    requires Midway(done, [f] + left, p, q) && f.sequence > q.last
    requires Increasing(done + ([f] + left))
    ensures var r := Append(q, f, limit, budget);
            && (r.more ==> Midway(done + [f], left, p, r))
            && (!r.more ==> Continues(p, r, After((done + [f]) + left, p.last)))
            && r.out <= p.out + After((done + [f]) + left, p.last)
  {
    var r := Append(q, f, limit, budget);
    AfterConcat(done, [f], p.last);
    Associative(p.out, After(done, p.last), [f]);
    assert r.out == p.out + After(done + [f], p.last);
    forall i | 0 <= i < |left| ensures left[i].sequence > f.sequence {
      var all := done + ([f] + left);
      assert all[|done|] == f && all[|done| + 1 + i] == left[i];
    }
    AfterConcat(done + [f], left, p.last);
    Associative(p.out, After(done + [f], p.last), After(left, p.last));
  }

  /** Skips or takes the next frame of a source, whose payload is known to be whole. */
  method ConsumeOne(f: Frame, limit: nat, budget: nat, ghost p: Page, q: Page, ghost done: seq<Frame>,
      ghost left: seq<Frame>)
    returns (r: Page)
    requires Fits(q, limit, budget) && Midway(done, left, p, q) && Increasing(done + left)
    requires left != [] && left[0] == f
    requires f.sequence > q.last && q.out != [] ==> q.bytes + Size(f) <= budget
    ensures Fits(r, limit, budget) && done + left == (done + [f]) + left[1..]
    ensures r.more ==> Midway(done + [f], left[1..], p, r)
    ensures !r.more ==> Continues(p, r, After(done + left, p.last))
    ensures !r.more ==> Tight(r.out, p.out + After(done + left, p.last), limit, budget)
  {
    assert left == [f] + left[1..];
    Associative(done, [f], left[1..]);
    if f.sequence <= q.last {
      MidwaySkip(done, f, left[1..], p, q);
      r := q;
    } else {
      MidwayTake(done, f, left[1..], p, q, limit, budget);
      AppendFits(q, f, limit, budget);
      r := Append(q, f, limit, budget);
    }
  }

  /** What the decoder finds next: the end, damage, a frame that must wait for the next page, or a frame. */
  datatype Next = AtEnd | Bad | Full | Whole(frame: Frame, rest: seq<byte>)

  method Peek(rest: seq<byte>, budget: nat, q: Page, ghost left: seq<Frame>, ghost end: End) returns (next: Next)
    requires Salvage(rest) == Salvaged(left, end)
    ensures next.Bad? ==> end.CorruptEnd?
    ensures next.AtEnd? ==> left == [] && Leftover(rest) == rest
    ensures next.AtEnd? ==> (q.out != [] ==> !Barred(rest, q.last, q.bytes, budget))
    ensures next.Full? ==> q.out != []
    ensures next.Full? && left == [] ==> Leftover(rest) == rest && Barred(rest, q.last, q.bytes, budget)
    ensures next.Full? && left != [] ==> left[0].sequence > q.last && q.bytes + Size(left[0]) > budget
    ensures next.Whole? ==> left != [] && left[0] == next.frame
    ensures next.Whole? ==> Salvage(next.rest) == Salvaged(left[1..], end) && |next.rest| < |rest|
    ensures next.Whole? ==> Leftover(next.rest) == Leftover(rest)
    ensures next.Whole? && next.frame.sequence > q.last && q.out != [] ==> q.bytes + Size(next.frame) <= budget
  {
    NextFrame(rest, left, end);
    hide Salvage, Leftover;
    var h := DecodeHeader(rest);
    if h.Damaged? {
      next := Bad;
    } else if !h.Header? {
      next := AtEnd;
    } else if h.frame.sequence > q.last && q.out != [] && q.bytes + h.size + HEADER > budget {
      next := Full; // stop before reading a payload that cannot fit
    } else if |rest| < HEADER + h.size {
      next := AtEnd; // torn payload
    } else {
      next := Whole(h.frame.(payload := rest[HEADER..HEADER + h.size]), rest[HEADER + h.size..]);
    }
  }

  /** Decodes one source into the page, stopping at the page limits. */
  method Consume(src: Stream, limit: nat, budget: nat, p: Page) returns (q: Page, ok: bool)
    requires p.more && Fits(p, limit, budget)
    requires Faithful(src) && Increasing(src.frames)
    ensures !ok ==> src.end.CorruptEnd?
    ensures ok ==> Continues(p, q, After(src.frames, p.last)) && Fits(q, limit, budget)
    ensures ok ==> Halts(p, q, After(src.frames, p.last), Leftover(src.bytes), limit, budget)
  {
    q, ok := p, true;
    var rest := src.bytes;
    ghost var done, left := [], src.frames;
    assert Midway(done, left, p, q) && Salvage(rest) == Salvaged(left, src.end);
    hide *;
    while true
      invariant src.frames == done + left && Salvage(rest) == Salvaged(left, src.end)
      invariant Leftover(rest) == Leftover(src.bytes)
      invariant ok && q.more && Fits(q, limit, budget) && Midway(done, left, p, q)
      decreases |rest|
    {
      MidwayEnd(done, left, p, q, limit, budget);
      var next := Peek(rest, budget, q, left, src.end);
      match next {
        case AtEnd =>
          EndHalts(done, left, p, q, rest, limit, budget);
          return;
        case Bad => return q, false;
        case Full =>
          FullHalts(done, left, p, q, Leftover(src.bytes), limit, budget);
          return q.(more := false), true;
        case Whole(f, more) =>
          q := ConsumeOne(f, limit, budget, p, q, done, left);
          if !q.more {
            TightHalts(p, q, After(src.frames, p.last), Leftover(src.bytes), limit, budget);
            return;
          }
          rest, done, left := more, done + [f], left[1..];
      }
    }
  }

  // ---------------------------------------------------------------- the whole layout

  /** What any layout promises, whatever its records say about where chunks end. */
  ghost predicate Sound(t: Tiers) {
    && (forall n: nat {:trigger Content(t, n)} :: Increasing(Content(t, n)))
    && Ordered(t) && Agree(t)
  }

  lemma {:induction false} InvIsSound(t: Tiers)
    ensures Inv(t) <==> Sound(t) && Bounded(t) && RowsFirst(t)
  {
    hide Ordered, Bounded, Agree, RowsFirst, Increasing, Content;
  }

  lemma {:induction false} SoundParts(t: Tiers, n: nat)
    requires Sound(t)
    ensures Ordered(t) && Agree(t) && Increasing(Content(t, n))
  {
    hide Ordered, Agree, Increasing, Content;
  }

  /** A sealed chunk may be skipped when its index entry ends at or before the cursor. */
  predicate SkippedByIndex(t: Tiers, n: nat, after: nat) {
    after > 0 && |t.buffer| > 1 && n in t.index && t.index[n].first > 0 && t.index[n].first <= t.index[n].last <= after
  }

  predicate Opens(t: Tiers, after: nat, n: nat) { n in t.buffer && !SkippedByIndex(t, n, after) }

  /** The frames after the cursor in the archived chunks below hi that end beyond it. */
  function RowRead(t: Tiers, after: nat, hi: nat): seq<Frame> {
    if hi == 0 then []
    else RowRead(t, after, hi - 1)
         + (if hi - 1 in t.rows && t.rows[hi - 1].last > after then After(Content(t, hi - 1), after) else [])
  }

  /** Where the cursor stands once these frames were returned. */
  function LastOf(out: seq<Frame>, after: nat): nat { if out == [] then after else out[|out| - 1].sequence }

  /** The archived part, then of each opened buffer file below n what lies beyond everything read before. */
  function Scan(t: Tiers, hi: nat, after: nat, n: nat): seq<Frame> {
    if n == 0 then RowRead(t, after, hi)
    else
      var out := Scan(t, hi, after, n - 1);
      out + (if Opens(t, after, n - 1) then After(Content(t, n - 1), LastOf(out, after)) else [])
  }

  /** What the reader can see after a cursor, given what the records say. */
  function Seen(t: Tiers, hi: nat, after: nat): seq<Frame> { Scan(t, hi, after, hi) }

  lemma {:induction false} FrameOrder(t: Tiers, m: nat, f: Frame, n: nat, g: Frame)
    requires Ordered(t) && m < n && f in Content(t, m) && g in Content(t, n)
    ensures f.sequence < g.sequence
  {
    assert Mark(t, m, f.sequence) && Mark(t, n, g.sequence) by { hide Ordered, Stored; }
    hide Mark, Content;
  }

  /** A frame is in one chunk only. */
  lemma {:induction false} OnlyIn(t: Tiers, n: nat, f: Frame, m: nat)
    requires Ordered(t) && f in Content(t, n) && f in Content(t, m)
    ensures m == n
  {
    hide Ordered, Content;
    if m < n { FrameOrder(t, m, f, n, f); } else if n < m { FrameOrder(t, n, f, m, f); }
  }

  lemma {:induction false} InAfter(fs: seq<Frame>, c: nat, f: Frame)
    ensures f in After(fs, c) <==> f in fs && f.sequence > c
  {
    AfterSubset(fs, c);
    if f in fs && f.sequence > c {
      var i :| 0 <= i < |fs| && fs[i] == f;
      AfterMember(fs, c, i);
    }
  }

  /** Row n shows frame f to a reader with this cursor. */
  predicate RowShows(t: Tiers, after: nat, n: nat, f: Frame) {
    n in t.rows && t.rows[n].last > after && f in Content(t, n) && f.sequence > after
  }

  lemma {:induction false} InRows(t: Tiers, after: nat, hi: nat, f: Frame)
    ensures f in RowRead(t, after, hi) <==> exists n: nat :: n < hi && RowShows(t, after, n, f)
  {
    hide RowShows, RowRead;
    if hi == 0 {
      NoRows(t, after);
    } else {
      InRows(t, after, hi - 1, f);
      RowAdds(t, after, hi - 1, f);
    }
  }

  lemma {:induction false} RowAdds(t: Tiers, after: nat, n: nat, f: Frame)
    ensures f in RowRead(t, after, n + 1) <==> f in RowRead(t, after, n) || RowShows(t, after, n, f)
  {
    hide Content, After;
    InAfter(Content(t, n), after, f);
  }

  lemma {:induction false} NoRows(t: Tiers, after: nat)
    ensures RowRead(t, after, 0) == []
  {
  }

  lemma {:induction false} InLogical(t: Tiers, hi: nat, f: Frame)
    ensures f in Logical(t, hi) <==> exists n: nat :: n < hi && f in Content(t, n)
  {
    if hi > 0 {
      InLogical(t, hi - 1, f);
      hide Content;
    }
  }

  lemma {:induction false} IncreasingJoin(a: seq<Frame>, b: seq<Frame>)
    requires Increasing(a) && Increasing(b) && forall f, g :: f in a && g in b ==> f.sequence < g.sequence
    ensures Increasing(a + b)
  {
    var s := a + b;
    forall i, j | 0 <= i < j < |s| ensures s[i].sequence < s[j].sequence {
      if i < |a| <= j { assert a[i] in a && b[j - |a|] in b; }
    }
  }

  /** The retained frames of a run form one strictly increasing sequence: each appears once. */
  lemma {:induction false} LogicalIncreasing(t: Tiers, hi: nat)
    requires Sound(t)
    ensures Increasing(Logical(t, hi))
  {
    hide Sound, Increasing, Content;
    if hi > 0 {
      var n := hi - 1;
      LogicalIncreasing(t, n);
      SoundParts(t, n);
      forall f, g | f in Logical(t, n) && g in Content(t, n) ensures f.sequence < g.sequence {
        InLogical(t, n, f);
        var m: nat :| m < n && f in Content(t, m);
        FrameOrder(t, m, f, n, g);
      }
      IncreasingJoin(Logical(t, n), Content(t, n));
    } else {
      NoFrames();
    }
  }

  lemma NoFrames()
    ensures Increasing([])
  {
  }

  lemma {:induction false} RowsIncreasing(t: Tiers, after: nat, hi: nat)
    requires Sound(t)
    ensures Increasing(RowRead(t, after, hi)) && Beyond(RowRead(t, after, hi), after)
  {
    hide Sound, Increasing, Content, After, Beyond;
    BeyondIs(RowRead(t, after, hi), after);
    forall f | f in RowRead(t, after, hi) ensures f.sequence > after { InRows(t, after, hi, f); }
    if hi > 0 {
      var n := hi - 1;
      RowsIncreasing(t, after, n);
      SoundParts(t, n);
      AfterSubset(Content(t, n), after);
      forall f, g | f in RowRead(t, after, n) && g in After(Content(t, n), after) ensures f.sequence < g.sequence {
        InRows(t, after, n, f);
        var m: nat :| m < n && RowShows(t, after, m, f);
        FrameOrder(t, m, f, n, g);
      }
      IncreasingJoin(RowRead(t, after, n), After(Content(t, n), after));
      EmptyRight(RowRead(t, after, n));
    } else {
      NoFrames();
    }
  }

  lemma {:induction false} BeyondIs(fs: seq<Frame>, c: nat)
    ensures Beyond(fs, c) <==> forall f :: f in fs ==> f.sequence > c
  {
    if forall f :: f in fs ==> f.sequence > c {
      assert forall i :: 0 <= i < |fs| ==> fs[i] in fs;
    }
  }

  /** Frames beyond the last of an increasing page are those after all of it. */
  lemma {:induction false} LastOfMeans(out: seq<Frame>, after: nat, x: nat)
    requires Increasing(out) && Beyond(out, after)
    ensures x > LastOf(out, after) <==> x > after && forall g :: g in out ==> g.sequence < x
  {
    if out != [] { assert out[|out| - 1] in out; }
  }

  /** What the reader sees is in order and beyond the cursor, in every layout. */
  lemma {:induction false} ScanIncreasing(t: Tiers, hi: nat, after: nat, n: nat)
    requires Sound(t)
    ensures Increasing(Scan(t, hi, after, n)) && Beyond(Scan(t, hi, after, n), after)
  {
    hide Sound, Content, RowRead, After, Increasing, Beyond, LastOf, Opens;
    if n == 0 {
      RowsIncreasing(t, after, hi);
    } else {
      ScanIncreasing(t, hi, after, n - 1);
      SoundParts(t, n - 1);
      AddBeyond(Scan(t, hi, after, n - 1), Content(t, n - 1), after);
      EmptyRight(Scan(t, hi, after, n - 1));
    }
  }

  lemma {:induction false} AddBeyond(out: seq<Frame>, fs: seq<Frame>, after: nat)
    requires Increasing(out) && Beyond(out, after) && Increasing(fs)
    ensures var all := out + After(fs, LastOf(out, after)); Increasing(all) && Beyond(all, after)
  {
    hide Increasing, Beyond, LastOf;
    var more := After(fs, LastOf(out, after));
    AfterSubset(fs, LastOf(out, after));
    BeyondIs(more, LastOf(out, after));
    forall g | g in more ensures g.sequence > after && forall f :: f in out ==> f.sequence < g.sequence {
      LastOfMeans(out, after, g.sequence);
    }
    IncreasingJoin(out, more);
    BeyondIs(out, after);
    BeyondIs(out + more, after);
  }

  /** Buffer file m shows frame f: it is opened, and no archived frame read before is as late. */
  ghost predicate FileShows(t: Tiers, hi: nat, after: nat, m: nat, f: Frame) {
    && Opens(t, after, m) && f in Content(t, m) && f.sequence > after
    && forall g :: g in RowRead(t, after, hi) ==> g.sequence < f.sequence
  }

  /** Some row shows f, or some buffer file below n. */
  ghost predicate Visible(t: Tiers, hi: nat, after: nat, n: nat, f: Frame) {
    f in RowRead(t, after, hi) || exists m: nat :: m < n && FileShows(t, hi, after, m, f)
  }

  /** Exactly what the reader sees, in every layout. */
  lemma {:induction false} InScan(t: Tiers, hi: nat, after: nat, n: nat, f: Frame)
    requires Sound(t)
    ensures f in Scan(t, hi, after, n) <==> Visible(t, hi, after, n, f)
  {
    hide Sound, Content, RowRead, After, FileShows, Opens;
    if n > 0 {
      var k := n - 1;
      forall g ensures g in Scan(t, hi, after, k) <==> Visible(t, hi, after, k, g) {
        InScan(t, hi, after, k, g);
      }
      ScanAdds(t, hi, after, k, f);
      if f in Content(t, k) && Opens(t, after, k) { FileAdds(t, hi, after, k, f); }
      NotShown(t, hi, after, k, f);
      hide Scan;
    }
  }

  lemma {:induction false} ScanAdds(t: Tiers, hi: nat, after: nat, n: nat, f: Frame)
    ensures f in Scan(t, hi, after, n + 1) <==>
            || f in Scan(t, hi, after, n)
            || (Opens(t, after, n) && f in Content(t, n) && f.sequence > LastOf(Scan(t, hi, after, n), after))
  {
    hide Content, RowRead, After, LastOf, Opens;
    InAfter(Content(t, n), LastOf(Scan(t, hi, after, n), after), f);
  }

  lemma {:induction false} NotShown(t: Tiers, hi: nat, after: nat, n: nat, f: Frame)
    ensures FileShows(t, hi, after, n, f) ==> f in Content(t, n) && Opens(t, after, n)
  {
  }

  lemma {:induction false} FileAdds(t: Tiers, hi: nat, after: nat, n: nat, f: Frame)
    requires Sound(t) && f in Content(t, n) && Opens(t, after, n)
    requires forall g :: g in Scan(t, hi, after, n) <==> Visible(t, hi, after, n, g)
    ensures f.sequence > LastOf(Scan(t, hi, after, n), after) <==> FileShows(t, hi, after, n, f)
  {
    hide Sound, Content, RowRead, LastOf, Opens, Scan;
    SoundParts(t, n);
    ScanIncreasing(t, hi, after, n);
    LastOfMeans(Scan(t, hi, after, n), after, f.sequence);
    assert forall g :: g in RowRead(t, after, hi) ==> Visible(t, hi, after, n, g);
    forall g | g in Scan(t, hi, after, n) && g !in RowRead(t, after, hi) ensures g.sequence < f.sequence {
      var m: nat :| m < n && FileShows(t, hi, after, m, g);
      FrameOrder(t, m, g, n, f);
    }
  }

  /** Increasing sequences with the same frames are equal. */
  lemma {:induction false} SameFrames(a: seq<Frame>, b: seq<Frame>)
    requires Increasing(a) && Increasing(b) && forall f :: f in a <==> f in b
    ensures a == b
  {
    assert (a != [] ==> a[0] in a) && (b != [] ==> b[0] in b);
    if a != [] && b != [] {
      var m, n := |a| - 1, |b| - 1;
      LastFrame(a, b);
      forall f ensures f in a[..m] <==> f in b[..n] {
        BeforeLast(a, f);
        BeforeLast(b, f);
      }
      SameFrames(a[..m], b[..n]);
      assert a == a[..m] + [a[m]] && b == b[..n] + [b[n]];
    }
  }

  lemma {:induction false} LastFrame(a: seq<Frame>, b: seq<Frame>)
    requires Increasing(a) && Increasing(b) && a != [] && b != [] && forall f :: f in a <==> f in b
    ensures a[|a| - 1] == b[|b| - 1]
  {
    assert a[|a| - 1] in b && b[|b| - 1] in a;
  }

  lemma {:induction false} BeforeLast(a: seq<Frame>, f: Frame)
    requires Increasing(a) && a != []
    ensures f in a[..|a| - 1] <==> f in a && f != a[|a| - 1]
  {
    assert a == a[..|a| - 1] + [a[|a| - 1]];
  }

  // ---------------------------------------------------------------- when the records reach every frame

  /** The reader consults the index entry of buffer file n. */
  predicate Consulted(t: Tiers, n: nat) {
    |t.buffer| > 1 && n in t.index && 0 < t.index[n].first <= t.index[n].last
  }

  /** No later chunk with frames is archived. */
  ghost predicate NoLaterRow(t: Tiers, n: nat) { forall m :: m in t.rows && m > n ==> Content(t, m) == [] }

  /** A reader finds sequence number x in chunk n: in its row, or in its file once no later row has frames. */
  ghost predicate Shows(t: Tiers, n: nat, x: nat) {
    || (n in t.rows && x <= t.rows[n].last)
    || (n in t.buffer && (Consulted(t, n) ==> x <= t.index[n].last) && NoLaterRow(t, n))
  }

  /** A reader finds every frame of chunk n. */
  ghost predicate Reaches(t: Tiers, n: nat) {
    forall i :: 0 <= i < |Content(t, n)| && Content(t, n)[i].sequence > 0 ==> Shows(t, n, Content(t, n)[i].sequence)
  }

  ghost predicate RecordsReach(t: Tiers) { forall n: nat :: Reaches(t, n) }

  lemma {:induction false} InvReaches(t: Tiers)
    requires Inv(t) && Readable(t)
    ensures Sound(t) && RecordsReach(t)
  {
    InvIsSound(t);
    forall n: nat ensures Reaches(t, n) {
      hide Ordered, Increasing;
      assert Content(t, n) != [] ==> n in t.rows || n in t.buffer;
    }
    hide Sound, Reaches;
  }

  /** A frame the records show is seen at every cursor before it. */
  lemma {:induction false} ShownIsSeen(t: Tiers, hi: nat, after: nat, n: nat, f: Frame)
    requires Sound(t) && Below(t, hi) && f in Content(t, n) && f.sequence > after && Shows(t, n, f.sequence)
    ensures f in Seen(t, hi, after)
  {
    hide Sound, Content, RowRead, Scan, NoLaterRow, Consulted, Opens;
    InScan(t, hi, after, hi, f);
    InRows(t, after, hi, f);
    assert n < hi;
    if f !in RowRead(t, after, hi) {
      assert !RowShows(t, after, n, f);
      NotSkipped(t, n, f.sequence, after);
      forall g | g in RowRead(t, after, hi) ensures g.sequence < f.sequence { EarlierRow(t, hi, after, n, f, g); }
      assert FileShows(t, hi, after, n, f);
    }
  }

  lemma {:induction false} NotSkipped(t: Tiers, n: nat, x: nat, after: nat)
    requires n in t.buffer && (Consulted(t, n) ==> x <= t.index[n].last) && x > after
    ensures Opens(t, after, n)
  {
  }

  /** With no later row in the way, archived frames precede a frame that its own row does not show. */
  lemma {:induction false} EarlierRow(t: Tiers, hi: nat, after: nat, n: nat, f: Frame, g: Frame)
    requires Sound(t) && NoLaterRow(t, n) && f in Content(t, n) && f.sequence > after
    requires !RowShows(t, after, n, f) && g in RowRead(t, after, hi)
    ensures g.sequence < f.sequence
  {
    hide Sound, Content, RowRead;
    SoundParts(t, n);
    InRows(t, after, hi, g);
    var m: nat :| m < hi && RowShows(t, after, m, g);
    assert m < n;
    FrameOrder(t, m, g, n, f);
  }

  /** What a page may be: a prefix of what is seen, and not empty unless nothing is. */
  ghost predicate MayReturn(t: Tiers, hi: nat, after: nat, out: seq<Frame>) {
    out <= Seen(t, hi, after) && (Seen(t, hi, after) != [] ==> out != [])
  }

  /** What a page should be: a prefix of the retained frames after the cursor, and not empty unless there are none. */
  ghost predicate Lossless(t: Tiers, hi: nat, after: nat, out: seq<Frame>) {
    out <= After(Logical(t, hi), after) && (After(Logical(t, hi), after) != [] ==> out != [])
  }

  lemma {:induction false} SeenIsRetained(t: Tiers, hi: nat, after: nat, f: Frame)
    requires Sound(t) && f in Seen(t, hi, after)
    ensures f in After(Logical(t, hi), after)
  {
    hide Sound, Content, Opens, After, RowRead, Scan, Logical;
    InRows(t, after, hi, f);
    InScan(t, hi, after, hi, f);
    InLogical(t, hi, f);
    InAfter(Logical(t, hi), after, f);
  }

  /** If the records reach every frame, the reader sees exactly the retained frames, at every cursor. */
  lemma {:induction false} SeenIsAll(t: Tiers, hi: nat, after: nat)
    requires Sound(t) && RecordsReach(t) && Below(t, hi)
    ensures Seen(t, hi, after) == After(Logical(t, hi), after)
  {
    hide Sound, Below, Logical, After, Content, Scan, Increasing, RecordsReach;
    ScanIncreasing(t, hi, after, hi);
    LogicalIncreasing(t, hi);
    AfterSubset(Logical(t, hi), after);
    forall f ensures f in Seen(t, hi, after) <==> f in After(Logical(t, hi), after) {
      if f in Seen(t, hi, after) { SeenIsRetained(t, hi, after, f); }
      if f in After(Logical(t, hi), after) { RetainedIsSeen(t, hi, after, f); }
    }
    SameFrames(Seen(t, hi, after), After(Logical(t, hi), after));
  }

  lemma {:induction false} RetainedIsSeen(t: Tiers, hi: nat, after: nat, f: Frame)
    requires Sound(t) && RecordsReach(t) && Below(t, hi) && f in After(Logical(t, hi), after)
    ensures f in Seen(t, hi, after)
  {
    hide Sound, Below, Logical, After, Content, Scan, Shows;
    InAfter(Logical(t, hi), after, f);
    InLogical(t, hi, f);
    var n: nat :| n < hi && f in Content(t, n);
    var i :| 0 <= i < |Content(t, n)| && Content(t, n)[i] == f;
    assert Reaches(t, n);
    ShownIsSeen(t, hi, after, n, f);
  }

  /** A frame that the records do not show is not seen just before it. */
  lemma {:induction false} UnshownIsUnseen(t: Tiers, hi: nat, n: nat, f: Frame)
    requires Sound(t) && Below(t, hi) && f in Content(t, n) && f.sequence > 0 && !Shows(t, n, f.sequence)
    ensures f !in Seen(t, hi, f.sequence - 1)
  {
    hide Sound, Content, RowRead, Scan, Consulted, Opens, SkippedByIndex;
    var after := f.sequence - 1;
    SoundParts(t, n);
    InScan(t, hi, after, hi, f);
    InRows(t, after, hi, f);
    forall m: nat ensures !RowShows(t, after, m, f) {
      if RowShows(t, after, m, f) { OnlyIn(t, n, f, m); }
    }
    forall m: nat ensures !FileShows(t, hi, after, m, f) {
      if FileShows(t, hi, after, m, f) {
        OnlyIn(t, n, f, m);
        FileHides(t, hi, n, f);
      }
    }
  }

  /** The file of a chunk whose frame is not shown is skipped, or a later row is read first. */
  lemma {:induction false} FileHides(t: Tiers, hi: nat, n: nat, f: Frame)
    requires Sound(t) && Below(t, hi) && f in Content(t, n) && f.sequence > 0 && !Shows(t, n, f.sequence)
    ensures !FileShows(t, hi, f.sequence - 1, n, f)
  {
    hide Sound, Content, RowRead, Scan;
    var after := f.sequence - 1;
    if n in t.buffer && !NoLaterRow(t, n) {
      var m :| m in t.rows && m > n && Content(t, m) != [];
      var g := Content(t, m)[0];
      SoundParts(t, n);
      FrameOrder(t, n, f, m, g);
      LastBeyond(t, n, f, m);
      InRows(t, after, hi, g);
      assert RowShows(t, after, m, g);
    }
  }

  lemma {:induction false} LastBeyond(t: Tiers, n: nat, f: Frame, m: nat)
    requires Ordered(t) && m in t.rows && n < m && f in Content(t, n)
    ensures t.rows[m].last > f.sequence
  {
    assert Mark(t, n, f.sequence) && Mark(t, m, t.rows[m].last) by { hide Ordered, Stored; }
    hide Mark, Content;
  }

  /**
   The main result about records.  Every page is lossless, at every cursor and for every limit
   and budget, if and only if the records reach every frame.
   */
  lemma {:induction false} LosslessExactly(t: Tiers, hi: nat)
    requires Sound(t) && Below(t, hi)
    ensures (forall after: nat, out: seq<Frame> :: MayReturn(t, hi, after, out) ==> Lossless(t, hi, after, out))
            <==> RecordsReach(t)
  {
    hide Sound, Below, Seen, Logical, After, Shows, Content;
    if RecordsReach(t) {
      forall after: nat, out: seq<Frame> | MayReturn(t, hi, after, out) ensures Lossless(t, hi, after, out) {
        SeenIsAll(t, hi, after);
      }
    } else {
      var n: nat :| !Reaches(t, n);
      var i :| 0 <= i < |Content(t, n)| && Content(t, n)[i].sequence > 0 && !Shows(t, n, Content(t, n)[i].sequence);
      var f := Content(t, n)[i];
      assert MayReturn(t, hi, f.sequence - 1, Seen(t, hi, f.sequence - 1));
      UnshownIsLost(t, hi, n, f, Seen(t, hi, f.sequence - 1));
    }
  }

  /** Just before a frame the records do not show, no page is lossless. */
  lemma {:induction false} UnshownIsLost(t: Tiers, hi: nat, n: nat, f: Frame, out: seq<Frame>)
    requires Sound(t) && Below(t, hi) && f in Content(t, n) && f.sequence > 0 && !Shows(t, n, f.sequence)
    requires MayReturn(t, hi, f.sequence - 1, out)
    ensures !Lossless(t, hi, f.sequence - 1, out)
  {
    hide Sound, Below, Shows, Seen, Logical, After, Content;
    UnshownIsUnseen(t, hi, n, f);
    HeldBelow(t, hi, n, f);
    NextIs(t, hi, n, f);
    NotFirst(t, hi, f, out);
  }

  lemma {:induction false} HeldBelow(t: Tiers, hi: nat, n: nat, f: Frame)
    requires Below(t, hi) && f in Content(t, n)
    ensures n < hi
  {
  }

  /** Just before a retained frame, that frame is the first one after the cursor. */
  lemma {:induction false} NextIs(t: Tiers, hi: nat, n: nat, f: Frame)
    requires Sound(t) && n < hi && f in Content(t, n) && f.sequence > 0
    ensures After(Logical(t, hi), f.sequence - 1) != [] && After(Logical(t, hi), f.sequence - 1)[0] == f
  {
    hide Sound, Content, After;
    LogicalIncreasing(t, hi);
    InLogical(t, hi, f);
    var all := After(Logical(t, hi), f.sequence - 1);
    AfterSubset(Logical(t, hi), f.sequence - 1);
    InAfter(Logical(t, hi), f.sequence - 1, f);
    var i :| 0 <= i < |all| && all[i] == f;
    assert all[0].sequence <= f.sequence;
  }

  /** A page that does not hold the first frame after its cursor is not lossless. */
  lemma {:induction false} NotFirst(t: Tiers, hi: nat, f: Frame, out: seq<Frame>)
    requires f.sequence > 0 && f !in out
    requires After(Logical(t, hi), f.sequence - 1) != [] && After(Logical(t, hi), f.sequence - 1)[0] == f
    ensures !Lossless(t, hi, f.sequence - 1, out)
  {
    hide After, Logical;
    assert out != [] ==> out[0] in out;
  }

  // ---------------------------------------------------------------- where a page ends

  /** The frames read so far end at chunk n, whose torn end announces a frame too large for the page. */
  predicate Bars(tail: seq<byte>, out: seq<Frame>, after: nat, budget: nat) {
    out != [] && Barred(tail, LastOf(out, after), Bytes(out, |out|), budget)
  }

  predicate RowBars(t: Tiers, after: nat, n: nat, budget: nat) {
    n in t.rows && t.rows[n].last > after && Bars(Leftover(Stored(t, n).bytes), RowRead(t, after, n + 1), after, budget)
  }

  predicate FileBars(t: Tiers, hi: nat, after: nat, n: nat, budget: nat) {
    Opens(t, after, n) && Bars(Leftover(t.buffer[n].bytes), Scan(t, hi, after, n + 1), after, budget)
  }

  /** After k frames the reader meets such a chunk. */
  ghost predicate Blocked(t: Tiers, hi: nat, after: nat, k: nat, budget: nat) {
    || (exists n :: 0 <= n < hi && RowBars(t, after, n, budget) && |RowRead(t, after, n + 1)| == k)
    || (exists n :: 0 <= n < hi && FileBars(t, hi, after, n, budget) && |Scan(t, hi, after, n + 1)| == k)
  }

  /** A page may end here: nothing is left, it is full, or a torn frame is in the way. */
  ghost predicate MayEnd(t: Tiers, hi: nat, after: nat, out: seq<Frame>, limit: nat, budget: nat) {
    out == Seen(t, hi, after) || Tight(out, Seen(t, hi, after), limit, budget) || Blocked(t, hi, after, |out|, budget)
  }

  /** The page is what is seen up to the first place where a page with a frame on it may end. */
  ghost predicate IsPage(t: Tiers, hi: nat, after: nat, out: seq<Frame>, limit: nat, budget: nat) {
    && out <= Seen(t, hi, after) && (Seen(t, hi, after) != [] ==> out != [])
    && MayEnd(t, hi, after, out, limit, budget)
    && forall k :: 0 < k < |out| ==> !MayEnd(t, hi, after, out[..k], limit, budget)
  }

  /** There is one page, and only its layout, cursor, limit and budget decide it. */
  lemma {:induction false} OnePage(t: Tiers, hi: nat, after: nat, a: seq<Frame>, b: seq<Frame>, limit: nat, budget: nat)
    requires IsPage(t, hi, after, a, limit, budget) && IsPage(t, hi, after, b, limit, budget)
    ensures a == b
  {
    hide MayEnd, Seen;
    NoShorter(t, hi, after, a, b, limit, budget);
    NoShorter(t, hi, after, b, a, limit, budget);
  }

  lemma {:induction false} NoShorter(t: Tiers, hi: nat, after: nat, a: seq<Frame>, b: seq<Frame>, limit: nat,
        budget: nat)
    requires IsPage(t, hi, after, a, limit, budget) && IsPage(t, hi, after, b, limit, budget)
    ensures |a| >= |b|
  {
    hide MayEnd, Seen;
    assert |a| <= |b| ==> a == b[..|a|];
  }

  /** The page holds as much as its limit and budget allow. */
  ghost predicate Longest(t: Tiers, hi: nat, after: nat, out: seq<Frame>, limit: nat, budget: nat) {
    out == Seen(t, hi, after) || Tight(out, Seen(t, hi, after), limit, budget)
  }

  /**
   Let k be the least number of frames that uses up what is seen, the limit or the budget.  The
   page holds them if and only if the reader meets no torn frame in its way before.
   */
  lemma {:induction false} LongestExactly(t: Tiers, hi: nat, after: nat, out: seq<Frame>, limit: nat, budget: nat,
        k: nat)
    requires IsPage(t, hi, after, out, limit, budget) && k <= |Seen(t, hi, after)|
    requires Longest(t, hi, after, Seen(t, hi, after)[..k], limit, budget)
    requires forall j :: 0 < j < k ==> !Longest(t, hi, after, Seen(t, hi, after)[..j], limit, budget)
    ensures Longest(t, hi, after, out, limit, budget) <==> |out| == k
    ensures |out| == k <==> forall j :: 0 < j < k ==> !Blocked(t, hi, after, j, budget)
  {
    hide Blocked, Seen;
    var all := Seen(t, hi, after);
    assert out == all[..|out|] && (k == 0 ==> all[..k] == []);
    forall j | 0 < j <= |out| ensures out[..j] == all[..j] && |out[..j]| == j { }
    hide Tight;
    assert |out| <= k by {
      assert 0 < k < |out| ==> !MayEnd(t, hi, after, out[..k], limit, budget);
    }
    if |out| == k {
      forall j | 0 < j < k ensures !Blocked(t, hi, after, j, budget) {
        assert !MayEnd(t, hi, after, out[..j], limit, budget);
      }
    } else {
      assert 0 < |out| < k && !Longest(t, hi, after, all[..|out|], limit, budget);
    }
  }

  lemma {:induction false} BytesGrow(fs: seq<Frame>, k: nat, n: nat)
    requires k < n <= |fs|
    ensures Bytes(fs, k) + Size(fs[k]) <= Bytes(fs, n)
    decreases n - k
  {
    if n > k + 1 { BytesGrow(fs, k, n - 1); }
  }

  lemma {:induction false} BytesOf(fs: seq<Frame>, k: nat, n: nat)
    requires k <= n <= |fs|
    ensures Bytes(fs[..n], k) == Bytes(fs, k)
  {
    if k > 0 { BytesOf(fs, k - 1, n); }
  }

  /** Before its last frame, a page within its limits was not full. */
  lemma {:induction false} NotTight(out: seq<Frame>, all: seq<Frame>, limit: nat, budget: nat, k: nat)
    requires out <= all && 0 < k < |out| <= limit && (|out| > 1 ==> Bytes(out, |out|) <= budget)
    ensures !Tight(out[..k], all, limit, budget)
  {
    BytesGrow(out, k, |out|);
    BytesOf(out, k, k);
    assert out[k] == all[k];
  }

  /** No chunk that bars the way was passed before frame k. */
  ghost predicate RowsClear(t: Tiers, after: nat, k: nat, budget: nat) {
    forall n: nat :: RowBars(t, after, n, budget) ==> |RowRead(t, after, n + 1)| >= k
  }

  ghost predicate FilesClear(t: Tiers, hi: nat, after: nat, k: nat, budget: nat) {
    forall n: nat :: FileBars(t, hi, after, n, budget) ==> |Scan(t, hi, after, n + 1)| >= k
  }

  lemma {:induction false} PageIs(t: Tiers, hi: nat, after: nat, out: seq<Frame>, limit: nat, budget: nat)
    requires out <= Seen(t, hi, after) && (Seen(t, hi, after) != [] ==> out != [])
    requires |out| <= limit && (|out| > 1 ==> Bytes(out, |out|) <= budget)
    requires RowsClear(t, after, |out|, budget) && FilesClear(t, hi, after, |out|, budget)
    requires MayEnd(t, hi, after, out, limit, budget)
    ensures IsPage(t, hi, after, out, limit, budget)
  {
    hide Seen, RowBars, FileBars, Tight, Bytes, Scan, RowRead;
    forall k | 0 < k < |out| ensures !MayEnd(t, hi, after, out[..k], limit, budget) {
      NotTight(out, Seen(t, hi, after), limit, budget, k);
      assert |out[..k]| == k;
    }
  }

  // ---------------------------------------------------------------- the reader

  /** The cursor stands at `after` or at a frame already returned. */
  ghost predicate CursorOf(p: Page, after: nat) {
    && p.last >= after
    && (forall i :: 0 <= i < |p.out| ==> after < p.out[i].sequence <= p.last)
    && (p.last == after || exists i :: 0 <= i < |p.out| && p.out[i].sequence == p.last)
  }

  /** Chunk n, read when everything before it has been read, contributes its frames after `after`. */
  lemma {:induction false} NextChunk(fs: seq<Frame>, after: nat, p: Page)
    requires CursorOf(p, after)
    requires forall f, g :: f in p.out && g in fs ==> f.sequence < g.sequence
    ensures After(fs, p.last) == After(fs, after)
  {
    forall i | 0 <= i < |fs| && fs[i].sequence > after ensures fs[i].sequence > p.last {
      assert fs[i] in fs;
      assert forall k :: 0 <= k < |p.out| ==> p.out[k] in p.out;
    }
    AfterBetween(fs, after, p.last);
  }

  lemma {:induction false} PageCursor(fs: seq<Frame>, after: nat, p: Page, q: Page)
    requires CursorOf(p, after) && q.out == p.out + After(fs, p.last)
    requires Increasing(fs)
    requires q.out == p.out ==> q.last == p.last
    requires q.out != [] ==> q.last == q.out[|q.out| - 1].sequence
    ensures CursorOf(q, after)
  {
    AfterSubset(fs, p.last);
    CursorMoves(After(fs, p.last), after, p, q);
  }

  lemma {:induction false} CursorMoves(more: seq<Frame>, after: nat, p: Page, q: Page)
    requires CursorOf(p, after) && q.out == p.out + more && Beyond(more, p.last) && Increasing(more)
    requires q.out == p.out ==> q.last == p.last
    requires q.out != [] ==> q.last == q.out[|q.out| - 1].sequence
    ensures CursorOf(q, after)
  {
    if more == [] {
      assert q.out == p.out;
    } else {
      assert q.out[|q.out| - 1] == more[|more| - 1];
    }
  }

  /** The part of RowRead whose rows end at or before a later cursor. */
  function RowsUpTo(t: Tiers, after: nat, cursor: nat, hi: nat): seq<Frame> {
    if hi == 0 then []
    else RowsUpTo(t, after, cursor, hi - 1)
         + (if hi - 1 in t.rows && after < t.rows[hi - 1].last <= cursor then After(Content(t, hi - 1), after) else [])
  }

  lemma {:induction false} InRowsUpTo(t: Tiers, after: nat, cursor: nat, hi: nat, f: Frame) returns (n: nat)
    requires f in RowsUpTo(t, after, cursor, hi)
    ensures n in t.rows && t.rows[n].last <= cursor && f in Content(t, n)
  {
    n := hi - 1;
    if f in RowsUpTo(t, after, cursor, hi - 1) {
      n := InRowsUpTo(t, after, cursor, hi - 1, f);
    } else {
      InAfter(Content(t, n), after, f);
      hide After, Content;
    }
  }

  /** Row n is the first one that ends beyond the cursor. */
  ghost predicate NextRowAt(t: Tiers, cursor: nat, n: nat) {
    && n in t.rows && t.rows[n].last > cursor
    && forall m :: m in t.rows && t.rows[m].last > cursor ==> t.rows[n].last <= t.rows[m].last
  }

  lemma {:induction false} RowOrder(t: Tiers, n: nat, m: nat)
    requires Ordered(t) && n in t.rows && m in t.rows && n < m
    ensures t.rows[n].last < t.rows[m].last
  {
    assert Mark(t, n, t.rows[n].last) && Mark(t, m, t.rows[m].last);
  }

  /** Moving the cursor over the next row adds exactly that row's chunk, at the end. */
  lemma {:induction false} AddRow(t: Tiers, after: nat, cursor: nat, n: nat, hi: nat)
    requires Ordered(t) && NextRowAt(t, cursor, n) && after <= cursor
    ensures RowsUpTo(t, after, t.rows[n].last, hi)
         == RowsUpTo(t, after, cursor, hi) + (if n < hi then After(Content(t, n), after) else [])
  {
    hide Ordered, Content, After;
    if hi > 0 {
      var m := hi - 1;
      AddRow(t, after, cursor, n, m);
      if m in t.rows && m != n {
        if m < n { RowOrder(t, m, n); } else { RowOrder(t, n, m); }
      }
    }
  }

  lemma {:induction false} NoRowsYet(t: Tiers, after: nat, hi: nat)
    ensures RowsUpTo(t, after, after, hi) == []
  {
    if hi > 0 { NoRowsYet(t, after, hi - 1); }
  }

  /** The rows up to a cursor are a prefix of all rows. */
  lemma {:induction false} RestOfRows(t: Tiers, after: nat, cursor: nat, hi: nat)
    requires Ordered(t)
    ensures RowsUpTo(t, after, cursor, hi) <= RowRead(t, after, hi)
  {
    hide Ordered, Content, After;
    if hi > 0 {
      var m := hi - 1;
      RestOfRows(t, after, cursor, m);
      if m in t.rows && t.rows[m].last <= cursor {
        forall n | n in t.rows && n < m ensures t.rows[n].last <= cursor { RowOrder(t, n, m); }
        AllRowsBelow(t, after, cursor, m);
      }
    }
  }

  lemma {:induction false} AllRowsBelow(t: Tiers, after: nat, cursor: nat, hi: nat)
    requires forall n :: n in t.rows && n < hi ==> t.rows[n].last <= cursor
    ensures RowsUpTo(t, after, cursor, hi) == RowRead(t, after, hi)
  {
    if hi > 0 { AllRowsBelow(t, after, cursor, hi - 1); }
  }

  /** The row query: the archived chunk with the least last sequence beyond the cursor. */
  method NextRow(t: Tiers, cursor: nat) returns (found: bool, n: nat)
    ensures found ==> NextRowAt(t, cursor, n)
    ensures !found ==> forall m :: m in t.rows ==> t.rows[m].last <= cursor
  {
    found, n := false, 0;
    var todo := t.rows.Keys;
    while todo != {}
      invariant todo <= t.rows.Keys
      invariant found ==> n in t.rows && t.rows[n].last > cursor
      invariant forall m ::
                  m in t.rows && m !in todo && t.rows[m].last > cursor ==> found && t.rows[n].last <= t.rows[m].last
    {
      var m :| m in todo;
      todo := todo - {m};
      if t.rows[m].last > cursor && (!found || t.rows[m].last < t.rows[n].last) {
        found, n := true, m;
      }
    }
  }

  /** The frames already on the page precede those of the chunk read next. */
  lemma {:induction false} RowFollows(t: Tiers, after: nat, cursor: nat, n: nat, hi: nat)
    requires Ordered(t) && NextRowAt(t, cursor, n)
    ensures forall f, g :: f in RowsUpTo(t, after, cursor, hi) && g in Content(t, n) ==> f.sequence < g.sequence
  {
    hide Ordered, Content;
    forall f, g | f in RowsUpTo(t, after, cursor, hi) && g in Content(t, n) ensures f.sequence < g.sequence {
      var m := InRowsUpTo(t, after, cursor, hi, f);
      if m > n { RowOrder(t, n, m); }
      FrameOrder(t, m, f, n, g);
    }
  }

  /** The rows that end at or before row n are the rows up to n. */
  lemma {:induction false} RowsToRow(t: Tiers, after: nat, n: nat, hi: nat)
    requires Ordered(t) && n in t.rows
    ensures RowsUpTo(t, after, t.rows[n].last, hi) == RowRead(t, after, if n < hi then n + 1 else hi)
  {
    hide Ordered, Content, After;
    if hi > 0 {
      var m := hi - 1;
      RowsToRow(t, after, n, m);
      if m in t.rows && m != n {
        if m < n { RowOrder(t, m, n); } else { RowOrder(t, n, m); }
      }
    }
  }

  lemma {:induction false} RowPrefix(t: Tiers, after: nat, n: nat, m: nat)
    requires n <= m
    ensures RowRead(t, after, n) <= RowRead(t, after, m)
    decreases m - n
  {
    if n < m { RowPrefix(t, after, n + 1, m); }
  }

  /** What reading row n leaves behind: the row does not bar the way, or the page ends there. */
  ghost predicate RowEnds(t: Tiers, hi: nat, after: nat, n: nat, q: Page, limit: nat, budget: nat) {
    if q.more then !RowBars(t, after, n, budget)
    else
      && |q.out| <= |RowRead(t, after, n + 1)|
      && (|| Tight(q.out, RowRead(t, after, hi), limit, budget)
          || (RowBars(t, after, n, budget) && q.out == RowRead(t, after, n + 1)))
  }

  lemma {:induction false} RowHalts(t: Tiers, hi: nat, after: nat, n: nat, p: Page, q: Page, limit: nat, budget: nat)
    requires Ordered(t) && n in t.rows && n < hi && t.rows[n].last > after
    requires p.out + After(Content(t, n), p.last) == RowRead(t, after, n + 1)
    requires Fits(q, limit, budget) && Continues(p, q, After(Content(t, n), p.last))
    requires Halts(p, q, After(Content(t, n), p.last), Leftover(Stored(t, n).bytes), limit, budget)
    requires q.out == [] ==> q.last == after
    ensures RowEnds(t, hi, after, n, q, limit, budget)
  {
    hide Ordered, Content, After, Leftover, Bytes, Barred, RowRead;
    RowPrefix(t, after, n + 1, hi);
  }

  /** Reads one archived chunk into the page. */
  method ReadRow(t: Tiers, ghost hi: nat, ghost after: nat, limit: nat, budget: nat, ghost cursor: nat, n: nat, p: Page)
    returns (q: Page, ok: bool)
    requires Sound(t) && AllFaithful(t) && Below(t, hi) && NextRowAt(t, cursor, n) && after <= cursor
    requires p.more && Fits(p, limit, budget) && CursorOf(p, after)
    requires p.out == RowsUpTo(t, after, cursor, hi)
    ensures !ok ==> !Intact(t, n)
    ensures ok ==> Fits(q, limit, budget)
    ensures ok && q.more ==> CursorOf(q, after) && q.out == RowsUpTo(t, after, t.rows[n].last, hi)
    ensures ok && !q.more ==> q.out != [] && q.out <= RowRead(t, after, hi)
    ensures ok ==> RowEnds(t, hi, after, n, q, limit, budget)
  {
    assert Increasing(Content(t, n)) && Faithful(Stored(t, n)) && Ordered(t) && n < hi;
    hide *;
    RowFollows(t, after, cursor, n, hi);
    NextChunk(Content(t, n), after, p);
    AddRow(t, after, cursor, n, hi);
    RestOfRows(t, after, t.rows[n].last, hi);
    RowsToRow(t, after, n, hi);
    q, ok := Consume(Stored(t, n), limit, budget, p);
    if ok {
      EmptyPage(p, q, after);
      RowHalts(t, hi, after, n, p, q, limit, budget);
    }
    if ok && q.more {
      PageCursor(Content(t, n), after, p, q);
    }
  }

  lemma {:induction false} EmptyPage(p: Page, q: Page, after: nat)
    requires CursorOf(p, after) && p.out <= q.out && (q.out == p.out ==> q.last == p.last)
    ensures q.out == [] ==> q.last == after
  {
  }

  /** Walks archived rows in sequence order, as the archive query returns them. */
  method ReadRows(t: Tiers, ghost hi: nat, after: nat, limit: nat, budget: nat) returns (p: Page, ok: bool)
    requires Sound(t) && AllFaithful(t) && Below(t, hi) && limit > 0
    ensures !ok ==> !Readable(t)
    ensures ok ==> Fits(p, limit, budget)
    ensures ok && p.more ==> CursorOf(p, after) && p.out == RowRead(t, after, hi)
    ensures ok && !p.more ==> p.out != [] && p.out <= RowRead(t, after, hi)
    ensures ok ==> RowsClear(t, after, |p.out|, budget)
    ensures ok && p.more ==> forall n: nat :: !RowBars(t, after, n, budget)
    ensures ok && !p.more ==>
              || Tight(p.out, RowRead(t, after, hi), limit, budget)
              || exists n :: 0 <= n < hi && RowBars(t, after, n, budget) && p.out == RowRead(t, after, n + 1)
  {
    p, ok := Page([], after, 0, true), true;
    var cursor := after;
    NoRowsYet(t, after, hi);
    hide Sound, AllFaithful, Intact, RowBars, RowRead, Tight, RowsUpTo, Bytes;
    var more, n := NextRow(t, cursor);
    while more
      invariant ok && p.more && Fits(p, limit, budget) && CursorOf(p, after) && after <= cursor
      invariant p.out == RowsUpTo(t, after, cursor, hi)
      invariant more ==> NextRowAt(t, cursor, n)
      invariant !more ==> forall m :: m in t.rows ==> t.rows[m].last <= cursor
      invariant NoneBars(t, after, cursor, budget)
      decreases set m | m in t.rows && t.rows[m].last > cursor
    {
      ghost var ahead := set m | m in t.rows && t.rows[m].last > cursor;
      assert n in ahead;
      p, ok := ReadRow(t, hi, after, limit, budget, cursor, n, p);
      if ok { RowPassed(t, hi, after, cursor, n, p, limit, budget); }
      if !ok || !p.more { return; }
      cursor := t.rows[n].last;
      more, n := NextRow(t, cursor);
    }
    AllRowsBelow(t, after, cursor, hi);
    NoneLeft(t, after, cursor, budget);
  }

  /** No row passed so far bars the way. */
  ghost predicate NoneBars(t: Tiers, after: nat, cursor: nat, budget: nat) {
    forall n :: n in t.rows && t.rows[n].last <= cursor ==> !RowBars(t, after, n, budget)
  }

  lemma {:induction false} NoneLeft(t: Tiers, after: nat, cursor: nat, budget: nat)
    requires NoneBars(t, after, cursor, budget) && forall m :: m in t.rows ==> t.rows[m].last <= cursor
    ensures forall n: nat :: !RowBars(t, after, n, budget)
  {
    hide Bars;
  }

  lemma {:induction false} RowPassed(t: Tiers, hi: nat, after: nat, cursor: nat, n: nat, q: Page, limit: nat,
        budget: nat)
    requires Sound(t) && NextRowAt(t, cursor, n) && NoneBars(t, after, cursor, budget) && n < hi
    requires RowEnds(t, hi, after, n, q, limit, budget)
    ensures q.more ==> NoneBars(t, after, t.rows[n].last, budget)
    ensures !q.more ==> RowsClear(t, after, |q.out|, budget)
  {
    hide Sound, Bars, RowRead, Tight;
    SoundParts(t, n);
    forall m | m in t.rows && m != n
      ensures if m < n then t.rows[m].last < t.rows[n].last else t.rows[n].last < t.rows[m].last
    {
      hide Ordered;
      if m < n { RowOrder(t, m, n); } else { RowOrder(t, n, m); }
    }
    forall m | m in t.rows && m < n ensures !RowBars(t, after, m, budget) { assert t.rows[m].last <= cursor; }
    if !q.more {
      forall m: nat | RowBars(t, after, m, budget) ensures |RowRead(t, after, m + 1)| >= |q.out| {
        assert m >= n;
        RowPrefix(t, after, n + 1, m + 1);
      }
    }
  }

  /** Where the page stands once the rows and the buffer files below n have been read. */
  ghost predicate At(t: Tiers, hi: nat, n: nat, after: nat, p: Page) {
    p.out == Scan(t, hi, after, n) && p.last == LastOf(p.out, after)
  }

  lemma {:induction false} AtNext(t: Tiers, hi: nat, n: nat, after: nat, p: Page)
    requires At(t, hi, n, after, p) && !Opens(t, after, n)
    ensures At(t, hi, n + 1, after, p)
  {
    EmptyRight(p.out);
  }

  lemma {:induction false} AtRead(t: Tiers, hi: nat, n: nat, after: nat, p: Page, q: Page, limit: nat, budget: nat)
    requires At(t, hi, n, after, p) && Opens(t, after, n)
    requires Continues(p, q, After(Content(t, n), p.last)) && Fits(q, limit, budget)
    ensures q.more ==> At(t, hi, n + 1, after, q)
    ensures !q.more ==> q.out != []
    ensures q.out <= Scan(t, hi, after, n + 1)
  {
    hide Content, Bytes;
  }

  /** What reading file n leaves behind: the file does not bar the way, or the page ends there. */
  ghost predicate FileEnds(t: Tiers, hi: nat, after: nat, n: nat, q: Page, limit: nat, budget: nat) {
    if q.more then !FileBars(t, hi, after, n, budget)
    else
      || Tight(q.out, Scan(t, hi, after, n + 1), limit, budget)
      || (FileBars(t, hi, after, n, budget) && q.out == Scan(t, hi, after, n + 1))
  }

  lemma {:induction false} FileHalts(t: Tiers, hi: nat, after: nat, n: nat, p: Page, q: Page, limit: nat, budget: nat)
    requires At(t, hi, n, after, p) && Opens(t, after, n) && Fits(q, limit, budget)
    requires Continues(p, q, After(Content(t, n), p.last))
    requires Halts(p, q, After(Content(t, n), p.last), Leftover(t.buffer[n].bytes), limit, budget)
    ensures FileEnds(t, hi, after, n, q, limit, budget)
  {
    hide Content, Bytes, After, Leftover, Barred;
    assert Scan(t, hi, after, n + 1) == p.out + After(Content(t, n), p.last);
    hide Scan;
  }

  /** Reads one buffer file into the page, unless the index lets the reader skip it. */
  method ReadBufferFile(t: Tiers, ghost hi: nat, n: nat, after: nat, limit: nat, budget: nat, p: Page)
    returns (q: Page, ok: bool)
    requires Sound(t) && AllFaithful(t) && n in t.buffer
    requires p.more && Fits(p, limit, budget) && At(t, hi, n, after, p)
    ensures !ok ==> !Readable(t)
    ensures ok ==> Fits(q, limit, budget) && q.out <= Scan(t, hi, after, n + 1)
    ensures ok && q.more ==> At(t, hi, n + 1, after, q)
    ensures ok && !q.more ==> q.out != []
    ensures ok ==> FileEnds(t, hi, after, n, q, limit, budget)
  {
    assert Increasing(t.buffer[n].frames) && t.buffer[n].frames == Content(t, n) by {
      hide Ordered;
      assert Increasing(Content(t, n));
    }
    assert Faithful(t.buffer[n]);
    assert Readable(t) ==> !t.buffer[n].end.CorruptEnd?;
    hide Sound, AllFaithful, Readable, Content, Increasing, Faithful, Fits, At, Continues, Scan, Bars, Tight, Halts;
    if SkippedByIndex(t, n, after) {
      AtNext(t, hi, n, after, p);
      AtPage(t, hi, n + 1, after, p);
      return p, true;
    }
    q, ok := Consume(t.buffer[n], limit, budget, p);
    if ok {
      AtCursor(t, hi, n, after, p);
      AtRead(t, hi, n, after, p, q, limit, budget);
      FileHalts(t, hi, after, n, p, q, limit, budget);
    }
  }

  lemma {:induction false} AtCursor(t: Tiers, hi: nat, n: nat, after: nat, p: Page)
    requires At(t, hi, n, after, p)
    ensures p.last == LastOf(p.out, after)
  {
  }

  lemma {:induction false} AtPage(t: Tiers, hi: nat, n: nat, after: nat, p: Page)
    requires At(t, hi, n, after, p)
    ensures p.out <= Scan(t, hi, after, n)
  {
  }

  function Clamp(limit: int): (n: nat)
    ensures 1 <= n <= 5000
  {
    if limit < 1 then 1 else if limit > 5000 then 5000 else limit
  }

  /**
   One page of a run, read from whatever layout the archiver has left.  It is a prefix of
   what the records let the reader see, nonempty whenever there is anything; if the records
   reach every frame it is lossless.  It ends at the first place where it may: nothing is
   left, the limit is reached, the budget is used up or the next frame does not fit, or a torn
   frame that would not fit is in the way.  It exceeds the byte budget only to return a single
   oversized frame.
   */
  method ReadPage(t: Tiers, hi: nat, after: nat, limit: int, budget: nat) returns (out: seq<Frame>, ok: bool)
    requires Sound(t) && AllFaithful(t) && Below(t, hi)
    ensures !ok ==> !Readable(t)
    ensures ok ==> MayReturn(t, hi, after, out)
    ensures ok && RecordsReach(t) ==> Lossless(t, hi, after, out)
    ensures ok ==> |out| <= Clamp(limit) && (|out| > 1 ==> Bytes(out, |out|) <= budget)
    ensures ok ==> IsPage(t, hi, after, out, Clamp(limit), budget)
  {
    hide *;
    var p;
    if RecordsReach(t) { SeenIsAll(t, hi, after); }
    p, ok := ReadRows(t, hi, after, Clamp(limit), budget);
    if !ok { return [], false; }
    PageBounds(t, hi, 0, after, Clamp(limit), budget, p);
    if !p.more {
      RowsEndPage(t, hi, after, Clamp(limit), budget, p.out);
      return p.out, true;
    }
    for n := 0 to hi
      invariant ok && p.more && Fits(p, Clamp(limit), budget) && At(t, hi, n, after, p)
      invariant forall m: nat :: m < n ==> !FileBars(t, hi, after, m, budget)
    {
      if n in t.buffer {
        p, ok := ReadBufferFile(t, hi, n, after, Clamp(limit), budget, p);
        if !ok { return [], false; }
        PageBounds(t, hi, n + 1, after, Clamp(limit), budget, p);
        if !p.more {
          FilesEndPage(t, hi, after, n, Clamp(limit), budget, p);
          return p.out, true;
        }
        FilePassed(t, hi, after, n, Clamp(limit), budget, p);
      } else {
        NotOpened(t, hi, n, after, p);
        FilePassed(t, hi, after, n, Clamp(limit), budget, p);
      }
    }
    PageBounds(t, hi, hi, after, Clamp(limit), budget, p);
    AllRead(t, hi, after, Clamp(limit), budget, p);
    out := p.out;
  }

  lemma {:induction false} FilePassed(t: Tiers, hi: nat, after: nat, n: nat, limit: nat, budget: nat, p: Page)
    requires n !in t.buffer || (p.more && FileEnds(t, hi, after, n, p, limit, budget))
    ensures !FileBars(t, hi, after, n, budget)
  {
    hide Bars, Scan;
  }

  /** The page ended among the rows. */
  lemma {:induction false} RowsEndPage(t: Tiers, hi: nat, after: nat, limit: nat, budget: nat, out: seq<Frame>)
    requires MayReturn(t, hi, after, out) && out <= RowRead(t, after, hi)
    requires |out| <= limit && (|out| > 1 ==> Bytes(out, |out|) <= budget) && RowsClear(t, after, |out|, budget)
    requires || Tight(out, RowRead(t, after, hi), limit, budget)
             || exists n :: 0 <= n < hi && RowBars(t, after, n, budget) && out == RowRead(t, after, n + 1)
    ensures IsPage(t, hi, after, out, limit, budget)
  {
    hide RowBars, RowRead, Bars;
    ScanPrefix(t, hi, after, 0, hi);
    RowsAreScan(t, hi, after);
    forall n: nat | FileBars(t, hi, after, n, budget) ensures |Scan(t, hi, after, n + 1)| >= |out| {
      ScanPrefix(t, hi, after, 0, n + 1);
    }
    hide Scan, Bytes;
    if exists n :: 0 <= n < hi && RowBars(t, after, n, budget) && out == RowRead(t, after, n + 1) {
      assert Blocked(t, hi, after, |out|, budget);
    }
    PageIs(t, hi, after, out, limit, budget);
  }

  lemma {:induction false} RowsAreScan(t: Tiers, hi: nat, after: nat)
    ensures Scan(t, hi, after, 0) == RowRead(t, after, hi)
  {
  }

  /** The page ended at file n. */
  lemma {:induction false} FilesEndPage(t: Tiers, hi: nat, after: nat, n: nat, limit: nat, budget: nat, p: Page)
    requires MayReturn(t, hi, after, p.out) && p.out <= Scan(t, hi, after, n + 1) && n < hi
    requires |p.out| <= limit && (|p.out| > 1 ==> Bytes(p.out, |p.out|) <= budget)
    requires !p.more && FileEnds(t, hi, after, n, p, limit, budget)
    requires forall m: nat :: !RowBars(t, after, m, budget)
    requires forall m: nat :: m < n ==> !FileBars(t, hi, after, m, budget)
    ensures IsPage(t, hi, after, p.out, limit, budget)
  {
    hide RowBars, FileBars, RowRead, Scan, Bytes;
    ScanPrefix(t, hi, after, n + 1, hi);
    forall m: nat | FileBars(t, hi, after, m, budget) ensures |Scan(t, hi, after, m + 1)| >= |p.out| {
      ScanPrefix(t, hi, after, n + 1, m + 1);
    }
    if FileBars(t, hi, after, n, budget) && p.out == Scan(t, hi, after, n + 1) {
      assert Blocked(t, hi, after, |p.out|, budget);
    }
    PageIs(t, hi, after, p.out, limit, budget);
  }

  /** Everything was read. */
  lemma {:induction false} AllRead(t: Tiers, hi: nat, after: nat, limit: nat, budget: nat, p: Page)
    requires At(t, hi, hi, after, p) && |p.out| <= limit && (|p.out| > 1 ==> Bytes(p.out, |p.out|) <= budget)
    requires forall m: nat :: !RowBars(t, after, m, budget)
    requires forall m: nat :: m < hi ==> !FileBars(t, hi, after, m, budget)
    ensures IsPage(t, hi, after, p.out, limit, budget)
  {
    hide RowBars, FileBars, RowRead, Scan, Bytes;
    forall m: nat | FileBars(t, hi, after, m, budget) ensures |Scan(t, hi, after, m + 1)| >= |p.out| {
      ScanPrefix(t, hi, after, hi, m + 1);
    }
    PageIs(t, hi, after, p.out, limit, budget);
  }

  lemma {:induction false} NotOpened(t: Tiers, hi: nat, n: nat, after: nat, p: Page)
    requires At(t, hi, n, after, p) && n !in t.buffer
    ensures At(t, hi, n + 1, after, p)
  {
    AtNext(t, hi, n, after, p);
  }

  /** What a page read so far says about the whole, before and after the last chunk. */
  lemma {:induction false} PageBounds(t: Tiers, hi: nat, n: nat, after: nat, limit: nat, budget: nat, p: Page)
    requires Fits(p, limit, budget) && n <= hi
    ensures |p.out| <= limit && (|p.out| > 1 ==> Bytes(p.out, |p.out|) <= budget)
    ensures n == 0 && CursorOf(p, after) && p.out == RowRead(t, after, hi) ==> At(t, hi, 0, after, p)
    ensures p.out != [] && p.out <= RowRead(t, after, hi) ==> MayReturn(t, hi, after, p.out)
    ensures p.out != [] && p.out <= Scan(t, hi, after, n) ==> MayReturn(t, hi, after, p.out)
    ensures n == hi && At(t, hi, n, after, p) ==> MayReturn(t, hi, after, p.out)
    ensures Seen(t, hi, after) == After(Logical(t, hi), after) && MayReturn(t, hi, after, p.out)
            ==> Lossless(t, hi, after, p.out)
  {
    hide Content, After, Bytes, Logical;
    ScanPrefix(t, hi, after, 0, hi);
    ScanPrefix(t, hi, after, n, hi);
  }

  /** What has been read so far is a prefix of the whole. */
  lemma {:induction false} ScanPrefix(t: Tiers, hi: nat, after: nat, n: nat, m: nat)
    requires n <= m
    ensures Scan(t, hi, after, n) <= Scan(t, hi, after, m)
    decreases m - n
  {
    if n < m { ScanPrefix(t, hi, after, n + 1, m); }
  }

  /**
   Reads a whole run page by page.  The layout is pinned only while a page is read, so
   `view(i)` is the layout at page i; archival may have moved every chunk in between.
   Concatenating the pages gives each retained frame exactly once, in order.
   */
  method ReadAll(view: nat -> Tiers, hi: nat, ghost all: seq<Frame>, limit: int, budget: nat) returns (out: seq<Frame>)
    requires forall i ::
               Sound(view(i)) && RecordsReach(view(i)) && AllFaithful(view(i)) && Below(view(i), hi)
               && Readable(view(i))
    requires forall i :: Logical(view(i), hi) == all
    ensures out == After(all, 0)
  {
    hide Sound, RecordsReach, AllFaithful, Below, Readable, Logical, After, Increasing;
    out := [];
    var after, i := 0, 0;
    LogicalIncreasing(view(0), hi);
    while true
      invariant out + After(all, after) == After(all, 0)
      decreases |After(all, after)|
    {
      var page, ok := ReadPage(view(i), hi, after, limit, budget);
      if page == [] { return; }
      AfterPage(all, after, page);
      Associative(out, page, After(all, page[|page| - 1].sequence));
      out, after, i := out + page, page[|page| - 1].sequence, i + 1;
    }
  }
}
