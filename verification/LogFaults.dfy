/**
 The failing cases of a run's log, reached by its own events: frames of failed stores that
 readers lose, and a checkpoint that cannot go on.
 */
module LogFaults {
  import opened Codec
  import opened LogReader
  import opened Archive
  import opened Growth
  import opened LogRun
  import opened LogReads

  // ---------------------------------------------------------------- a failed store that left its frame

  /** A small chunk that is the only one on the list, and the row the archiver gives it. */
  function OneRow(m: Meta, st: Stream): map<nat, Row> { map[m.number := Blob(m.first, m.last, m.raw, st)] }

  lemma {:induction false} NoneBelow(t: Tiers, n: nat, k: nat)
    requires t.sealed.Keys == {n} && k <= n
    ensures ListedBelow(t, k) == 0
  {
    if k > 0 { NoneBelow(t, n, k - 1); }
  }

  lemma {:induction false} OneGathered(t: Tiers, m: Meta)
    requires m.number in t.buffer && t.sealed == map[m.number := m] && m.bytes < FILE_CHUNK_MIN
    ensures IsGathered(t, m.number, OneRow(m, t.buffer[m.number]), [m.number], [])
  {
    var puts := OneRow(m, t.buffer[m.number]);
    NoneBelow(t, m.number, m.number);
    assert WithinLimits(t, m.number) by { hide ListedBelow, CopiedBelow; }
    assert Gathered(t, m.number + 1, puts);
    hide Gathered, WithinLimits;
  }

  /** A whole failed store that closes a chunk with acknowledged frames; the chunk is archived and unlinked. */
  function AfterFrames(s: State, f: Frame): seq<Event>
    requires s.cur in s.t.buffer
  {
    var m := Meta(s.cur, s.first, s.stored, 0, 0);
    [Tear(f, |Encode(f)|), Close(true, 0, 0),
     Commit(s.cur, OneRow(m, Appended(s.t.buffer[s.cur], f)), [s.cur], []), Unlink(s.cur)]
  }

  /** One as the first store of its chunk; the next chunk takes a frame and is archived. */
  function BeforeFrames(s: State, f: Frame, g: Frame): seq<Event> {
    var m := Meta(s.cur + 1, s.seqno + 2, s.seqno + 2, 0, 0);
    [Tear(f, |Encode(f)|), Close(true, 0, 0), Open, Append(g), Close(true, 0, 0),
     Commit(s.cur + 1, OneRow(m, Appended(NOTHING, g)), [s.cur + 1], [])]
  }

  lemma {:induction false} TearStep(s: State, f: Frame)
    requires WriterEnabled(s, Tear(f, |Encode(f)|))
    ensures Step(s, Tear(f, |Encode(f)|))
         == s.(t := Write(s.t, s.cur, Appended(s.t.buffer[s.cur], f)), phase := Broken, seqno := s.seqno + 1)
  {
    EncodeSize(f);
    hide Encode, Valid;
  }

  lemma {:induction false} CloseStep(s: State, indexed: bool, bytes: nat)
    requires s.phase.Broken? || s.phase.Writing?
    ensures Step(s, Close(indexed, bytes, 0))
         == if s.stored < s.first then s.(phase := Closed)
            else s.(t := List(s.t, Meta(s.cur, s.first, s.stored, bytes, 0), indexed), phase := Closed)
  {
  }

  lemma {:induction false} CommitStep(s: State, n: nat, puts: map<nat, Row>)
    requires s.phase.Closed? && IsGathered(s.t, n, puts, [n], [])
    ensures Step(s, Commit(n, puts, [n], [])) == s.(t := Put(s.t, puts))
  {
    hide IsGathered;
  }

  lemma {:induction false} UnlinkStep(s: State, n: nat)
    requires n in s.t.rows && s.t.rows[n].Blob?
    ensures Step(s, Unlink(n)) == s.(t := Drop(s.t, {n}, s.t.index, s.t.sealed))
  {
    hide Content;
  }

  lemma {:induction false} OpenStep(s: State)
    requires WriterEnabled(s, Open)
    ensures Step(s, Open)
         == s.(t := Write(s.t, s.cur + 1, NOTHING), phase := Writing, cur := s.cur + 1, first := s.seqno + 1)
  {
  }

  lemma {:induction false} AppendStep(s: State, f: Frame)
    requires WriterEnabled(s, Append(f))
    ensures Step(s, Append(f))
         == s.(t := Write(s.t, s.cur, Appended(s.t.buffer[s.cur], f)), seqno := s.seqno + 1, stored := s.seqno + 1,
               want := s.want[s.cur := Want(s, s.cur) + [Micros(f)]])
  {
    hide Encode, Valid, Appended;
  }

  ghost function Steps(s: State, es: seq<Event>): State
    decreases |es|
  {
    if es == [] then s else Steps(Step(s, es[0]), es[1..])
  }

  lemma {:induction false} RunSteps(es: seq<Event>, fs: seq<Event>)
    ensures Run(es + fs) == Steps(Run(es), fs)
    decreases |fs|
  {
    hide Run, Step;
    if fs == [] {
      assert es + fs == es;
    } else {
      RunStep(es, fs[0]);
      RunSteps(es + [fs[0]], fs[1..]);
      assert es + [fs[0]] + fs[1..] == es + fs;
    }
  }

  /** The frame of a chunk that readers can no longer be shown. */
  ghost predicate Lost(s: State, n: nat, f: Frame) {
    Micros(f) in Content(s.t, n) && !Shows(s.t, n, f.sequence)
  }

  lemma {:induction false} AfterFramesLost(s: State, f: Frame)
    requires WriterEnabled(s, Tear(f, |Encode(f)|)) && s.t.sealed == map[] && s.first <= s.stored <= s.seqno
    ensures var u := Steps(s, AfterFrames(s, f)); Lost(u, s.cur, f) && u.cur == s.cur
  {
    hide Step, Encode, IsGathered, Appended;
    var es := AfterFrames(s, f);
    var st := Appended(s.t.buffer[s.cur], f);
    var m := Meta(s.cur, s.first, s.stored, 0, 0);
    TearStep(s, f);
    var a := Step(s, es[0]);
    CloseStep(a, true, 0);
    var b := Step(a, es[1]);
    OneGathered(b.t, m);
    CommitStep(b, s.cur, es[2].puts);
    var c := Step(b, es[2]);
    UnlinkStep(c, s.cur);
    var d := Step(c, es[3]);
    FourSteps(s, es[0], es[1], es[2], es[3]);
    assert es == [es[0], es[1], es[2], es[3]];
    assert d.t.rows[s.cur] == Blob(s.first, s.stored, 0, st) && s.cur !in d.t.buffer;
    LastAppended(s.t.buffer[s.cur], f);
  }

  lemma {:induction false} LastAppended(file: Stream, f: Frame)
    ensures Micros(f) in Appended(file, f).frames && Micros(f).sequence == f.sequence
  {
    hide Encode;
    var fs := Appended(file, f).frames;
    assert fs[|fs| - 1] == Micros(f);
  }

  lemma {:induction false} StepsCons(s: State, e: Event, es: seq<Event>)
    ensures Steps(s, [e] + es) == Steps(Step(s, e), es)
  {
    assert ([e] + es)[1..] == es;
  }

  lemma {:induction false} FourSteps(s: State, a: Event, b: Event, c: Event, d: Event)
    ensures Steps(s, [a, b, c, d]) == Step(Step(Step(Step(s, a), b), c), d)
  {
    hide Step, Steps;
    StepsCons(s, a, [b, c, d]);
    StepsCons(Step(s, a), b, [c, d]);
    StepsCons(Step(Step(s, a), b), c, [d]);
    StepsCons(Step(Step(Step(s, a), b), c), d, []);
    NoSteps(Step(Step(Step(Step(s, a), b), c), d));
    assert [a] + [b, c, d] == [a, b, c, d] && [b] + [c, d] == [b, c, d] && [c] + [d] == [c, d] && [d] + [] == [d];
  }

  lemma {:induction false} NoSteps(s: State)
    ensures Steps(s, []) == s
  {
  }

  /**
   The condition on the writer is needed.  After any run whose other chunks are archived and
   whose current chunk has an acknowledged frame, a failed store that leaves its whole frame
   leads to a layout in which no page at the cursor before that frame is lossless.
   */
  lemma {:induction false} WholeFailureLoses(es: seq<Event>, f: Frame, out: seq<Frame>)
    requires WriterEnabled(Run(es), Tear(f, |Encode(f)|)) && Run(es).t.sealed == map[]
    requires Run(es).stored >= Run(es).first
    ensures var s := Run(es);
            var t := Run(es + AfterFrames(s, f)).t;
            && !RecordsReach(t)
            && (MayReturn(t, s.cur + 1, s.seqno, out) ==> !Lossless(t, s.cur + 1, s.seqno, out))
  {
    hide Run, Proper, Covered, Inv, Exact, Tidy, Encode, AfterFrames, Lost;
    var s := Run(es);
    EveryLayoutIsProper(es);
    Counters(s);
    RunSteps(es, AfterFrames(s, f));
    AfterFramesLost(s, f);
    EveryLayoutIsProper(es + AfterFrames(s, f));
    LostIsLost(Run(es + AfterFrames(s, f)), s.cur + 1, s.cur, f, out);
  }

  lemma {:induction false} Counters(s: State)
    requires Proper(s)
    ensures s.stored <= s.seqno
  {
    hide Layout;
  }

  lemma {:induction false} LostIsLost(s: State, hi: nat, n: nat, f: Frame, out: seq<Frame>)
    requires Proper(s) && s.cur < hi && Lost(s, n, f) && f.sequence > 0
    ensures !RecordsReach(s.t)
    ensures MayReturn(s.t, hi, f.sequence - 1, out) ==> !Lossless(s.t, hi, f.sequence - 1, out)
  {
    hide Proper, Sound, AllFaithful, Readable, Below, Content, Shows, MayReturn, Lossless, Increasing, Retained;
    ProperIsReadable(s, hi);
    var i :| 0 <= i < |Content(s.t, n)| && Content(s.t, n)[i] == Micros(f);
    assert !Reaches(s.t, n);
    if MayReturn(s.t, hi, f.sequence - 1, out) { UnshownIsLost(s.t, hi, n, Micros(f), out); }
  }

  /** The failed chunk is closed unlisted, and the next one takes a frame. */
  lemma {:induction false} NextChunkWritten(s: State, f: Frame, g: Frame)
    requires WriterEnabled(s, Tear(f, |Encode(f)|)) && s.stored < s.first <= s.seqno + 1
    requires Valid(g) && g.sequence == s.seqno + 2 && s.cur + 1 !in s.t.buffer
    ensures var es := BeforeFrames(s, f, g);
            var d := Steps(s, es[..4]);
            && d.t == Write(Write(s.t, s.cur, Appended(s.t.buffer[s.cur], f)), s.cur + 1, Appended(NOTHING, g))
            && d.phase.Writing? && d.cur == s.cur + 1 && d.first == d.stored == s.seqno + 2
  {
    hide Step, Steps, Encode, Appended, Valid, OneRow;
    var es := BeforeFrames(s, f, g);
    TearStep(s, f);
    var a := Step(s, es[0]);
    CloseStep(a, true, 0);
    var b := Step(a, es[1]);
    OpenStep(b);
    var c := Step(b, es[2]);
    AppendStep(c, g);
    FourSteps(s, es[0], es[1], es[2], es[3]);
    assert es[..4] == [es[0], es[1], es[2], es[3]];
    assert c.t.buffer[c.cur] == NOTHING;
  }

  lemma {:induction false} BeforeFramesLost(s: State, f: Frame, g: Frame)
    requires WriterEnabled(s, Tear(f, |Encode(f)|)) && s.t.sealed == map[] && s.stored < s.first <= s.seqno + 1
    requires Valid(g) && g.sequence == s.seqno + 2 && s.cur !in s.t.rows && s.cur + 1 !in s.t.buffer
    ensures var u := Steps(s, BeforeFrames(s, f, g)); Lost(u, s.cur, f) && u.cur == s.cur + 1
  {
    hide Step, Steps, Encode, IsGathered, Appended, Valid, Content, Shows;
    var es := BeforeFrames(s, f, g);
    NextChunkWritten(s, f, g);
    var d := Steps(s, es[..4]);
    CloseStep(d, true, 0);
    var x := Step(d, es[4]);
    OneGathered(x.t, Meta(s.cur + 1, s.seqno + 2, s.seqno + 2, 0, 0));
    CommitStep(x, s.cur + 1, es[5].puts);
    var y := Step(x, es[5]);
    StepsAgain(s, es[..4], [es[4], es[5]]);
    StepsCons(d, es[4], [es[5]]);
    StepsCons(x, es[5], []);
    NoSteps(y);
    assert es == es[..4] + [es[4], es[5]];
    assert [es[4]] + [es[5]] == [es[4], es[5]] && [es[5]] + [] == [es[5]];
    LastAppended(s.t.buffer[s.cur], f);
    LastAppended(NOTHING, g);
    BehindRow(y.t, s.cur, Appended(s.t.buffer[s.cur], f), f, Appended(NOTHING, g), g);
  }

  /** A frame that only the buffer has, behind an archived chunk with a frame. */
  lemma {:induction false} BehindRow(t: Tiers, n: nat, file: Stream, f: Frame, next: Stream, g: Frame)
    requires n in t.buffer && t.buffer[n] == file && n !in t.rows && n + 1 in t.rows
    requires t.rows[n + 1].Blob? && t.rows[n + 1].blob == next
    requires Micros(f) in file.frames && Micros(g) in next.frames
    ensures Micros(f) in Content(t, n) && !Shows(t, n, f.sequence)
  {
    assert Content(t, n + 1) != [];
  }

  lemma {:induction false} StepsAgain(s: State, es: seq<Event>, fs: seq<Event>)
    ensures Steps(s, es + fs) == Steps(Steps(s, es), fs)
    decreases |es|
  {
    hide Step;
    if es == [] {
      assert es + fs == fs;
    } else {
      assert (es + fs)[1..] == es[1..] + fs && (es + fs)[0] == es[0];
      StepsAgain(Step(s, es[0]), es[1..], fs);
    }
  }

  /** The same for a failed store that is the first of its chunk, once the next chunk is archived. */
  lemma {:induction false} FirstFailureLoses(es: seq<Event>, f: Frame, g: Frame, out: seq<Frame>)
    requires WriterEnabled(Run(es), Tear(f, |Encode(f)|)) && Run(es).t.sealed == map[] && Run(es).stored < Run(es).first
    requires Valid(g) && g.sequence == f.sequence + 1
    ensures var s := Run(es);
            var t := Run(es + BeforeFrames(s, f, g)).t;
            && !RecordsReach(t)
            && (MayReturn(t, s.cur + 2, s.seqno, out) ==> !Lossless(t, s.cur + 2, s.seqno, out))
  {
    hide Run, Proper, Covered, Inv, Exact, Tidy, Encode, BeforeFrames, Lost, Valid;
    var s := Run(es);
    EveryLayoutIsProper(es);
    Unwritten(s);
    RunSteps(es, BeforeFrames(s, f, g));
    BeforeFramesLost(s, f, g);
    EveryLayoutIsProper(es + BeforeFrames(s, f, g));
    LostIsLost(Run(es + BeforeFrames(s, f, g)), s.cur + 2, s.cur, f, out);
  }

  lemma {:induction false} Unwritten(s: State)
    requires Proper(s) && s.phase.Writing?
    ensures s.first <= s.seqno + 1 && s.cur !in s.t.rows && s.cur + 1 !in s.t.buffer
  {
    hide Layout, OthersKnown, Tail;
  }

  /** Such runs exist: a first chunk, without an acknowledged frame and with one. */
  lemma {:induction false} BothStarts(f: Frame)
    requires Valid(f) && f.sequence == 1
    ensures var s := Run([Open]);
            s.phase.Writing? && s.cur in s.t.buffer && s.t.sealed == map[] && s.stored < s.first && s.seqno == 0
    ensures var s := Run([Open, Append(f)]);
            s.phase.Writing? && s.cur in s.t.buffer && s.t.sealed == map[] && s.stored >= s.first && s.seqno == 1
  {
    hide Encode, Valid;
    RunStep([], Open);
    OpenStep(START);
    RunStep([Open], Append(f));
    AppendStep(Run([Open]), f);
    assert [] + [Open] == [Open] && [Open] + [Append(f)] == [Open, Append(f)];
  }

  // ---------------------------------------------------------------- a page that ends early

  /** A store torn within its payload, and the next chunk. */
  function TornBetween(f: Frame, g: Frame, k: nat, h: Frame): seq<Event> {
    [Open, Append(f), Tear(g, k), Close(true, 0, 0), Open, Append(h)]
  }

  function TornLayout(f: Frame, g: Frame, k: nat, h: Frame): Tiers
    requires k <= |Encode(g)|
  {
    var list := map[1 := Meta(1, 1, 1, 0, 0)];
    Tiers(map[], map[], map[1 := Partly(Appended(NOTHING, f), g, k), 2 := Appended(NOTHING, h)], list, list)
  }

  lemma {:induction false} TornStep(s: State, f: Frame, k: nat)
    requires WriterEnabled(s, Tear(f, k))
    ensures Step(s, Tear(f, k))
         == s.(t := Write(s.t, s.cur, Partly(s.t.buffer[s.cur], f, k)), phase := Broken, seqno := s.seqno + 1)
  {
    hide Encode, Valid, Partly;
  }

  lemma {:induction false} TornClosed(f: Frame, g: Frame, k: nat, h: Frame)
    requires Valid(f) && Valid(g) && f.sequence == 1 && g.sequence == 2 && k <= |Encode(g)|
    ensures var d := Steps(START, TornBetween(f, g, k, h)[..4]);
            && d.t == List(Write(NO_CHUNKS, 1, Partly(Appended(NOTHING, f), g, k)), Meta(1, 1, 1, 0, 0), true)
            && d.phase.Closed? && d.cur == 1 && d.seqno == 2
  {
    hide Step, Steps, Valid, Appended, Encode, Partly;
    var es := TornBetween(f, g, k, h);
    OpenStep(START);
    var a := Step(START, es[0]);
    AppendStep(a, f);
    var b := Step(a, es[1]);
    TornStep(b, g, k);
    var c := Step(b, es[2]);
    CloseStep(c, true, 0);
    FourSteps(START, es[0], es[1], es[2], es[3]);
    assert es[..4] == [es[0], es[1], es[2], es[3]];
    assert a.t.buffer[1] == NOTHING && b.t.buffer[1] == Appended(NOTHING, f);
    assert c.t == Write(NO_CHUNKS, 1, Partly(Appended(NOTHING, f), g, k));
  }

  lemma {:induction false} TornReached(f: Frame, g: Frame, k: nat, h: Frame)
    requires Valid(f) && Valid(g) && Valid(h) && f.sequence == 1 && g.sequence == 2 && h.sequence == 3
    requires k <= |Encode(g)|
    ensures Run(TornBetween(f, g, k, h)).t == TornLayout(f, g, k, h)
  {
    hide Step, Steps, Run, Valid, Appended, Encode, Partly;
    var es := TornBetween(f, g, k, h);
    TornClosed(f, g, k, h);
    var d := Steps(START, es[..4]);
    OpenStep(d);
    var x := Step(d, es[4]);
    AppendStep(x, h);
    assert x.t.buffer[2] == NOTHING;
    StepsAgain(START, es[..4], [es[4], es[5]]);
    StepsCons(d, es[4], [es[5]]);
    StepsCons(x, es[5], []);
    NoSteps(Step(x, es[5]));
    RunSteps([], es);
    RunNothing();
    assert [] + es == es && es == es[..4] + [es[4], es[5]];
    assert [es[4]] + [es[5]] == [es[4], es[5]] && [es[5]] + [] == [es[5]];
  }

  lemma {:induction false} OneAfter(f: Frame, c: nat)
    requires f.sequence > c
    ensures After([f], c) == [f]
  {
    AfterAll([f], c);
  }

  lemma {:induction false} TornSeen(f: Frame, g: Frame, k: nat, h: Frame)
    requires f.sequence == 1 && h.sequence == 3 && k < |Encode(g)|
    ensures var t := TornLayout(f, g, k, h);
            Scan(t, 3, 0, 2) == [Micros(f)] && Seen(t, 3, 0) == [Micros(f), Micros(h)]
  {
    hide Encode, After;
    var t := TornLayout(f, g, k, h);
    OneAfter(Micros(f), 0);
    OneAfter(Micros(h), 1);
    assert Content(t, 1) == [Micros(f)] && Content(t, 2) == [Micros(h)];
    assert RowRead(t, 0, 0) == [] && RowRead(t, 0, 1) == [] && RowRead(t, 0, 2) == [] && RowRead(t, 0, 3) == [];
    assert Scan(t, 3, 0, 0) == [] && Scan(t, 3, 0, 1) == [];
    assert Scan(t, 3, 0, 2) == [] + [Micros(f)] == [Micros(f)];
    assert Scan(t, 3, 0, 3) == [Micros(f)] + [Micros(h)];
  }

  /** The torn frame's header is what remains of the first chunk. */
  lemma {:induction false} TornTail(f: Frame, g: Frame, k: nat)
    requires Valid(f) && Valid(g) && HEADER <= k < |Encode(g)|
    ensures DecodeHeader(Leftover(Partly(Appended(NOTHING, f), g, k).bytes))
         == Header(Micros(g).(payload := []), |g.payload|)
  {
    hide Encode, Salvage, Leftover, DecodeHeader;
    SalvageOne(f, []);
    SalvageNone();
    EmptyTail(Encode(f));
    LeftoverAppend(Encode(f), Encode(g)[..k]);
    LeftoverCut(g, k);
    assert [] + Encode(f) == Encode(f);
  }

  /**
   A page can end before it has to: a store was torn within a payload too large for the page,
   and the frame after it would fit.
   */
  lemma {:induction false} TornFrameEndsPage(f: Frame, g: Frame, k: nat, h: Frame, out: seq<Frame>, limit: nat,
        budget: nat)
    requires Valid(f) && Valid(g) && Valid(h) && f.sequence == 1 && g.sequence == 2 && h.sequence == 3
    requires HEADER <= k < |Encode(g)| && limit > 1 && Size(f) + Size(h) <= budget < Size(f) + Size(g)
    requires IsPage(Run(TornBetween(f, g, k, h)).t, 3, 0, out, limit, budget)
    ensures var t := Run(TornBetween(f, g, k, h)).t;
            Seen(t, 3, 0) == [Micros(f), Micros(h)] && out == [Micros(f)] && !Longest(t, 3, 0, out, limit, budget)
  {
    hide Run, Valid, Encode, Leftover, DecodeHeader, Scan;
    var t := TornLayout(f, g, k, h);
    TornReached(f, g, k, h);
    TornSeen(f, g, k, h);
    TornTail(f, g, k);
    OneSize(Micros(f));
    assert Opens(t, 0, 1) && FileBars(t, 3, 0, 1, budget);
    assert Blocked(t, 3, 0, 1, budget);
    hide Blocked, Bytes;
    assert |out| >= 1 && out[..1] == [Micros(f)];
    assert MayEnd(t, 3, 0, out[..1], limit, budget);
  }

  lemma {:induction false} OneSize(f: Frame)
    ensures Bytes([f], 1) == Size(f)
  {
    assert Bytes([f], 0) == 0;
  }

  // ---------------------------------------------------------------- a checkpoint that cannot go on

  /** The file of chunk n, listed up to the checkpoint, is gone. */
  predicate GoneAt(t: Tiers, through: nat, n: nat) { n in t.sealed && n <= through && n !in t.buffer }

  /** What the writer does about a jammed checkpoint: only evicting the chunk whose file is gone ends it. */
  lemma {:induction false} JamExactly(s: State, e: Event, through: nat)
    requires Proper(s) && WriterEnabled(s, e)
    ensures Jammed(WriterStep(s, e).t, through) <==> exists n :: GoneAt(s.t, through, n) && e != EvictOldest(n)
  {
    forall n: nat ensures GoneAt(WriterStep(s, e).t, through, n) <==> GoneAt(s.t, through, n) && e != EvictOldest(n) {
      GoneStays(s, e, through, n);
    }
    JamIs(WriterStep(s, e).t, through);
    hide GoneAt, WriterStep, Jammed;
  }

  lemma {:induction false} JamIs(t: Tiers, through: nat)
    ensures Jammed(t, through) <==> exists n: nat :: GoneAt(t, through, n)
  {
    if Jammed(t, through) {
      var n :| n in t.sealed && n <= through && n !in t.buffer;
      assert GoneAt(t, through, n);
    }
  }

  lemma {:induction false} GoneStays(s: State, e: Event, through: nat, n: nat)
    requires Proper(s) && WriterEnabled(s, e)
    ensures GoneAt(WriterStep(s, e).t, through, n) <==> GoneAt(s.t, through, n) && e != EvictOldest(n)
  {
    hide Layout, Encode, Valid, Appended, Partly, Archived, OthersKnown;
  }

  /** A restart forgets the list, so the sweep is not stuck. */
  lemma {:induction false} StopUnjams(s: State, through: nat)
    ensures !Jammed(Step(s, Stop).t, through)
  {
  }

  function TwoRows(f: Frame): map<nat, Row> {
    map[1 := Blob(1, 1, 0, Appended(NOTHING, f)), 2 := File(2, 2, 0, FILE_CHUNK_MIN)]
  }

  /** Two chunks, a small and a large one; both are committed and the large one's file is moved. */
  function HalfDone(f: Frame, g: Frame): seq<Event> {
    [Open, Append(f), Close(false, 0, 0), Open, Append(g), Close(false, FILE_CHUNK_MIN, 0),
     Commit(2, TwoRows(f), [1, 2], [2]), Place(2)]
  }

  /** The layout with both chunks listed. */
  function TwoListed(f: Frame, g: Frame): Tiers {
    Tiers(map[], map[], map[1 := Appended(NOTHING, f), 2 := Appended(NOTHING, g)], map[],
          map[1 := Meta(1, 1, 1, 0, 0), 2 := Meta(2, 2, 2, FILE_CHUNK_MIN, 0)])
  }

  /** One more chunk with a single frame. */
  lemma {:induction false} ChunkWritten(s: State, f: Frame, bytes: nat)
    requires s.phase.Closed? && s.cur + 1 !in s.t.buffer && Valid(f) && f.sequence == s.seqno + 1
    ensures var u := Step(Step(Step(s, Open), Append(f)), Close(false, bytes, 0));
            && u.t == List(Write(s.t, s.cur + 1, Appended(NOTHING, f)),
                           Meta(s.cur + 1, s.seqno + 1, s.seqno + 1, bytes, 0), false)
            && u.phase.Closed? && u.cur == s.cur + 1 && u.seqno == s.seqno + 1
  {
    hide Step, Valid, Appended, Encode;
    OpenStep(s);
    var a := Step(s, Open);
    AppendStep(a, f);
    var b := Step(a, Append(f));
    CloseStep(b, false, bytes);
    assert a.t.buffer[a.cur] == NOTHING;
  }

  lemma {:induction false} TwoWritten(f: Frame, g: Frame)
    requires Valid(f) && Valid(g) && f.sequence == 1 && g.sequence == 2
    ensures var s := Steps(START, HalfDone(f, g)[..6]); s.t == TwoListed(f, g) && s.phase.Closed?
  {
    hide Step, Steps, Valid, Appended, Encode;
    var es := HalfDone(f, g);
    ChunkWritten(START, f, 0);
    var a := Step(Step(Step(START, es[0]), es[1]), es[2]);
    ChunkWritten(a, g, FILE_CHUNK_MIN);
    FourSteps(START, es[0], es[1], es[2], es[3]);
    StepsAgain(START, es[..4], [es[4], es[5]]);
    StepsCons(Step(a, es[3]), es[4], [es[5]]);
    StepsCons(Step(Step(a, es[3]), es[4]), es[5], []);
    NoSteps(Step(Step(Step(a, es[3]), es[4]), es[5]));
    assert es[..4] == [es[0], es[1], es[2], es[3]] && es[..6] == es[..4] + [es[4], es[5]];
    assert [es[4]] + [es[5]] == [es[4], es[5]] && [es[5]] + [] == [es[5]];
  }

  lemma {:induction false} TwoGathered(f: Frame, g: Frame)
    ensures IsGathered(TwoListed(f, g), 2, TwoRows(f), [1, 2], [2])
  {
    hide Appended;
    var t := TwoListed(f, g);
    assert ListedBelow(t, 0) == 0;
    assert ListedBelow(t, 1) == 0;
    assert ListedBelow(t, 2) == 1;
    assert HasRoom(t, 1) && HasRoom(t, 2) by { hide ListedBelow, CopiedBelow; }
    hide HasRoom, ListedBelow, CopiedBelow;
    assert WithinLimits(t, 1) && WithinLimits(t, 2);
    assert Gathered(t, 3, TwoRows(f));
    hide Gathered, WithinLimits;
  }

  /**
   A checkpoint that removes the small chunk's file in vain: the next batch is stuck although
   the oldest listed file is still there.
   */
  lemma {:induction false} RemovalInVain(f: Frame, g: Frame)
    requires Valid(f) && Valid(g) && f.sequence == 1 && g.sequence == 2
    ensures var t := Run(HalfDone(f, g)).t;
            Stuck(t, 2) && t.sealed.Keys == {1, 2} && t.buffer.Keys == {1}
  {
    hide Step, Steps, Run, Valid, Appended, Encode, IsGathered, Stuck;
    var es := HalfDone(f, g);
    TwoWritten(f, g);
    TwoGathered(f, g);
    var s := Steps(START, es[..6]);
    var a := Step(s, es[6]);
    var b := Step(a, es[7]);
    PlaceSteps(s, TwoRows(f));
    StepsAgain(START, es[..6], [es[6], es[7]]);
    StepsCons(s, es[6], [es[7]]);
    StepsCons(a, es[7], []);
    NoSteps(b);
    RunSteps([], es);
    RunNothing();
    assert [] + es == es && es == es[..6] + [es[6], es[7]];
    assert [es[6]] + [es[7]] == [es[6], es[7]] && [es[7]] + [] == [es[7]];
    FailedRemovalSticks(s.t, b.t, 2, TwoRows(f), [1, 2], [2], 2);
  }

  lemma RunNothing()
    ensures Run([]) == START
  {
  }

  lemma {:induction false} PlaceSteps(s: State, puts: map<nat, Row>)
    requires s.phase.Closed? && IsGathered(s.t, 2, puts, [1, 2], [2]) && 2 in s.t.buffer && 2 in puts && puts[2].File?
    ensures Step(Step(s, Commit(2, puts, [1, 2], [2])), Place(2)).t == Rename(Put(s.t, puts), 2)
  {
    hide IsGathered;
  }
}
