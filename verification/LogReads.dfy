/**
 What readers get from a run's log while it lives: every acknowledged frame that was not
 evicted, once and in order, whatever failed; and nothing else unless a failed store left its
 whole frame in the file.
 */
module LogReads {
  import opened Codec
  import opened LogReader
  import opened Archive
  import opened Growth
  import opened LogRun

  /** The acknowledged frames that were not evicted, of the chunks below hi. */
  function Retained(s: State, hi: nat): seq<Frame> {
    if hi == 0 then [] else Retained(s, hi - 1) + Want(s, hi - 1)
  }

  lemma {:induction false} InRetained(s: State, hi: nat, f: Frame)
    ensures f in Retained(s, hi) <==> exists n: nat :: n < hi && f in Want(s, n)
  {
    hide Want;
    if hi > 0 { InRetained(s, hi - 1, f); }
  }

  lemma {:induction false} WantHeld(s: State, n: nat)
    requires Layout(s)
    ensures Increasing(Want(s, n)) && forall f :: f in Want(s, n) ==> f in Content(s.t, n)
  {
    hide Sound, AllFaithful, Undamaged, UsedUpTo, Reaching, Leading, Content;
    SoundParts(s.t, n);
    assert Want(s, n) <= Content(s.t, n);
  }

  lemma {:induction false} RetainedIncreasing(s: State, hi: nat)
    requires Layout(s)
    ensures Increasing(Retained(s, hi))
  {
    hide Layout, Sound, Increasing, Want, Content;
    if hi > 0 {
      var n := hi - 1;
      LayoutParts(s);
      SoundParts(s.t, n);
      RetainedIncreasing(s, n);
      WantHeld(s, n);
      forall f, g | f in Retained(s, n) && g in Want(s, n) ensures f.sequence < g.sequence {
        InRetained(s, n, f);
        var m: nat :| m < n && f in Want(s, m);
        WantHeld(s, m);
        FrameOrder(s.t, m, f, n, g);
      }
      IncreasingJoin(Retained(s, n), Want(s, n));
    } else {
      NoFrames();
    }
  }

  /** The frames of fs that are in w. */
  function Among(fs: seq<Frame>, w: seq<Frame>): seq<Frame> {
    if fs == [] then [] else (if fs[0] in w then [fs[0]] else []) + Among(fs[1..], w)
  }

  lemma {:induction false} InAmong(fs: seq<Frame>, w: seq<Frame>, f: Frame)
    ensures f in Among(fs, w) <==> f in fs && f in w
  {
    if fs != [] {
      InAmong(fs[1..], w, f);
      assert fs == [fs[0]] + fs[1..];
    }
  }

  lemma {:induction false} AmongIncreasing(fs: seq<Frame>, w: seq<Frame>)
    requires Increasing(fs)
    ensures Increasing(Among(fs, w))
  {
    if fs != [] {
      AmongIncreasing(fs[1..], w);
      forall g | g in Among(fs[1..], w) ensures fs[0].sequence < g.sequence { InAmong(fs[1..], w, g); }
      hide Among;
      IncreasingJoin([fs[0]], Among(fs[1..], w));
      OnlyOne(fs, w);
    }
  }

  lemma {:induction false} OnlyOne(fs: seq<Frame>, w: seq<Frame>)
    requires fs != []
    ensures Among(fs, w) == Among(fs[1..], w) || Among(fs, w) == [fs[0]] + Among(fs[1..], w)
  {
  }

  /** The records show every acknowledged frame. */
  lemma {:induction false} AcknowledgedIsShown(s: State, n: nat, f: Frame)
    requires Layout(s) && f in Want(s, n)
    ensures f in Content(s.t, n) && Shows(s.t, n, f.sequence)
  {
    WantHeld(s, n);
    hide Sound, AllFaithful, Undamaged, UsedUpTo, Held;
    assert n in s.t.rows || n in s.t.buffer;
    hide Content;
    if n in s.t.rows { assert Ends(s.t, n, s.t.rows[n].last); }
    if n in s.t.index { assert Ends(s.t, n, s.t.index[n].last); }
  }

  lemma {:induction false} BelowCurrent(s: State, hi: nat)
    requires Writer(s) && s.cur < hi
    ensures Below(s.t, hi)
  {
    hide OthersKnown, Tail;
  }

  lemma {:induction false} UndamagedReadable(t: Tiers)
    requires Undamaged(t)
    ensures Readable(t)
  {
  }

  /** What a proper layout offers the reader. */
  lemma {:induction false} ProperIsReadable(s: State, hi: nat)
    requires Proper(s) && s.cur < hi
    ensures Sound(s.t) && AllFaithful(s.t) && Readable(s.t) && Below(s.t, hi) && Increasing(Retained(s, hi))
  {
    hide Layout, Writer, Sound, AllFaithful, Undamaged, Readable, Below, Increasing, Agree;
    LayoutParts(s);
    BelowCurrent(s, hi);
    UndamagedReadable(s.t);
    RetainedIncreasing(s, hi);
  }

  lemma {:induction false} SeenAcknowledged(s: State, hi: nat, after: nat, f: Frame)
    requires Proper(s) && s.cur < hi && f in Retained(s, hi) && f.sequence > after
    ensures f in Seen(s.t, hi, after)
  {
    hide Layout, Writer, Sound, AllFaithful, Readable, Below, Want, Content, Shows, Retained, Seen;
    ProperIsReadable(s, hi);
    InRetained(s, hi, f);
    var n: nat :| n < hi && f in Want(s, n);
    AcknowledgedIsShown(s, n, f);
    ShownIsSeen(s.t, hi, after, n, f);
  }

  /** In every proper layout a reader sees, of the acknowledged frames, exactly those after its cursor, in order. */
  lemma {:induction false} SeesAcknowledged(s: State, hi: nat, after: nat)
    requires Proper(s) && s.cur < hi
    ensures Among(Seen(s.t, hi, after), Retained(s, hi)) == After(Retained(s, hi), after)
  {
    hide Proper, Sound, AllFaithful, Readable, Below, Scan, Retained, Increasing, Among, After, Beyond;
    ProperIsReadable(s, hi);
    var seen, all := Seen(s.t, hi, after), Retained(s, hi);
    ScanIncreasing(s.t, hi, after, hi);
    BeyondIs(seen, after);
    AmongIncreasing(seen, all);
    AfterSubset(all, after);
    forall f ensures f in Among(seen, all) <==> f in After(all, after) {
      InAmong(seen, all, f);
      InAfter(all, after, f);
      if f in all && f.sequence > after { SeenAcknowledged(s, hi, after, f); }
    }
    SameFrames(Among(seen, all), After(all, after));
  }

  /**
   For every run, whatever failed: what a reader sees of the acknowledged and not evicted frames
   is all of them after its cursor, in order.
   */
  lemma {:induction false} AcknowledgedIsSeen(es: seq<Event>, hi: nat, after: nat)
    requires Run(es).cur < hi
    ensures Among(Seen(Run(es).t, hi, after), Retained(Run(es), hi)) == After(Retained(Run(es), hi), after)
  {
    hide Run, Proper, Exact, Inv, Covered, Tidy, Among, Seen, Retained, After;
    EveryLayoutIsProper(es);
    SeesAcknowledged(Run(es), hi, after);
  }

  /** Of an increasing sequence, a prefix holds everything up to its last frame. */
  lemma {:induction false} PrefixHolds(fs: seq<Frame>, out: seq<Frame>, f: Frame)
    requires Increasing(fs) && out <= fs && out != [] && f in fs && f.sequence <= out[|out| - 1].sequence
    ensures f in out
  {
    var i :| 0 <= i < |fs| && fs[i] == f;
    assert fs[|out| - 1] == out[|out| - 1];
    assert i < |out|;
    assert out[i] == f;
  }

  /** No page of any run passes over an acknowledged frame. */
  lemma {:induction false} PageKeeps(s: State, hi: nat, after: nat, out: seq<Frame>, f: Frame)
    requires Proper(s) && s.cur < hi && MayReturn(s.t, hi, after, out) && f in Retained(s, hi) && f.sequence > after
    ensures out != [] && (f.sequence <= out[|out| - 1].sequence ==> f in out)
  {
    hide Proper, Sound, AllFaithful, Readable, Below, Scan, Retained, Increasing, Beyond;
    ProperIsReadable(s, hi);
    ScanIncreasing(s.t, hi, after, hi);
    SeenAcknowledged(s, hi, after, f);
    if out != [] && f.sequence <= out[|out| - 1].sequence { PrefixHolds(Seen(s.t, hi, after), out, f); }
  }

  lemma {:induction false} LogicalIsRetained(s: State, hi: nat)
    requires Exact(s)
    ensures Logical(s.t, hi) == Retained(s, hi)
  {
    hide Content, Want;
    if hi > 0 { LogicalIsRetained(s, hi - 1); }
  }

  /** At every moment of a tidy run, every page is lossless, whatever its cursor, limit and budget. */
  lemma {:induction false} EveryPageIsLossless(es: seq<Event>, hi: nat, after: nat, out: seq<Frame>)
    requires Tidy(es) && Run(es).cur < hi && MayReturn(Run(es).t, hi, after, out)
    ensures Lossless(Run(es).t, hi, after, out)
  {
    hide Run, Proper, Sound, RecordsReach, Readable, Below, Inv, AllFaithful, Logical, Retained, After, Seen, Covered;
    hide Exact, Increasing;
    EveryLayoutIsProper(es);
    ProperIsReadable(Run(es), hi);
    InvReaches(Run(es).t);
    SeenIsAll(Run(es).t, hi, after);
  }

  // ---------------------------------------------------------------- reading while events go on

  predicate NothingEvicted(es: seq<Event>) { forall i :: 0 <= i < |es| ==> !es[i].EvictOldest? }

  /** A step acknowledges one new frame under the next number, or evicts a chunk, or keeps what is retained. */
  lemma {:induction false} WantStep(s: State, e: Event, n: nat)
    ensures var u := Step(s, e);
            && u.seqno >= s.seqno && u.cur >= s.cur
            && (|| Want(u, n) == Want(s, n)
                || (u.seqno == s.seqno + 1 && e.Append? && Want(u, n) == Want(s, n) + [Micros(e.frame)]
                    && e.frame.sequence == u.seqno)
                || (e.EvictOldest? && Want(u, n) == []))
  {
    hide IsGathered, Sweepable, Safe, Encode, Valid, Archived, Appended, Partly;
  }

  lemma {:induction false} RetainedStep(s: State, e: Event, hi: nat, f: Frame)
    ensures f in Retained(Step(s, e), hi) ==> f in Retained(s, hi) || f.sequence > s.seqno
    ensures f in Retained(s, hi) && !e.EvictOldest? ==> f in Retained(Step(s, e), hi)
  {
    hide Step, Want, Retained;
    InRetained(s, hi, f);
    InRetained(Step(s, e), hi, f);
    forall n: nat
      ensures f in Want(Step(s, e), n) ==> f in Want(s, n) || f.sequence > s.seqno
      ensures f in Want(s, n) && !e.EvictOldest? ==> f in Want(Step(s, e), n)
    {
      WantStep(s, e, n);
    }
  }

  lemma {:induction false} RunStep(es: seq<Event>, e: Event)
    ensures Run(es + [e]) == Step(Run(es), e)
  {
    assert (es + [e])[..|es|] == es;
  }

  /** What a later moment retains was retained before, or is newer than everything before. */
  lemma {:induction false} RetainedLater(es: seq<Event>, fs: seq<Event>, hi: nat, f: Frame)
    requires es <= fs
    ensures f in Retained(Run(fs), hi) ==> f in Retained(Run(es), hi) || f.sequence > Run(es).seqno
    ensures f in Retained(Run(es), hi) && NothingEvicted(fs) ==> f in Retained(Run(fs), hi)
    decreases |fs|
  {
    hide Run, Step, Retained;
    if es != fs {
      var n := |fs| - 1;
      RetainedLater(es, fs[..n], hi, f);
      RunStep(fs[..n], fs[n]);
      assert fs[..n] + [fs[n]] == fs;
      RetainedStep(Run(fs[..n]), fs[n], hi, f);
      SeqnoRises(es, fs[..n]);
    }
  }

  lemma {:induction false} SeqnoRises(es: seq<Event>, fs: seq<Event>)
    requires es <= fs
    ensures Run(es).seqno <= Run(fs).seqno
    decreases |fs|
  {
    hide Run, Step;
    if es != fs {
      var n := |fs| - 1;
      SeqnoRises(es, fs[..n]);
      RunStep(fs[..n], fs[n]);
      assert fs[..n] + [fs[n]] == fs;
      WantStep(Run(fs[..n]), fs[n], 0);
    }
  }

  /** Everything acknowledged and still retained up to the cursor was returned. */
  ghost predicate Caught(s: State, hi: nat, out: seq<Frame>) {
    && Increasing(out) && Beyond(out, 0) && LastOf(out, 0) <= s.seqno
    && forall f :: f in Retained(s, hi) && f.sequence <= LastOf(out, 0) ==> f in out
  }

  /** Every returned frame is retained. */
  ghost predicate AllKept(s: State, hi: nat, out: seq<Frame>) { forall f :: f in out ==> f in Retained(s, hi) }

  /** Events go on between two pages. */
  lemma {:induction false} CaughtLater(es: seq<Event>, fs: seq<Event>, hi: nat, out: seq<Frame>)
    requires es <= fs && Caught(Run(es), hi, out)
    ensures Caught(Run(fs), hi, out)
    ensures AllKept(Run(es), hi, out) && NothingEvicted(fs) ==> AllKept(Run(fs), hi, out)
  {
    hide Run, Retained, Increasing, Beyond, LastOf, NothingEvicted;
    SeqnoRises(es, fs);
    forall f: Frame
      ensures f in Retained(Run(fs), hi) ==> f in Retained(Run(es), hi) || f.sequence > Run(es).seqno
      ensures f in Retained(Run(es), hi) && NothingEvicted(fs) ==> f in Retained(Run(fs), hi)
    {
      RetainedLater(es, fs, hi, f);
    }
  }

  lemma {:induction false} SeenUsed(s: State, hi: nat, after: nat, f: Frame)
    requires Proper(s) && f in Seen(s.t, hi, after)
    ensures f.sequence <= s.seqno && (Exact(s) ==> f in Retained(s, hi))
  {
    hide Layout, Writer, Sound, Seen, Content, Retained, Logical, After, Exact;
    LayoutParts(s);
    SeenIsRetained(s.t, hi, after, f);
    InAfter(Logical(s.t, hi), after, f);
    InLogical(s.t, hi, f);
    var n: nat :| n < hi && f in Content(s.t, n);
    FramesUsed(s, n);
    if Exact(s) { LogicalIsRetained(s, hi); }
  }

  /** The next page. */
  lemma {:induction false} CaughtPage(s: State, hi: nat, out: seq<Frame>, page: seq<Frame>)
    requires Proper(s) && s.cur < hi && Caught(s, hi, out) && MayReturn(s.t, hi, LastOf(out, 0), page)
    ensures Caught(s, hi, out + page)
    ensures page != [] ==> LastOf(out + page, 0) == page[|page| - 1].sequence
    ensures page == [] ==> forall f :: f in Retained(s, hi) ==> f in out
    ensures Exact(s) && AllKept(s, hi, out) ==> AllKept(s, hi, out + page)
  {
    hide Proper, Sound, AllFaithful, Readable, Below, Seen, Retained, Exact, Increasing, Beyond;
    var after := LastOf(out, 0);
    var seen := Seen(s.t, hi, after);
    ProperIsReadable(s, hi);
    SeenInOrder(s.t, hi, after);
    forall f | f in page ensures f.sequence <= s.seqno && (Exact(s) ==> f in Retained(s, hi)) {
      assert f in seen;
      SeenUsed(s, hi, after, f);
    }
    forall f | f in Retained(s, hi) && f.sequence > after
      ensures page != [] && (f.sequence <= page[|page| - 1].sequence ==> f in page)
    {
      PageKeeps(s, hi, after, page, f);
    }
    JoinPage(out, page, seen);
    assert page != [] ==> page[|page| - 1] in page;
  }

  lemma {:induction false} SeenInOrder(t: Tiers, hi: nat, after: nat)
    requires Sound(t)
    ensures Increasing(Seen(t, hi, after)) && Beyond(Seen(t, hi, after), after)
  {
    hide Sound, Scan, Increasing, Beyond;
    ScanIncreasing(t, hi, after, hi);
  }

  lemma {:induction false} JoinPage(out: seq<Frame>, page: seq<Frame>, seen: seq<Frame>)
    requires Increasing(out) && Beyond(out, 0) && page <= seen && Increasing(seen) && Beyond(seen, LastOf(out, 0))
    ensures Increasing(out + page) && Beyond(out + page, 0)
    ensures forall f :: f in out ==> f.sequence <= LastOf(out, 0)
    ensures page != [] ==> LastOf(out + page, 0) == page[|page| - 1].sequence
    ensures page == [] ==> out + page == out
  {
    var all := out + page;
    forall i, j | 0 <= i < j < |all| ensures all[i].sequence < all[j].sequence {
      if i < |out| <= j { assert page[j - |out|] == seen[j - |out|]; }
      if |out| <= i { assert page[i - |out|] == seen[i - |out|] && page[j - |out|] == seen[j - |out|]; }
    }
    forall i | 0 <= i < |all| ensures all[i].sequence > 0 {
      if |out| <= i { assert page[i - |out|] == seen[i - |out|]; }
    }
  }

  lemma {:induction false} NumbersCount(fs: seq<Frame>)
    requires Increasing(fs) && Beyond(fs, 0)
    ensures |fs| <= LastOf(fs, 0)
  {
    if |fs| > 1 {
      NumbersCount(fs[..|fs| - 1]);
    }
  }

  /** What was caught is a beginning of what is retained, all of it if nothing is left. */
  lemma {:induction false} CaughtIsPrefix(s: State, hi: nat, out: seq<Frame>)
    requires Proper(s) && s.cur < hi && Caught(s, hi, out)
    ensures Among(out, Retained(s, hi)) <= Retained(s, hi)
    ensures (forall f :: f in Retained(s, hi) ==> f in out) ==> Among(out, Retained(s, hi)) == Retained(s, hi)
    ensures AllKept(s, hi, out) ==> Among(out, Retained(s, hi)) == out
  {
    hide Proper, Sound, AllFaithful, Readable, Below, Retained, Increasing, Beyond, After, Among;
    var all, c := Retained(s, hi), LastOf(out, 0);
    var kept, rest := Among(out, all), After(all, c);
    ProperIsReadable(s, hi);
    AmongIncreasing(out, all);
    AfterSubset(all, c);
    forall f ensures (f in kept <==> f in out && f in all) && (f in rest <==> f in all && f.sequence > c) {
      InAmong(out, all, f);
      InAfter(all, c, f);
    }
    ReturnedUpTo(out);
    IncreasingJoin(kept, rest);
    SameFrames(kept + rest, all);
    if forall f :: f in all ==> f in out { SameFrames(kept, all); }
    if AllKept(s, hi, out) { SameFrames(kept, out); }
  }

  lemma {:induction false} ReturnedUpTo(out: seq<Frame>)
    requires Increasing(out)
    ensures forall f :: f in out ==> f.sequence <= LastOf(out, 0)
  {
  }

  /** Later moments of one run. */
  ghost predicate Unfolds(runs: nat -> seq<Event>) { forall i, j :: i <= j ==> runs(i) <= runs(j) }

  /**
   A reader that pages through the run while the events go on, each page on the layout of its
   moment.  The frames it got, less those evicted meanwhile and those never acknowledged, are a
   beginning of what the last moment retains, and all of it once a page came back empty; that
   happens after at most as many pages as numbers were used.  In a tidy run without eviction
   nothing has to be left out.
   */
  method ReadRun(views: nat -> Tiers, ghost runs: nat -> seq<Event>, hi: nat, limit: int, budget: nat, pages: nat)
    returns (out: seq<Frame>, ended: bool, ghost at: nat)
    requires Unfolds(runs) && forall i :: views(i) == Run(runs(i)).t && Run(runs(i)).cur < hi
    ensures Increasing(out)
    ensures var all := Retained(Run(runs(at)), hi);
            && Among(out, all) <= all && (ended ==> Among(out, all) == all)
            && ((forall i :: Tidy(runs(i)) && NothingEvicted(runs(i))) ==> out <= all)
    ensures pages > Run(runs(at)).seqno ==> ended
  {
    hide Run, Proper, Sound, Readable, Below, AllFaithful, Inv, Covered, Exact, Tidy, NothingEvicted, Caught, AllKept;
    hide Retained, Among, MayReturn, RecordsReach, Lossless, Increasing;
    out, ended, at := [], false, 0;
    EveryLayoutIsProper(runs(0));
    ProperLayout(Run(runs(0)));
    NothingYetCaught(Run(runs(0)), hi);
    for i := 0 to pages
      invariant at <= i && (i > 0 ==> at == i - 1) && Caught(Run(runs(at)), hi, out) && |out| >= i && !ended
      invariant (forall j :: Tidy(runs(j)) && NothingEvicted(runs(j))) ==> AllKept(Run(runs(at)), hi, out)
    {
      CaughtLater(runs(at), runs(i), hi, out);
      at := i;
      EveryLayoutIsProper(runs(i));
      ProperIsReadable(Run(runs(i)), hi);
      var page, ok := ReadPage(views(i), hi, LastOf(out, 0), limit, budget);
      CaughtPage(Run(runs(i)), hi, out, page);
      if page == [] {
        ended := true;
        break;
      }
      out := out + page;
    }
    EveryLayoutIsProper(runs(at));
    CaughtIsPrefix(Run(runs(at)), hi, out);
    CaughtCount(Run(runs(at)), hi, out);
  }

  lemma {:induction false} ProperLayout(s: State)
    requires Proper(s)
    ensures Layout(s)
  {
    hide Layout, Writer;
  }

  lemma {:induction false} NothingYetCaught(s: State, hi: nat)
    requires Layout(s)
    ensures Caught(s, hi, []) && AllKept(s, hi, [])
  {
    hide Layout, Retained, Want, Content;
    forall f | f in Retained(s, hi) ensures f.sequence > 0 {
      InRetained(s, hi, f);
      var n: nat :| n < hi && f in Want(s, n);
      WantHeld(s, n);
      FramesUsed(s, n);
    }
  }

  lemma {:induction false} CaughtCount(s: State, hi: nat, out: seq<Frame>)
    requires Caught(s, hi, out)
    ensures |out| <= s.seqno && Increasing(out)
  {
    hide Retained;
    NumbersCount(out);
  }

  // ---------------------------------------------------------------- everything acknowledged

  /** The frames acknowledged in the course of a run, as they are stored. */
  ghost function Accepted(es: seq<Event>): seq<Frame> {
    if es == [] then []
    else
      var e := es[|es| - 1];
      Accepted(es[..|es| - 1]) + (if e.Append? && WriterEnabled(Run(es[..|es| - 1]), e) then [Micros(e.frame)] else [])
  }

  lemma {:induction false} SameWant(s: State, u: State, hi: nat)
    requires forall n: nat :: n < hi ==> Want(u, n) == Want(s, n)
    ensures Retained(u, hi) == Retained(s, hi)
  {
    hide Want;
    if hi > 0 { SameWant(s, u, hi - 1); }
  }

  lemma {:induction false} RetainedAppend(s: State, f: Frame)
    requires WriterEnabled(s, Append(f))
    ensures var u := Step(s, Append(f)); Retained(u, u.cur + 1) == Retained(s, s.cur + 1) + [Micros(f)]
  {
    hide Encode, Content, Appended, Valid;
    SameWant(s, Step(s, Append(f)), s.cur);
    Associative(Retained(s, s.cur), Want(s, s.cur), [Micros(f)]);
  }

  lemma {:induction false} RetainedOpen(s: State)
    requires Proper(s) && WriterEnabled(s, Open)
    ensures var u := Step(s, Open); Retained(u, u.cur + 1) == Retained(s, s.cur + 1)
  {
    hide Layout, Content, OthersKnown;
    NothingYet(s, s.cur + 1);
    SameWant(s, Step(s, Open), s.cur + 2);
    assert Retained(s, s.cur + 2) == Retained(s, s.cur + 1) + [];
  }

  lemma {:induction false} RetainedGrows(s: State, e: Event)
    requires Proper(s) && !e.EvictOldest?
    ensures var u := Step(s, e);
            Retained(u, u.cur + 1)
              == Retained(s, s.cur + 1) + (if e.Append? && WriterEnabled(s, e) then [Micros(e.frame)] else [])
  {
    hide Proper, Step, WriterEnabled, Retained;
    if e.Append? && WriterEnabled(s, e) {
      RetainedAppend(s, e.frame);
    } else if e.Open? && WriterEnabled(s, e) {
      RetainedOpen(s);
    } else {
      KeepsWant(s, e);
      SameWant(s, Step(s, e), s.cur + 1);
    }
  }

  lemma {:induction false} KeepsWant(s: State, e: Event)
    requires !(e.Append? && WriterEnabled(s, e)) && !(e.Open? && WriterEnabled(s, e)) && !e.EvictOldest?
    ensures Step(s, e).want == s.want && Step(s, e).cur == s.cur
  {
    hide IsGathered, Sweepable, Safe, Encode, Valid, Partly;
  }

  lemma {:induction false} RetainedIsAccepted(es: seq<Event>)
    requires NothingEvicted(es)
    ensures Retained(Run(es), Run(es).cur + 1) == Accepted(es)
  {
    hide Proper, Step, WriterEnabled, Covered, Inv, Exact, Tidy;
    if es == [] {
      RetainedAtStart();
    } else {
      var before := es[..|es| - 1];
      RetainedIsAccepted(before);
      EveryLayoutIsProper(before);
      RetainedGrows(Run(before), es[|es| - 1]);
    }
  }

  lemma RetainedAtStart()
    ensures Retained(START, 1) == []
  {
    assert Retained(START, 0) == [];
  }

  /**
   Without eviction a reader from the start sees every frame that was acknowledged, in the order
   of acknowledgement, whatever failed; and nothing else if no failed store left its whole frame.
   */
  lemma {:induction false} NothingAcknowledgedIsLost(es: seq<Event>)
    requires NothingEvicted(es)
    ensures var seen := Seen(Run(es).t, Run(es).cur + 1, 0);
            Among(seen, Accepted(es)) == Accepted(es) && (Tidy(es) ==> seen == Accepted(es))
  {
    hide Run, Proper, Covered, Inv, Exact, Tidy, Accepted, Among, Seen, Retained, After, NothingEvicted, Increasing;
    hide Sound, RecordsReach, Readable, Below, AllFaithful, Logical;
    var s := Run(es);
    var hi := s.cur + 1;
    RetainedIsAccepted(es);
    EveryLayoutIsProper(es);
    SeesAcknowledged(s, hi, 0);
    AllAfterZero(s, hi);
    if Tidy(es) {
      ProperIsReadable(s, hi);
      InvReaches(s.t);
      SeenIsAll(s.t, hi, 0);
      LogicalIsRetained(s, hi);
    }
  }

  lemma {:induction false} AllAfterZero(s: State, hi: nat)
    requires Proper(s)
    ensures After(Retained(s, hi), 0) == Retained(s, hi)
  {
    hide Layout, Retained, After, Want, Content, Writer;
    BeyondIs(Retained(s, hi), 0);
    forall f | f in Retained(s, hi) ensures f.sequence > 0 {
      InRetained(s, hi, f);
      var n: nat :| n < hi && f in Want(s, n);
      WantHeld(s, n);
      FramesUsed(s, n);
    }
    AfterAll(Retained(s, hi), 0);
  }
}
