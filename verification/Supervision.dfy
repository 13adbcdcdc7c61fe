/**
 Worker supervision: restart epochs, the exhaustion record in memory and in the database,
 and the loops that supervise workers.  The state lock makes a reset and a record write
 atomic towards each other; the lifecycle lock covers every launch.
 */
module Supervision {
  import opened Options

  /** A database outcome; Unsure committed and still reported an error. */
  datatype Outcome = Done | Failed | Unsure

  /** What a supervision loop is doing; Trying and Saved carry the epoch its failure was counted in. */
  datatype Phase = Working | Trying(epoch: nat) | Saved(epoch: nat)

  datatype Loop = Loop(worker: nat, phase: Phase)

  /** The holder of the lifecycle lock. */
  datatype Lifecycle =
    | Free
    | Resetting(worker: nat, restart: bool) | ResetDone(worker: nat, restart: bool) | AwaitingEnd(worker: nat)
    | ReloadBegun(desired: set<nat>) | ReloadReset(desired: set<nat>) | AwaitingEnds(desired: set<nat>, ends: set<nat>)

  /** A restart that waits for the old loop, guarded by the epoch it began in. */
  datatype Restart = Restart(worker: nat, epoch: nat)

  datatype State = State(
    counter: nat, base: nat, epochs: map<nat, nat>,
    exhausted: map<nat, nat>,    // in memory, by worker: the epoch of the lifecycle it describes
    durable: map<nat, int>,      // the same in the database, negative for a lifecycle of an earlier process
    dirty: set<nat>,             // workers whose stored record is left over from an earlier lifecycle
    loops: multiset<Loop>, lifecycle: Lifecycle, restarts: set<Restart>)

  datatype Event =
    | Begin(worker: nat, restart: bool) | Reset(outcome: Outcome) | Proceed(running: bool) | AwaitOver
    | RestartRun(waiting: Restart)
    | BeginReload(desired: set<nat>) | FullReset(outcome: Outcome) | CancelLoops(kept: set<nat>) | LaunchAll
    | Fail(loop: Loop) | Persist(loop: Loop, outcome: Outcome, cancelled: bool) | Conflict(loop: Loop)
    | Retire(loop: Loop) | LoopEnds(loop: Loop)

  function Epoch(s: State, w: nat): nat { if w in s.epochs then s.epochs[w] else s.base }

  function Workers(ls: multiset<Loop>): set<nat> { set l | l in ls :: l.worker }

  function Launch(s: State, ws: set<nat>): State {
    s.(loops := s.loops + multiset(set w | w in ws :: Loop(w, Working)), lifecycle := Free)
  }

  function Replace(s: State, l: Loop, phase: Phase): State {
    s.(loops := s.loops - multiset{l} + multiset{l.(phase := phase)})
  }

  function Clear(s: State, w: nat): State { s.(durable := s.durable - {w}, dirty := s.dirty - {w}) }

  function Save(s: State, w: nat, epoch: nat): State {
    s.(durable := s.durable[w := epoch], dirty := s.dirty - {w})
  }

  function LifecycleStep(s: State, e: Event): (u: State)
    ensures u.loops == s.loops || e.Proceed? || e.AwaitOver? || e.LaunchAll?
    ensures (u.counter == s.counter && u.base == s.base && u.epochs == s.epochs) || e.Reset? || e.FullReset?
    ensures u.lifecycle == s.lifecycle || !u.lifecycle.AwaitingEnds? || e.CancelLoops?
  {
    match e
    case Begin(w, restart) => if s.lifecycle.Free? then s.(lifecycle := Resetting(w, restart)) else s
    case Reset(o) =>
      if !s.lifecycle.Resetting? then s
      else
        var w := s.lifecycle.worker;
        if o.Failed? then s.(lifecycle := Free)
        else if o.Unsure? then Clear(s, w).(lifecycle := Free)
        else Clear(s, w).(counter := s.counter + 1, epochs := s.epochs[w := s.counter + 1],
            exhausted := s.exhausted - {w},
                          lifecycle := ResetDone(w, s.lifecycle.restart))
    case Proceed(running) =>
      if !s.lifecycle.ResetDone? then s
      else
        var w := s.lifecycle.worker;
        if s.lifecycle.restart then s.(restarts := s.restarts + {Restart(w, Epoch(s, w))}, lifecycle := Free)
        else if w !in Workers(s.loops) then Launch(s, {w})
        else if running then s.(lifecycle := Free)
        else s.(lifecycle := AwaitingEnd(w))
    case AwaitOver =>
      if s.lifecycle.AwaitingEnd? && s.lifecycle.worker !in Workers(s.loops) then Launch(s, {s.lifecycle.worker}) else s
    case RestartRun(r) =>
      if !s.lifecycle.Free? || r !in s.restarts then s
      else if Epoch(s, r.worker) != r.epoch then s.(restarts := s.restarts - {r})
      else if r.worker in Workers(s.loops) then s // it waits for the old loop
      else s.(restarts := s.restarts - {r}, lifecycle := ResetDone(r.worker, false))
    case BeginReload(desired) => if s.lifecycle.Free? then s.(lifecycle := ReloadBegun(desired)) else s
    case FullReset(o) =>
      if !s.lifecycle.ReloadBegun? then s
      else
        var u := s.(counter := s.counter + 1, base := s.counter + 1, epochs := map[], exhausted := map[],
                    lifecycle := ReloadReset(s.lifecycle.desired));
        if o.Failed? then u.(dirty := s.durable.Keys) else u.(durable := map[], dirty := {})
    case CancelLoops(kept) =>
      if !s.lifecycle.ReloadReset? || !(kept <= s.lifecycle.desired * Workers(s.loops)) then s
      else s.(lifecycle := AwaitingEnds(s.lifecycle.desired - kept, Workers(s.loops) - kept))
    case LaunchAll =>
      if s.lifecycle.AwaitingEnds? && s.lifecycle.ends !! Workers(s.loops) then Launch(s, s.lifecycle.desired) else s
    case _ => s
  }

  /** The record write is still for the current lifecycle. */
  predicate Stores(s: State, e: Event) {
    e.Persist? && e.loop in s.loops && e.loop.phase.Trying? && !e.cancelled
        && Epoch(s, e.loop.worker) == e.loop.phase.epoch
  }

  predicate Retires(s: State, e: Event) {
    e.Retire? && e.loop in s.loops && e.loop.phase.Saved? && Epoch(s, e.loop.worker) == e.loop.phase.epoch
  }

  function LoopStep(s: State, e: Event): (u: State)
    ensures u.lifecycle == s.lifecycle && u.counter == s.counter && u.base == s.base && u.epochs == s.epochs
  {
    match e
    case Fail(l) => if l in s.loops && l.phase.Working? then Replace(s, l, Trying(Epoch(s, l.worker))) else s
    case Persist(l, o, cancelled) =>
      if l !in s.loops || !l.phase.Trying? then s
      else if !Stores(s, e) then Replace(s, l, Working)
      else
        var u := s.(exhausted := s.exhausted[l.worker := l.phase.epoch]);
        if o.Done? then Replace(Save(u, l.worker, l.phase.epoch), l, Saved(l.phase.epoch))
        else if o.Unsure? then Save(u, l.worker, l.phase.epoch)
        else u
    case Conflict(l) => // the definition was replaced: the record is refused
      if l !in s.loops || !l.phase.Trying? then s
      else if Epoch(s, l.worker) != l.phase.epoch then Replace(s, l, Working)
      else Replace(s.(exhausted := s.exhausted - {l.worker}), l, Saved(l.phase.epoch))
    case Retire(l) =>
      if l !in s.loops || !l.phase.Saved? then s
      else if Retires(s, e) then s.(loops := s.loops - multiset{l})
      else Replace(s, l, Working)
    case LoopEnds(l) => if l in s.loops then s.(loops := s.loops - multiset{l}) else s
    case _ => s
  }

  function Step(s: State, e: Event): State {
    match e
    case Fail(_) => LoopStep(s, e)
    case Persist(_, _, _) => LoopStep(s, e)
    case Conflict(_) => LoopStep(s, e)
    case Retire(_) => LoopStep(s, e)
    case LoopEnds(_) => LoopStep(s, e)
    case _ => LifecycleStep(s, e)
  }

  /** The records an earlier process left in the database. */
  type Leftover = m: map<nat, int> | forall w | w in m :: m[w] < 0 witness map[]

  function Begun(left: Leftover): State { State(0, 0, map[], map[], left, left.Keys, multiset{}, Free, {}) }

  function Run(left: Leftover, es: seq<Event>, n: nat): State
    requires n <= |es|
  {
    if n == 0 then Begun(left) else Step(Run(left, es, n - 1), es[n - 1])
  }

  // ---------------------------------------------------------------- the invariant

  /** Every token in use was drawn from the counter. */
  ghost predicate Tokens(s: State) {
    && s.base <= s.counter && (forall w :: w in s.epochs ==> s.base <= s.epochs[w] <= s.counter)
  }

  /** Memory describes the current lifecycle; so does the database, except where a reset could not clear it. */
  ghost predicate Current(s: State) {
    && (forall w :: w in s.exhausted ==> s.exhausted[w] == Epoch(s, w))
    && (forall w :: w in s.durable && w !in s.dirty ==> s.durable[w] == Epoch(s, w))
    && (forall w :: w in s.dirty ==> w in s.durable && s.durable[w] < Epoch(s, w))
    && s.dirty <= s.durable.Keys
  }

  /** Each worker has at most one loop, and a launch never finds one of its name. */
  ghost predicate Single(s: State) {
    && (forall l :: l in s.loops ==> s.loops[l] == 1)
    && (forall l, m :: l in s.loops && m in s.loops && l.worker == m.worker ==> l == m)
    && (s.lifecycle.AwaitingEnds? ==> s.lifecycle.desired * Workers(s.loops) <= s.lifecycle.ends)
  }

  ghost predicate Inv(s: State) { Records(s) && Single(s) }

  lemma {:induction false} EpochBound(s: State, w: nat)
    requires Tokens(s)
    ensures s.base <= Epoch(s, w) <= s.counter
  {
  }

  ghost predicate Records(s: State) { Tokens(s) && Current(s) }

  /** Steps that only move loops, locks and waiting restarts. */
  lemma {:induction false} RecordsSame(s: State, u: State)
    requires Records(s) && u == s.(loops := u.loops, lifecycle := u.lifecycle, restarts := u.restarts)
    ensures Records(u)
  {
    assert forall w: nat :: Epoch(u, w) == Epoch(s, w);
    hide Epoch;
  }

  lemma {:induction false} ClearRecords(s: State, w: nat)
    requires Records(s)
    ensures Records(Clear(s, w))
  {
    assert forall v: nat :: Epoch(Clear(s, w), v) == Epoch(s, v);
    hide Epoch;
  }

  lemma {:induction false} ResetRecords(s: State, w: nat)
    requires Records(s)
    ensures Records(Clear(s, w).(counter := s.counter + 1, epochs := s.epochs[w := s.counter + 1],
            exhausted := s.exhausted - {w}))
  {
    var u := Clear(s, w).(counter := s.counter + 1, epochs := s.epochs[w := s.counter + 1],
        exhausted := s.exhausted - {w});
    assert forall v: nat :: v != w ==> Epoch(u, v) == Epoch(s, v);
    hide Epoch;
  }

  lemma {:induction false} FullResetRecords(s: State, failed: bool)
    requires Records(s)
    ensures var u := s.(counter := s.counter + 1, base := s.counter + 1, epochs := map[], exhausted := map[]);
            Records(if failed then u.(dirty := s.durable.Keys) else u.(durable := map[], dirty := {}))
  {
    forall w: nat ensures Epoch(s, w) <= s.counter { EpochBound(s, w); }
  }

  lemma {:induction false} SaveRecords(s: State, w: nat, save: bool)
    requires Records(s)
    ensures var u := s.(exhausted := s.exhausted[w := Epoch(s, w)]);
            Records(if save then Save(u, w, Epoch(s, w)) else u)
  {
    var u := s.(exhausted := s.exhausted[w := Epoch(s, w)]);
    var r := if save then Save(u, w, Epoch(s, w)) else u;
    assert forall v: nat :: Epoch(r, v) == Epoch(s, v);
    hide Epoch;
  }

  lemma {:induction false} ForgetRecords(s: State, w: nat)
    requires Records(s)
    ensures Records(s.(exhausted := s.exhausted - {w}))
  {
    var u := s.(exhausted := s.exhausted - {w});
    assert forall v: nat :: Epoch(u, v) == Epoch(s, v);
    hide Epoch;
  }

  lemma {:induction false} LifecycleRecords(s: State, e: Event)
    requires Records(s)
    ensures Records(LifecycleStep(s, e))
  {
    hide Records, Epoch, Workers;
    match e
    case Reset(o) =>
      if s.lifecycle.Resetting? {
        var w := s.lifecycle.worker;
        ClearRecords(s, w);
        ResetRecords(s, w);
        RecordsSame(if o.Failed? then s else if o.Unsure? then Clear(s, w)
                    else Clear(s, w).(counter := s.counter + 1, epochs := s.epochs[w := s.counter + 1],
                        exhausted := s.exhausted - {w}),
                    LifecycleStep(s, e));
      }
    case FullReset(o) =>
      if s.lifecycle.ReloadBegun? {
        FullResetRecords(s, o.Failed?);
        var u := s.(counter := s.counter + 1, base := s.counter + 1, epochs := map[], exhausted := map[]);
        RecordsSame(if o.Failed? then u.(dirty := s.durable.Keys)
            else u.(durable := map[], dirty := {}), LifecycleStep(s, e));
      }
    case _ => RecordsSame(s, LifecycleStep(s, e));
  }

  lemma {:induction false} LoopRecords(s: State, e: Event)
    requires Records(s)
    ensures Records(LoopStep(s, e))
  {
    hide Records, Epoch;
    match e
    case Persist(l, o, cancelled) =>
      SaveRecords(s, l.worker, !o.Failed?);
      var u := s.(exhausted := s.exhausted[l.worker := Epoch(s, l.worker)]);
      RecordsSame(if !Stores(s, e) then s else if o.Failed? then u
          else Save(u, l.worker, Epoch(s, l.worker)), LoopStep(s, e));
    case Conflict(l) =>
      ForgetRecords(s, l.worker);
      var refused := l in s.loops && l.phase.Trying? && Epoch(s, l.worker) == l.phase.epoch;
      RecordsSame(if refused then s.(exhausted := s.exhausted - {l.worker}) else s, LoopStep(s, e));
    case _ => RecordsSame(s, LoopStep(s, e));
  }

  lemma {:induction false} LaunchSingle(s: State, ws: set<nat>)
    requires Single(s) && ws !! Workers(s.loops)
    ensures Single(Launch(s, ws))
  {
  }

  lemma {:induction false} RemoveSingle(s: State, l: Loop)
    requires Single(s) && l in s.loops
    ensures var u := s.(loops := s.loops - multiset{l}); Single(u) && l.worker !in Workers(u.loops)
  {
    var u := s.(loops := s.loops - multiset{l});
    assert forall m :: m in u.loops ==> m in s.loops && m != l;
  }

  lemma {:induction false} AddSingle(s: State, l: Loop)
    requires Single(s) && l.worker !in Workers(s.loops)
    requires s.lifecycle.AwaitingEnds? && l.worker in s.lifecycle.desired ==> l.worker in s.lifecycle.ends
    ensures Single(s.(loops := s.loops + multiset{l}))
  {
    var u := s.(loops := s.loops + multiset{l});
    assert forall m :: m in u.loops <==> m in s.loops || m == l;
  }

  lemma {:induction false} ReplaceSingle(s: State, l: Loop, phase: Phase)
    requires Single(s) && l in s.loops
    ensures Single(Replace(s, l, phase)) && Single(s.(loops := s.loops - multiset{l}))
  {
    RemoveSingle(s, l);
    assert s.lifecycle.AwaitingEnds? && l.worker in s.lifecycle.desired ==> l.worker in s.lifecycle.ends by {
      assert l.worker in Workers(s.loops);
    }
    hide Single, Workers;
    AddSingle(s.(loops := s.loops - multiset{l}), l.(phase := phase));
  }

  lemma {:induction false} LifecycleSingle(s: State, e: Event)
    requires Single(s)
    ensures Single(LifecycleStep(s, e))
  {
    match e
    case Proceed(running) => ProceedSingle(s, running);
    case AwaitOver => AwaitSingle(s);
    case LaunchAll => LaunchAllSingle(s);
    case CancelLoops(kept) => CancelSingle(s, kept);
    case _ =>
      hide LifecycleStep, Workers;
  }

  lemma {:induction false} ProceedSingle(s: State, running: bool)
    requires Single(s)
    ensures Single(LifecycleStep(s, Proceed(running)))
  {
    hide Epoch;
    if s.lifecycle.ResetDone? && s.lifecycle.worker !in Workers(s.loops) { LaunchSingle(s, {s.lifecycle.worker}); }
  }

  lemma {:induction false} AwaitSingle(s: State)
    requires Single(s)
    ensures Single(LifecycleStep(s, AwaitOver))
  {
    if s.lifecycle.AwaitingEnd? && s.lifecycle.worker !in Workers(s.loops) { LaunchSingle(s, {s.lifecycle.worker}); }
  }

  lemma {:induction false} LaunchAllSingle(s: State)
    requires Single(s)
    ensures Single(LifecycleStep(s, LaunchAll))
  {
    if s.lifecycle.AwaitingEnds? && s.lifecycle.ends !! Workers(s.loops) { LaunchSingle(s, s.lifecycle.desired); }
  }

  lemma {:induction false} CancelSingle(s: State, kept: set<nat>)
    requires Single(s)
    ensures Single(LifecycleStep(s, CancelLoops(kept)))
  {
  }

  lemma {:induction false} SingleSame(s: State, u: State)
    requires Single(s) && u.loops == s.loops && u.lifecycle == s.lifecycle
    ensures Single(u)
  {
  }

  lemma {:induction false} PersistSingle(s: State, l: Loop, o: Outcome, cancelled: bool)
    requires Single(s)
    ensures Single(LoopStep(s, Persist(l, o, cancelled)))
  {
    hide Single, Epoch;
    var u := LoopStep(s, Persist(l, o, cancelled));
    if l in s.loops && l.phase.Trying? {
      ReplaceSingle(s, l, Working);
      ReplaceSingle(s, l, Saved(l.phase.epoch));
      SingleSame(if !Stores(s, Persist(l, o, cancelled)) then Replace(s, l, Working)
                 else if o.Done? then Replace(s, l, Saved(l.phase.epoch)) else s, u);
    }
  }

  lemma {:induction false} ConflictSingle(s: State, l: Loop)
    requires Single(s)
    ensures Single(LoopStep(s, Conflict(l)))
  {
    hide Single, Epoch;
    if l in s.loops && l.phase.Trying? {
      ReplaceSingle(s, l, Working);
      ReplaceSingle(s, l, Saved(l.phase.epoch));
      SingleSame(if Epoch(s, l.worker) != l.phase.epoch then Replace(s, l, Working)
          else Replace(s, l, Saved(l.phase.epoch)),
                 LoopStep(s, Conflict(l)));
    }
  }

  lemma {:induction false} FailSingle(s: State, l: Loop)
    requires Single(s)
    ensures Single(LoopStep(s, Fail(l)))
  {
    hide Single, Epoch;
    if l in s.loops { ReplaceSingle(s, l, Trying(Epoch(s, l.worker))); }
  }

  lemma {:induction false} EndSingle(s: State, l: Loop)
    requires Single(s)
    ensures Single(LoopStep(s, Retire(l))) && Single(LoopStep(s, LoopEnds(l)))
  {
    hide Single, Epoch;
    if l in s.loops { ReplaceSingle(s, l, Working); }
  }

  lemma {:induction false} StepKeeps(s: State, e: Event)
    requires Inv(s)
    ensures Inv(Step(s, e))
  {
    hide Records, Single, LoopStep, LifecycleStep;
    match e
    case Fail(l) => LoopRecords(s, e); FailSingle(s, l);
    case Persist(l, o, cancelled) => LoopRecords(s, e); PersistSingle(s, l, o, cancelled);
    case Conflict(l) => LoopRecords(s, e); ConflictSingle(s, l);
    case Retire(l) => LoopRecords(s, e); EndSingle(s, l);
    case LoopEnds(l) => LoopRecords(s, e); EndSingle(s, l);
    case _ => LifecycleRecords(s, e); LifecycleSingle(s, e);
  }

  lemma {:induction false} Reachable(left: Leftover, es: seq<Event>, n: nat)
    requires n <= |es|
    ensures Inv(Run(left, es, n))
  {
    hide Inv, Step;
    if n == 0 {
      BegunWell(left);
    } else {
      Reachable(left, es, n - 1);
      StepKeeps(Run(left, es, n - 1), es[n - 1]);
    }
  }

  lemma {:induction false} BegunWell(left: Leftover)
    ensures Inv(Begun(left))
  {
  }

  // ---------------------------------------------------------------- what follows for every run

  /** A reset of worker w that succeeded: its own, or a reload of everything. */
  predicate Resets(s: State, e: Event, w: nat) {
    (e == Reset(Done) && s.lifecycle.Resetting? && s.lifecycle.worker == w)
        || (e.FullReset? && s.lifecycle.ReloadBegun?)
  }

  lemma {:induction false} EpochStep(s: State, e: Event, w: nat)
    requires Tokens(s)
    ensures Epoch(Step(s, e), w) >= Epoch(s, w)
    ensures Resets(s, e, w) ==> Epoch(Step(s, e), w) > s.counter >= Epoch(s, w)
    ensures !Resets(s, e, w) ==> Epoch(Step(s, e), w) == Epoch(s, w)
  {
    EpochBound(s, w);
    hide LoopStep;
    match e
    case Reset(_) =>
    case FullReset(_) =>
    case _ => hide LifecycleStep;
  }

  /** Epochs only rise, and a reset raises them above every token drawn before. */
  lemma {:induction false} EpochsRise(left: Leftover, es: seq<Event>, i: nat, j: nat, w: nat)
    requires i <= j <= |es|
    ensures Epoch(Run(left, es, i), w) <= Epoch(Run(left, es, j), w)
    decreases j - i
  {
    hide Step, Epoch, Inv, Run, Tokens;
    if i < j {
      EpochsRise(left, es, i, j - 1, w);
      Reachable(left, es, j - 1);
      TokensOf(Run(left, es, j - 1));
      EpochStep(Run(left, es, j - 1), es[j - 1], w);
      RunNext(left, es, j - 1);
    }
  }

  /**
   The main result.  Once a reset of w succeeded, whatever is stored or retires a loop
   afterwards belongs to a lifecycle that began after it; so does whatever is shown by a
   request that reads the database in state k and memory in state j, except a left over record.
   */
  lemma {:induction false} NothingFromBefore(left: Leftover, es: seq<Event>, i: nat, k: nat, j: nat, w: nat)
    requires i < k <= j <= |es| && Resets(Run(left, es, i), es[i], w)
    ensures var db, s, before := Run(left, es, k), Run(left, es, j), Run(left, es, i).counter;
            && (w in s.exhausted ==> s.exhausted[w] > before)
            && (w in s.durable && w !in s.dirty ==> s.durable[w] > before)
            && (Shown(db, s, w).Some? && Shown(db, s, w).value <= before ==> w in db.dirty && w !in s.exhausted)
            && (j < |es| && Stores(s, es[j]) && es[j].loop.worker == w ==> es[j].loop.phase.epoch > before)
            && (j < |es| && Retires(s, es[j]) && es[j].loop.worker == w ==> es[j].loop.phase.epoch > before)
  {
    hide Run, Step, Inv, Resets, Stores, Retires, Epoch, Tokens;
    AboveReset(left, es, i, k, w);
    AboveReset(left, es, i, j, w);
    var before := Run(left, es, i).counter;
    AfterReset(Run(left, es, k), before, w, AwaitOver);
    AfterReset(Run(left, es, j), before, w, if j < |es| then es[j] else AwaitOver);
  }

  lemma {:induction false} AboveReset(left: Leftover, es: seq<Event>, i: nat, j: nat, w: nat)
    requires i < j <= |es| && Resets(Run(left, es, i), es[i], w)
    ensures Inv(Run(left, es, j)) && Epoch(Run(left, es, j), w) > Run(left, es, i).counter
  {
    hide Run, Step, Inv, Resets, Epoch, Tokens;
    Reachable(left, es, i);
    TokensOf(Run(left, es, i));
    EpochStep(Run(left, es, i), es[i], w);
    EpochsRise(left, es, i + 1, j, w);
    Reachable(left, es, j);
    RunNext(left, es, i);
  }

  lemma {:induction false} RunNext(left: Leftover, es: seq<Event>, i: nat)
    requires i < |es|
    ensures Run(left, es, i + 1) == Step(Run(left, es, i), es[i])
  {
  }

  lemma {:induction false} TokensOf(s: State)
    requires Inv(s)
    ensures Tokens(s)
  {
  }

  lemma {:induction false} AfterReset(s: State, before: nat, w: nat, e: Event)
    requires Inv(s) && Epoch(s, w) > before
    ensures w in s.exhausted ==> s.exhausted[w] > before
    ensures w in s.durable && w !in s.dirty ==> s.durable[w] > before
    ensures Stores(s, e) && e.loop.worker == w ==> e.loop.phase.epoch > before
    ensures Retires(s, e) && e.loop.worker == w ==> e.loop.phase.epoch > before
  {
    hide Single;
  }

  // ---------------------------------------------------------------- what an operator is shown

  /**
   The record a status request shows: the database was read in state db, memory in a state at
   or after it, and memory wins.
   */
  function Shown(db: State, s: State, w: nat): Option<int> {
    if w in s.exhausted then Some(s.exhausted[w])
    else if w in db.durable then Some(db.durable[w])
    else None
  }

  /**
   A request shows a record of another lifecycle than the worker's current one exactly when
   memory has none and the database record was left over, or the worker was reset in between.
   */
  lemma {:induction false} StaleExactly(left: Leftover, es: seq<Event>, i: nat, j: nat, w: nat)
    requires i <= j <= |es|
    ensures var db, s := Run(left, es, i), Run(left, es, j);
            var shown := Shown(db, s, w);
            && (shown.Some? && shown.value != Epoch(s, w)
                <==> w !in s.exhausted && w in db.durable && (w in db.dirty || Epoch(db, w) != Epoch(s, w)))
            && (shown.Some? ==> shown.value <= Epoch(s, w))
  {
    hide Run, Epoch, Single, Tokens;
    Reachable(left, es, i);
    Reachable(left, es, j);
    EpochsRise(left, es, i, j, w);
  }

  /** The step writes or removes the stored record of w. */
  predicate Touches(s: State, e: Event, w: nat) {
    || (e.Reset? && !e.outcome.Failed? && s.lifecycle.Resetting? && s.lifecycle.worker == w)
    || (e.FullReset? && !e.outcome.Failed? && s.lifecycle.ReloadBegun?)
    || (Stores(s, e) && !e.outcome.Failed? && e.loop.worker == w)
  }

  /** A record becomes left over when a reload cannot clear it, and stays so until it is written or removed. */
  lemma {:induction false} LeftOverExactly(s: State, e: Event, w: nat)
    requires Inv(s)
    ensures w in Step(s, e).dirty <==>
            || (e == FullReset(Failed) && s.lifecycle.ReloadBegun? && w in s.durable)
            || (w in s.dirty && !Touches(s, e, w))
  {
    hide Epoch, Single, Tokens, Workers;
    match e
    case Reset(_) =>
    case FullReset(_) =>
    case Persist(_, _, _) =>
    case _ => DirtySame(s, e);
  }

  lemma {:induction false} DirtySame(s: State, e: Event)
    requires !e.Reset? && !e.FullReset? && !e.Persist?
    ensures Step(s, e).dirty == s.dirty
  {
    hide Epoch, Workers;
  }

  /** A worker exhausts its restarts, and the reload that follows cannot clear the record. */
  const UNCLEARED := [
    BeginReload({0}), FullReset(Done), CancelLoops({}), LaunchAll,
    Fail(Loop(0, Working)), Persist(Loop(0, Trying(1)), Done, false),
    BeginReload({0}), FullReset(Failed)
  ]

  /** A reload of an idle supervisor launches the workers, whether or not the clear succeeds. */
  lemma {:induction false} ReloadLaunches(s: State, d: set<nat>, o: Outcome)
    requires s.lifecycle.Free? && s.loops == multiset{}
    ensures var a := Step(s, BeginReload(d));
            var b := Step(a, FullReset(o));
            var c := Step(b, CancelLoops({}));
            && b == LifecycleStep(s.(lifecycle := ReloadBegun(d)), FullReset(o))
            && Step(c, LaunchAll) == b.(loops := multiset(set w | w in d :: Loop(w, Working)), lifecycle := Free)
  {
    hide Launch, Workers, Epoch;
    CancelledLaunch(Step(Step(s, BeginReload(d)), FullReset(o)), d);
  }

  lemma {:induction false} CancelledLaunch(s: State, d: set<nat>)
    requires s.lifecycle == ReloadReset(d) && s.loops == multiset{}
    ensures Step(Step(s, CancelLoops({})), LaunchAll)
         == s.(loops := multiset(set w | w in d :: Loop(w, Working)), lifecycle := Free)
  {
    hide Epoch;
    assert Workers(s.loops) == {};
  }

  /** The worker fails for the last time and its record is stored. */
  lemma {:induction false} FailureIsStored(s: State, w: nat)
    requires s.loops == multiset{Loop(w, Working)}
    ensures var a := Step(s, Fail(Loop(w, Working)));
            var b := Step(a, Persist(Loop(w, Trying(Epoch(s, w))), Done, false));
            b.durable == s.durable[w := Epoch(s, w)]
                && b == s.(exhausted := b.exhausted, durable := b.durable, dirty := b.dirty, loops := b.loops)
  {
    var e := Epoch(s, w);
    var a := Step(s, Fail(Loop(w, Working)));
    assert Epoch(a, w) == e;
    hide Epoch;
    assert Loop(w, Trying(e)) in a.loops;
  }

  /** A reload whose clear fails leaves the record, under a new epoch and with memory empty. */
  lemma {:induction false} ReloadLeaves(s: State, d: set<nat>, w: nat)
    requires s.lifecycle.Free? && w in s.durable
    ensures var u := Step(Step(s, BeginReload(d)), FullReset(Failed));
            Epoch(u, w) == s.counter + 1 && Shown(u, u, w) == Some(s.durable[w])
  {
  }

  lemma UnclearedIsShown()
    ensures var s := Run(map[], UNCLEARED, 8);
            Epoch(s, 0) == 2 && Shown(s, s, 0) == Some(1)
  {
    hide Run, Step, Epoch;
    Exhausts();
    RunNext(map[], UNCLEARED, 6);
    RunNext(map[], UNCLEARED, 7);
    ReloadLeaves(Run(map[], UNCLEARED, 6), {0}, 0);
  }

  lemma Exhausts()
    ensures var s := Run(map[], UNCLEARED, 6);
            s.durable == map[0 := 1] && s.counter == 1 && s.lifecycle.Free?
  {
    hide Run, Step;
    Launched();
    RunNext(map[], UNCLEARED, 4);
    RunNext(map[], UNCLEARED, 5);
    FailureIsStored(Run(map[], UNCLEARED, 4), 0);
  }

  lemma Launched()
    ensures Run(map[], UNCLEARED, 4) == State(1, 1, map[], map[], map[], {}, multiset{Loop(0, Working)}, Free, {})
  {
    hide Run, Step;
    RunNext(map[], UNCLEARED, 0);
    RunNext(map[], UNCLEARED, 1);
    RunNext(map[], UNCLEARED, 2);
    RunNext(map[], UNCLEARED, 3);
    RunStarts(map[], UNCLEARED);
    ReloadLaunches(Begun(map[]), {0}, Done);
    assert (set w | w in {0} :: Loop(w, Working)) == {Loop(0, Working)};
  }

  lemma {:induction false} RunStarts(left: Leftover, es: seq<Event>)
    ensures Run(left, es, 0) == Begun(left)
  {
  }

  // ---------------------------------------------------------------- what an operator's command leads to

  /** The events on which the holder of the lifecycle lock goes on. */
  predicate Moves(c: Lifecycle, e: Event) {
    match c
    case Free => e.Begin? || e.RestartRun? || e.BeginReload?
    case Resetting(_, _) => e.Reset?
    case ResetDone(_, _) => e.Proceed?
    case AwaitingEnd(_) => e.AwaitOver?
    case ReloadBegun(_) => e.FullReset?
    case ReloadReset(_) => e.CancelLoops?
    case AwaitingEnds(_, _) => e.LaunchAll?
  }

  lemma {:induction false} HeldStep(s: State, e: Event)
    requires !Moves(s.lifecycle, e)
    ensures Step(s, e).lifecycle == s.lifecycle && Workers(Step(s, e).loops) <= Workers(s.loops)
  {
    LockHeld(s, e);
    NoneLaunched(s, e);
    hide LifecycleStep, LoopStep, Moves;
  }

  lemma {:induction false} LockHeld(s: State, e: Event)
    requires !Moves(s.lifecycle, e)
    ensures LifecycleStep(s, e).lifecycle == s.lifecycle && LifecycleStep(s, e).loops == s.loops
  {
    hide Epoch, Workers, Launch, Clear;
  }

  /** A loop that moves to another phase or ends adds no worker. */
  lemma {:induction false} SameWorkers(s: State, l: Loop, phase: Phase)
    requires l in s.loops
    ensures Workers(Replace(s, l, phase).loops) <= Workers(s.loops)
    ensures Workers(s.loops - multiset{l}) <= Workers(s.loops)
  {
    var u := Replace(s, l, phase).loops;
    assert forall m :: m in u ==> m in s.loops || m.worker == l.worker;
    assert l.worker in Workers(s.loops);
  }

  lemma {:induction false} NoneLaunched(s: State, e: Event)
    ensures Workers(LoopStep(s, e).loops) <= Workers(s.loops)
  {
    hide Epoch, Workers;
    match e
    case Fail(l) => if l in s.loops { SameWorkers(s, l, Trying(Epoch(s, l.worker))); }
    case Persist(l, o, _) =>
      if l in s.loops && l.phase.Trying? {
        SameWorkers(s, l, Working);
        SameWorkers(s, l, Saved(l.phase.epoch));
      }
    case Conflict(l) =>
      if l in s.loops && l.phase.Trying? {
        SameWorkers(s, l, Working);
        SameWorkers(s, l, Saved(l.phase.epoch));
      }
    case Retire(l) => if l in s.loops { SameWorkers(s, l, Working); }
    case LoopEnds(l) => if l in s.loops { SameWorkers(s, l, Working); }
    case _ =>
  }

  lemma {:induction false} LaunchedHas(s: State, ws: set<nat>, w: nat)
    requires w in ws
    ensures w in Workers(Launch(s, ws).loops)
  {
    var ls := set v | v in ws :: Loop(v, Working);
    assert Loop(w, Working) in ls;
    assert Loop(w, Working) in Launch(s, ws).loops;
  }

  /** Until then the lock stays with its holder, and no loop is launched. */
  lemma {:induction false} Held(left: Leftover, es: seq<Event>, i: nat, j: nat)
    requires i <= j <= |es| && forall k :: i <= k < j ==> !Moves(Run(left, es, i).lifecycle, es[k])
    ensures Run(left, es, j).lifecycle == Run(left, es, i).lifecycle
    ensures Workers(Run(left, es, j).loops) <= Workers(Run(left, es, i).loops)
    decreases j - i
  {
    hide Run, Step, Moves;
    if i < j {
      Held(left, es, i, j - 1);
      HeldStep(Run(left, es, j - 1), es[j - 1]);
      RunNext(left, es, j - 1);
    }
  }

  /** No reset of w succeeds from event i up to event j. */
  predicate Undisturbed(left: Leftover, es: seq<Event>, i: nat, j: nat, w: nat)
    requires i <= j <= |es|
  {
    forall k :: i <= k < j ==> !Resets(Run(left, es, k), es[k], w)
  }

  /** Two states of a run agree on the epoch of w exactly when no reset of w succeeded between them. */
  lemma {:induction false} SameEpochExactly(left: Leftover, es: seq<Event>, i: nat, j: nat, w: nat)
    requires i <= j <= |es|
    ensures Epoch(Run(left, es, i), w) == Epoch(Run(left, es, j), w)
        <==> Undisturbed(left, es, i, j, w)
    decreases j - i
  {
    hide Run, Step, Epoch, Inv, Tokens, Resets;
    if i < j {
      var s := Run(left, es, j - 1);
      SameEpochExactly(left, es, i, j - 1, w);
      EpochsRise(left, es, i, j - 1, w);
      Reachable(left, es, j - 1);
      TokensOf(s);
      EpochStep(s, es[j - 1], w);
      RunNext(left, es, j - 1);
    }
  }

  /**
   A restart that waited for the old loop: at i it was stored, at k it is run.  It takes the
   lock and its next step launches a loop exactly when no reset of the worker succeeded in
   between; otherwise it is dropped and nothing is launched.
   */
  lemma {:induction false} RestartExactly(left: Leftover, es: seq<Event>, i: nat, k: nat, m: nat, w: nat)
    requires i < k < m < |es| && es[i].Proceed? && Run(left, es, i).lifecycle == ResetDone(w, true)
    requires es[k] == RestartRun(Restart(w, Epoch(Run(left, es, i), w)))
    requires es[k].waiting in Run(left, es, k).restarts && Run(left, es, k).lifecycle.Free?
    requires w !in Workers(Run(left, es, k).loops)
    requires es[m].Proceed? && forall j :: k < j < m ==> !es[j].Proceed?
    ensures es[k].waiting !in Run(left, es, k + 1).restarts
    ensures Undisturbed(left, es, i, k, w) ==> w in Workers(Run(left, es, m + 1).loops)
    ensures !Undisturbed(left, es, i, k, w) ==>
              var s, u := Run(left, es, k), Run(left, es, k + 1); u == s.(restarts := s.restarts - {es[k].waiting})
  {
    hide Run, Step, Epoch, Undisturbed, Workers, Moves, Launch;
    SameEpochExactly(left, es, i, k, w);
    RestartTaken(Run(left, es, k), es[k].waiting);
    RunNext(left, es, k);
    if Run(left, es, k + 1).lifecycle == ResetDone(w, false) {
      ProceedMoves(w, false);
      Held(left, es, k + 1, m);
      StartTaken(Run(left, es, m), w, es[m].running);
      RunNext(left, es, m);
    }
  }

  /**
   A loop that used up its restarts at i and is not stopped may store that at k exactly when no
   reset of the worker succeeded in between; otherwise it goes back to work and nothing is stored.
   */
  lemma {:induction false} FailureExactly(left: Leftover, es: seq<Event>, i: nat, k: nat, w: nat, o: Outcome)
    requires i < k < |es| && es[i] == Fail(Loop(w, Working))
    requires es[k] == Persist(Loop(w, Trying(Epoch(Run(left, es, i), w))), o, false)
    requires es[k].loop in Run(left, es, k).loops
    ensures Undisturbed(left, es, i, k, w) <==> Stores(Run(left, es, k), es[k])
    ensures !Undisturbed(left, es, i, k, w) ==> BackToWork(Run(left, es, k), es[k].loop, Run(left, es, k + 1))
  {
    hide Run, Step, Epoch, Undisturbed;
    SameEpochExactly(left, es, i, k, w);
    RunNext(left, es, k);
    PersistTaken(Run(left, es, k), es[k]);
  }

  /** A loop whose record was stored at i ends at k exactly when no reset of the worker succeeded in between. */
  lemma {:induction false} RetireExactly(left: Leftover, es: seq<Event>, i: nat, k: nat, w: nat, epoch: nat)
    requires i < k < |es| && es[i] == Persist(Loop(w, Trying(epoch)), Done, false) && Stores(Run(left, es, i), es[i])
    requires es[k] == Retire(Loop(w, Saved(epoch))) && es[k].loop in Run(left, es, k).loops
    ensures Undisturbed(left, es, i, k, w) ==> w !in Workers(Run(left, es, k + 1).loops)
    ensures !Undisturbed(left, es, i, k, w) ==> BackToWork(Run(left, es, k), es[k].loop, Run(left, es, k + 1))
  {
    hide Run, Step, Epoch, Undisturbed, Inv;
    SameEpochExactly(left, es, i, k, w);
    RunNext(left, es, k);
    Reachable(left, es, k);
    RetireTaken(Run(left, es, k), es[k]);
  }

  /** The loop goes on as if it had not failed, and nothing else changes. */
  predicate BackToWork(s: State, l: Loop, u: State) {
    u == s.(loops := s.loops - multiset{l} + multiset{Loop(l.worker, Working)})
  }

  lemma {:induction false} PersistTaken(s: State, e: Event)
    requires e.Persist? && e.loop in s.loops && e.loop.phase.Trying? && !e.cancelled
    ensures Stores(s, e) <==> Epoch(s, e.loop.worker) == e.loop.phase.epoch
    ensures !Stores(s, e) ==> BackToWork(s, e.loop, Step(s, e))
  {
    hide Epoch;
  }

  lemma {:induction false} RetireTaken(s: State, e: Event)
    requires Inv(s) && e.Retire? && e.loop in s.loops && e.loop.phase.Saved?
    ensures if Epoch(s, e.loop.worker) == e.loop.phase.epoch then e.loop.worker !in Workers(Step(s, e).loops)
            else BackToWork(s, e.loop, Step(s, e))
  {
    hide Epoch, Records, Workers;
    RemoveSingle(s, e.loop);
  }

  /** The restart is there to be run until it is. */
  lemma {:induction false} RestartWaits(left: Leftover, es: seq<Event>, i: nat, k: nat, w: nat)
    requires i < k <= |es| && es[i].Proceed? && Run(left, es, i).lifecycle == ResetDone(w, true)
    requires forall j :: i < j < k ==> es[j] != RestartRun(Restart(w, Epoch(Run(left, es, i), w)))
    ensures Restart(w, Epoch(Run(left, es, i), w)) in Run(left, es, k).restarts
  {
    hide Run, Step, Epoch;
    RunNext(left, es, k - 1);
    if k == i + 1 {
      RestartStored(Run(left, es, i), es[i].running);
    } else {
      RestartWaits(left, es, i, k - 1, w);
      RestartStays(Run(left, es, k - 1), es[k - 1], Restart(w, Epoch(Run(left, es, i), w)));
    }
  }

  lemma {:induction false} RestartStored(s: State, running: bool)
    requires s.lifecycle.ResetDone? && s.lifecycle.restart
    ensures var u := Step(s, Proceed(running));
            && Restart(s.lifecycle.worker, Epoch(s, s.lifecycle.worker)) in u.restarts
            && u.lifecycle.Free? && u.loops == s.loops
  {
  }

  lemma {:induction false} RestartStays(s: State, e: Event, r: Restart)
    requires r in s.restarts && e != RestartRun(r)
    ensures r in Step(s, e).restarts
  {
    hide Epoch, Workers;
  }

  /**
   An operator's start or restart: at i it takes the lock, at j the first reset attempt
   succeeds, and m is its next step.  A restart is then stored.  After a start the worker has
   a loop, or the lock waits for an idle loop of it to end.
   */
  lemma {:induction false} CommandLeadsOn(left: Leftover, es: seq<Event>, i: nat, j: nat, m: nat, w: nat, restart: bool)
    requires i < j < m < |es| && Run(left, es, i).lifecycle.Free? && es[i] == Begin(w, restart)
    requires es[j] == Reset(Done) && forall k :: i < k < j ==> !es[k].Reset?
    requires es[m].Proceed? && forall k :: j < k < m ==> !es[k].Proceed?
    ensures var s, u := Run(left, es, m), Run(left, es, m + 1);
            if restart then u.lifecycle.Free? && Restart(w, Epoch(s, w)) in u.restarts
            else if w in Workers(s.loops) && !es[m].running then u.lifecycle == AwaitingEnd(w)
            else u.lifecycle.Free? && w in Workers(u.loops)
  {
    hide Run, Step, Epoch, Workers, Moves;
    ResetMoves(w, restart);
    ProceedMoves(w, restart);
    RunNext(left, es, i);
    CommandBegins(Run(left, es, i), w, restart);
    Held(left, es, i + 1, j);
    RunNext(left, es, j);
    ResetTaken(Run(left, es, j));
    Held(left, es, j + 1, m);
    RunNext(left, es, m);
    if restart {
      RestartStored(Run(left, es, m), es[m].running);
    } else {
      StartTaken(Run(left, es, m), w, es[m].running);
    }
  }

  /** A start that waits for an idle loop launches the new one as soon as the old one is gone. */
  lemma {:induction false} WaitLeadsOn(left: Leftover, es: seq<Event>, i: nat, m: nat, w: nat)
    requires i <= m < |es| && Run(left, es, i).lifecycle == AwaitingEnd(w)
    requires es[m].AwaitOver? && forall k :: i <= k < m ==> !es[k].AwaitOver?
    ensures var s, u := Run(left, es, m), Run(left, es, m + 1);
            if w in Workers(s.loops) then u == s else u.lifecycle.Free? && w in Workers(u.loops)
  {
    hide Run, Step, Epoch, Workers, Moves;
    AwaitMoves(w);
    Held(left, es, i, m);
    RunNext(left, es, m);
    WaitTaken(Run(left, es, m), w);
  }

  /**
   A reload: at i it takes the lock, at j the records are cleared or could not be, at m it
   cancels the loops it does not keep, and at n it finds them gone or goes on waiting.  When
   they are gone every wanted worker whose loop was not kept gets a new one.
   */
  lemma {:induction false} ReloadLeadsOn(left: Leftover, es: seq<Event>, i: nat, j: nat, m: nat, n: nat, d: set<nat>)
    requires i < j < m < n < |es| && Run(left, es, i).lifecycle.Free? && es[i] == BeginReload(d)
    requires es[j].FullReset? && forall k :: i < k < j ==> !es[k].FullReset?
    requires es[m].CancelLoops? && forall k :: j < k < m ==> !es[k].CancelLoops?
    requires es[m].kept <= d * Workers(Run(left, es, m).loops)
    requires es[n].LaunchAll? && forall k :: m < k < n ==> !es[k].LaunchAll?
    ensures var s, u, gone := Run(left, es, n), Run(left, es, n + 1), Workers(Run(left, es, m).loops) - es[m].kept;
            if gone !! Workers(s.loops) then u.lifecycle.Free? && u.loops == s.loops + Fresh(d - es[m].kept) else u == s
  {
    hide Run, Step, Epoch, Workers, Moves;
    ReloadMoves(d, d - es[m].kept, Workers(Run(left, es, m).loops) - es[m].kept);
    RunNext(left, es, i);
    ReloadBegins(Run(left, es, i), d);
    Held(left, es, i + 1, j);
    RunNext(left, es, j);
    ReloadResets(Run(left, es, j), es[j].outcome);
    Held(left, es, j + 1, m);
    RunNext(left, es, m);
    ReloadCancels(Run(left, es, m), es[m].kept);
    Held(left, es, m + 1, n);
    RunNext(left, es, n);
    ReloadEnds(Run(left, es, n));
  }

  lemma {:induction false} ReloadMoves(d: set<nat>, rest: set<nat>, ends: set<nat>)
    ensures forall e ::
              && (Moves(ReloadBegun(d), e) <==> e.FullReset?) && (Moves(ReloadReset(d), e) <==> e.CancelLoops?)
              && (Moves(AwaitingEnds(rest, ends), e) <==> e.LaunchAll?)
  {
  }

  lemma {:induction false} ReloadBegins(s: State, d: set<nat>)
    requires s.lifecycle.Free?
    ensures Step(s, BeginReload(d)).lifecycle == ReloadBegun(d)
  {
  }

  lemma {:induction false} ReloadResets(s: State, o: Outcome)
    requires s.lifecycle.ReloadBegun?
    ensures Step(s, FullReset(o)).lifecycle == ReloadReset(s.lifecycle.desired)
  {
  }

  lemma {:induction false} ReloadCancels(s: State, kept: set<nat>)
    requires s.lifecycle.ReloadReset? && kept <= s.lifecycle.desired * Workers(s.loops)
    ensures Step(s, CancelLoops(kept)).lifecycle == AwaitingEnds(s.lifecycle.desired - kept, Workers(s.loops) - kept)
  {
  }

  lemma {:induction false} ReloadEnds(s: State)
    requires s.lifecycle.AwaitingEnds?
    ensures var u := Step(s, LaunchAll);
            if s.lifecycle.ends !! Workers(s.loops)
            then u.lifecycle.Free? && u.loops == s.loops + Fresh(s.lifecycle.desired) else u == s
  {
  }

  /** One new loop for each of these workers. */
  function Fresh(ws: set<nat>): multiset<Loop> { multiset(set w | w in ws :: Loop(w, Working)) }

  lemma {:induction false} AwaitMoves(w: nat)
    ensures forall e :: Moves(AwaitingEnd(w), e) <==> e.AwaitOver?
  {
  }

  lemma {:induction false} WaitTaken(s: State, w: nat)
    requires s.lifecycle == AwaitingEnd(w)
    ensures var u := Step(s, AwaitOver);
            if w in Workers(s.loops) then u == s else u.lifecycle.Free? && w in Workers(u.loops)
  {
    hide Workers, Launch;
    LaunchedHas(s, {w}, w);
    LaunchFrees(s, {w});
  }

  lemma {:induction false} CommandBegins(s: State, w: nat, restart: bool)
    requires s.lifecycle.Free?
    ensures Step(s, Begin(w, restart)).lifecycle == Resetting(w, restart)
  {
  }

  lemma {:induction false} ResetTaken(s: State)
    requires s.lifecycle.Resetting?
    ensures Step(s, Reset(Done)).lifecycle == ResetDone(s.lifecycle.worker, s.lifecycle.restart)
  {
  }

  lemma {:induction false} ResetMoves(w: nat, restart: bool)
    ensures forall e :: Moves(Resetting(w, restart), e) <==> e.Reset?
  {
  }

  lemma {:induction false} ProceedMoves(w: nat, restart: bool)
    ensures forall e :: Moves(ResetDone(w, restart), e) <==> e.Proceed?
  {
  }

  lemma {:induction false} RestartTaken(s: State, r: Restart)
    requires s.lifecycle.Free? && r in s.restarts && r.worker !in Workers(s.loops)
    ensures var u := Step(s, RestartRun(r));
            if Epoch(s, r.worker) == r.epoch
            then u == s.(restarts := s.restarts - {r}, lifecycle := ResetDone(r.worker, false))
            else u == s.(restarts := s.restarts - {r})
  {
  }

  lemma {:induction false} LaunchFrees(s: State, ws: set<nat>)
    ensures Launch(s, ws).lifecycle.Free?
  {
  }

  lemma {:induction false} StartTaken(s: State, w: nat, running: bool)
    requires s.lifecycle == ResetDone(w, false)
    ensures var u := Step(s, Proceed(running));
            if w in Workers(s.loops) && !running then u.lifecycle == AwaitingEnd(w) && u.loops == s.loops
            else u.lifecycle.Free? && w in Workers(u.loops)
  {
    hide Epoch, Workers, Launch;
    LaunchedHas(s, {w}, w);
    LaunchFrees(s, {w});
  }

  /** In every reachable state each worker has at most one supervision loop. */
  lemma {:induction false} OneLoopPerWorker(left: Leftover, es: seq<Event>, n: nat, l: Loop, m: Loop)
    requires n <= |es| && l in Run(left, es, n).loops && m in Run(left, es, n).loops && l.worker == m.worker
    ensures l == m && Run(left, es, n).loops[l] == 1
  {
    Reachable(left, es, n);
    hide Run;
  }
}
